/**
 Repeated tool errors: a run's state remembers the digest of the last accepted result, the length of the trailing
 block of equal errors, and the call ids of the last accepted results, so that a result reported twice counts once.
 */
module ToolResults {
  import opened Wrappers
  import opened Digests
  import opened Repetition
  import Ascii

  datatype ToolResult = ToolResult(callId: string, tool: string, failed: bool, code: string)

  predicate Alphanumeric(c: char) { 'A' <= c <= 'Z' || 'a' <= c <= 'z' || '0' <= c <= '9' }

  predicate LabelChar(c: char) { Alphanumeric(c) || c == '_' || c == '.' || c == ':' || c == '/' || c == '-' }

  predicate Label(s: string) {
    0 < |s| <= 128 && Alphanumeric(s[0]) && forall i :: 1 <= i < |s| ==> LabelChar(s[i])
  }

  predicate Code(s: string) {
    0 < |s| <= 64 && forall i :: 0 <= i < |s| ==> 'a' <= s[i] <= 'z' || '0' <= s[i] <= '9' || s[i] == '_'
  }

  predicate ValidResult(r: ToolResult) {
    Label(r.callId) && Label(r.tool) && (if r.failed then Code(r.code) else r.code == "")
  }

  /** The grammar of labels and codes, and what a result must have. */
  lemma ValidResultExactlyWhen(r: ToolResult)
    ensures forall s :: Label(s) <==>
              && 0 < |s| < 129 && Ascii.Plain(s[0])
              && forall c :: c in s ==> Ascii.Plain(c) || c in "_.:/-"
    ensures forall s :: Code(s) <==>
              0 < |s| < 65 && forall c :: c in s ==> Ascii.Lower(c) || Ascii.Digit(c) || c == '_'
    ensures ValidResult(r) <==>
              Label(r.callId) && Label(r.tool) && (r.failed ==> Code(r.code)) && (!r.failed ==> r.code == "")
  {
    forall s: string
      ensures forall i :: 0 <= i < |s| ==> s[i] in s
    {
    }
  }

  function Text(r: ToolResult): string {
    r.tool + "\0" + (if r.failed then "error" else "success") + "\0" + r.code
  }

  lemma CutAtNul(a: string, x: string, b: string, y: string)
    requires '\0' !in a && '\0' !in b && a + "\0" + x == b + "\0" + y
    ensures a == b && x == y
  {
    var s, t := a + "\0" + x, b + "\0" + y;
    assert s[|a|] == '\0' && t[|b|] == '\0';
    assert forall i :: 0 <= i < |a| ==> s[i] == a[i];
    assert forall i :: 0 <= i < |b| ==> t[i] == b[i];
    assert |a| == |b|;
    assert a == s[..|a|] && b == t[..|b|] && x == s[|a| + 1..] && y == t[|b| + 1..];
  }

  /** Two valid results have the same digest exactly when tool, status and code agree. */
  lemma DigestIsFaithful(r: ToolResult, q: ToolResult)
    requires ValidResult(r) && ValidResult(q)
    ensures Sha256(Text(r)) == Sha256(Text(q)) <==> r.(callId := "") == q.(callId := "")
  {
    if Text(r) == Text(q) {
      var rs, qs := if r.failed then "error" else "success", if q.failed then "error" else "success";
      assert Text(r) == r.tool + "\0" + (rs + "\0" + r.code);
      assert Text(q) == q.tool + "\0" + (qs + "\0" + q.code);
      CutAtNul(r.tool, rs + "\0" + r.code, q.tool, qs + "\0" + q.code);
      CutAtNul(rs, r.code, qs, q.code);
      assert rs[0] == 'e' <==> r.failed;
      assert qs[0] == 'e' <==> q.failed;
    }
  }

  datatype ToolState = ToolState(fingerprint: Option<Digest<string>>, count: nat, seen: set<string>,
      seenOrder: seq<string>)

  const NEW_STATE := ToolState(None, 0, {}, [])

  function Forget(state: ToolState): ToolState
    requires |state.seen| >= MAX_FEEDBACK_IDS ==> |state.seenOrder| > 0
  {
    if |state.seen| >= MAX_FEEDBACK_IDS then
      state.(seen := state.seen - {state.seenOrder[0]}, seenOrder := state.seenOrder[1..])
    else state
  }

  function Accept(state: ToolState, r: ToolResult): ToolState
    requires |state.seen| >= MAX_FEEDBACK_IDS ==> |state.seenOrder| > 0
  {
    if r.callId in state.seen then state
    else
      var room, fp := Forget(state), Sha256(Text(r));
      ToolState(Some(fp),
                if !r.failed then 0 else if state.fingerprint == Some(fp) then state.count + 1 else 1,
                room.seen + {r.callId}, room.seenOrder + [r.callId])
  }

  /** The order lists the ids it remembers, without repeats. */
  ghost predicate OrderLists(state: ToolState) {
    && (forall id :: id in state.seenOrder <==> id in state.seen)
    && (forall i, j :: 0 <= i < j < |state.seenOrder| ==> state.seenOrder[i] != state.seenOrder[j])
    && |state.seenOrder| == |state.seen| <= MAX_FEEDBACK_IDS
  }

  lemma ForgetKeepsOrder(state: ToolState)
    requires OrderLists(state)
    ensures OrderLists(Forget(state)) && |Forget(state).seen| < MAX_FEEDBACK_IDS && Forget(state).seen <= state.seen
  {
    var room := Forget(state);
    if |state.seen| >= MAX_FEEDBACK_IDS {
      forall id
        ensures id in room.seenOrder <==> id in room.seen
      {
        if id in state.seenOrder {
          var i :| 0 <= i < |state.seenOrder| && state.seenOrder[i] == id;
          assert i > 0 ==> room.seenOrder[i - 1] == id;
        }
      }
    }
  }

  lemma AcceptKeepsOrder(state: ToolState, r: ToolResult)
    requires OrderLists(state)
    ensures OrderLists(Accept(state, r))
  {
    hide Forget;
    ForgetKeepsOrder(state);
    if r.callId !in state.seen {
      var room, next := Forget(state), Accept(state, r);
      assert r.callId !in room.seenOrder;
      forall id
        ensures id in next.seenOrder <==> id in next.seen
      {
        assert id in next.seenOrder <==> id in room.seenOrder || id == r.callId;
      }
    }
  }

  // ---------------------------------------------------------------- the specification: the accepted results

  type Accepted = seq<ToolResult>

  ghost predicate AllValid(acc: Accepted) { forall i :: 0 <= i < |acc| ==> ValidResult(acc[i]) }

  /** What an error is compared by. */
  ghost function Kinds(acc: Accepted): seq<ToolResult> {
    seq(|acc|, i requires 0 <= i < |acc| => acc[i].(callId := ""))
  }

  /** The number of results in the trailing block of one and the same error. */
  ghost function ErrorTrail(acc: Accepted): nat {
    if acc == [] || !acc[|acc| - 1].failed then 0 else Trail(Kinds(acc))
  }

  /** The call ids of the last 256 accepted results. */
  ghost function Window(acc: Accepted): seq<string> {
    var from := if |acc| > 256 then |acc| - 256 else 0;
    seq(|acc| - from, i requires 0 <= i < |acc| - from => acc[from + i].callId)
  }

  ghost predicate LastThreeErrorsSame(acc: Accepted) {
    |acc| >= 3 && var n := |acc|;
    acc[n - 1].failed && acc[n - 2].failed && acc[n - 3].failed
    && acc[n - 1].tool == acc[n - 2].tool == acc[n - 3].tool && acc[n - 1].code == acc[n - 2].code == acc[n - 3].code
  }

  /** The state of a run that was neither evicted nor reloaded since its first result. */
  ghost predicate Summarises(state: ToolState, acc: Accepted) {
    && AllValid(acc) && OrderLists(state) && state.seenOrder == Window(acc)
    && state.count == ErrorTrail(acc)
    && state.fingerprint == (if acc == [] then None else Some(Sha256(Text(acc[|acc| - 1]))))
  }

  lemma NextErrorTrail(acc: Accepted, r: ToolResult)
    requires r.failed
    ensures ErrorTrail(acc + [r])
            == if acc != [] && acc[|acc| - 1].(callId := "") == r.(callId := "") then ErrorTrail(acc) + 1 else 1
  {
    var all := acc + [r];
    var kinds := Kinds(all);
    assert kinds[..|kinds| - 1] == Kinds(acc);
    assert kinds[|kinds| - 1] == r.(callId := "");
    if acc != [] {
      assert kinds[|kinds| - 2] == acc[|acc| - 1].(callId := "");
    }
  }

  lemma OneMoreInWindow(acc: Accepted, r: ToolResult)
    ensures |Window(acc)| == if |acc| > MAX_FEEDBACK_IDS then MAX_FEEDBACK_IDS else |acc|
    ensures Window(acc + [r]) == (if |acc| >= MAX_FEEDBACK_IDS then Window(acc)[1..] else Window(acc)) + [r.callId]
  {
  }

  lemma WindowSlides(state: ToolState, acc: Accepted, r: ToolResult)
    requires OrderLists(state) && state.seenOrder == Window(acc) && r.callId !in Window(acc)
    ensures r.callId !in state.seen && Accept(state, r).seenOrder == Window(acc + [r])
  {
    hide Window, Text;
    OneMoreInWindow(acc, r);
    assert r.callId !in state.seenOrder;
  }

  lemma CountExtends(state: ToolState, acc: Accepted, r: ToolResult)
    requires Summarises(state, acc) && ValidResult(r) && r.callId !in state.seen
    ensures Accept(state, r).count == ErrorTrail(acc + [r])
  {
    hide Forget, Text, OrderLists;
    if r.failed {
      NextErrorTrail(acc, r);
      if acc != [] {
        DigestIsFaithful(acc[|acc| - 1], r);
      }
    }
  }

  /** A result whose id is in the window changes nothing; any other extends the accepted results. */
  lemma AcceptExtends(state: ToolState, acc: Accepted, r: ToolResult)
    requires Summarises(state, acc) && ValidResult(r)
    ensures r.callId in Window(acc) ==> Accept(state, r) == state
    ensures r.callId !in Window(acc) ==> Summarises(Accept(state, r), acc + [r])
  {
    hide Forget, Text, Window, ErrorTrail;
    AcceptKeepsOrder(state, r);
    if r.callId !in Window(acc) {
      WindowSlides(state, acc, r);
      CountExtends(state, acc, r);
    } else {
      assert r.callId in state.seenOrder;
    }
  }

  /** The counter reaches three exactly when the last three accepted results are the same error. */
  lemma ThreeMeansSameError(state: ToolState, acc: Accepted)
    requires Summarises(state, acc)
    ensures state.count >= 3 <==> LastThreeErrorsSame(acc)
  {
    hide OrderLists, Window, Text, ValidResult, Trail;
    var kinds, n := Kinds(acc), |acc|;
    if n >= 3 {
      TrailIsTrailing(kinds, 3);
      LastThree(kinds);
      assert kinds[n - 1] == acc[n - 1].(callId := "");
      assert kinds[n - 2] == acc[n - 2].(callId := "");
      assert kinds[n - 3] == acc[n - 3].(callId := "");
    } else {
      TrailAtMost(kinds);
    }
  }

  lemma LastThree<T>(h: seq<T>)
    requires |h| >= 3
    ensures var n := |h|;
            (forall i :: n - 3 <= i < n ==> h[i] == h[n - 1]) <==> h[n - 1] == h[n - 2] == h[n - 3]
  {
  }
}
