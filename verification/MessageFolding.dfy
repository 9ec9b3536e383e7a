/**
 The folding of Responses messages into the alternating form hosted Chat models accept.

 The loop is proved against a fold; the fold is proved to be the merging of maximal blocks of guidance and of user
 messages, and its results to be exactly its own fixed points.
 */
module MessageFolding {
  import opened Wrappers

  datatype Message =
    | System(text: string)
    | Developer(text: string)
    | User(text: string)
    | Assistant(text: string)
    | FunctionCall(id: string, name: string, arguments: string)
    | FunctionOutput(id: string, output: string)

  datatype Error = GuidanceAfterStart

  predicate Guidance(m: Message) { m.System? || m.Developer? }

  const BREAK := "\n\n"

  // ---------------------------------------------------------------- the fold

  /** At most one guidance message, a system one and first, and no two users side by side. */
  predicate NormalForm(ms: seq<Message>) {
    && (forall i :: 0 <= i < |ms| && Guidance(ms[i]) ==> i == 0 && ms[i].System?)
    && (forall i :: 0 < i < |ms| ==> !(ms[i - 1].User? && ms[i].User?))
  }

  function Push(acc: seq<Message>, m: Message): (r: Result<seq<Message>, Error>)
    requires NormalForm(acc)
    ensures r.Ok? ==> NormalForm(r.value)
    ensures r.Err? <==> Guidance(m) && acc != [] && !Guidance(acc[|acc| - 1])
  {
    if Guidance(m) then
      if acc == [] then Ok([System(m.text)])
      else if !acc[|acc| - 1].System? then Err(GuidanceAfterStart)
      else Ok(acc[0 := System(acc[0].text + BREAK + m.text)])
    else if m.User? && acc != [] && acc[|acc| - 1].User? then
      Ok(acc[|acc| - 1 := User(acc[|acc| - 1].text + BREAK + m.text)])
    else Ok(acc + [m])
  }

  function FoldFrom(acc: seq<Message>, ms: seq<Message>): (r: Result<seq<Message>, Error>)
    requires NormalForm(acc)
    ensures r.Ok? ==> NormalForm(r.value)
    decreases |ms|
  {
    if ms == [] then Ok(acc)
    else
      var next := Push(acc, ms[0]);
      if next.Err? then next else FoldFrom(next.value, ms[1..])
  }

  function Normalized(ms: seq<Message>): Result<seq<Message>, Error> { FoldFrom([], ms) }

  /** The loop, over a list whose first and last elements it rewrites. */
  method Normalize(messages: seq<Message>) returns (r: Result<seq<Message>, Error>)
    ensures r == Normalized(messages)
  {
    var normalized: seq<Message> := [];
    for i := 0 to |messages|
      invariant NormalForm(normalized)
      invariant Normalized(messages) == FoldFrom(normalized, messages[i..])
    {
      var m := messages[i];
      assert messages[i..][0] == m && messages[i..][1..] == messages[i + 1..];
      if Guidance(m) {
        if |normalized| > 0 && !normalized[|normalized| - 1].System? {
          return Err(GuidanceAfterStart);
        }
        if |normalized| == 0 {
          assert normalized + [System(m.text)] == [System(m.text)];
          normalized := normalized + [System(m.text)];
        } else {
          normalized := normalized[0 := System(normalized[0].text + BREAK + m.text)];
        }
      } else if m.User? && |normalized| > 0 && normalized[|normalized| - 1].User? {
        normalized := normalized[|normalized| - 1 := User(normalized[|normalized| - 1].text + BREAK + m.text)];
      } else {
        normalized := normalized + [m];
      }
    }
    r := Ok(normalized);
  }

  // ---------------------------------------------------------------- what the results are

  lemma {:induction false} FoldExtends(acc: seq<Message>, ms: seq<Message>)
    requires NormalForm(acc + ms) && NormalForm(acc)
    ensures FoldFrom(acc, ms) == Ok(acc + ms)
    decreases |ms|
  {
    if ms == [] {
      assert acc + ms == acc;
    } else {
      var all := acc + ms;
      assert all[|acc|] == ms[0] && (acc != [] ==> all[|acc| - 1] == acc[|acc| - 1]);
      assert Guidance(ms[0]) ==> acc == [] && acc + [ms[0]] == [System(ms[0].text)];
      assert Push(acc, ms[0]) == Ok(acc + [ms[0]]);
      assert acc + [ms[0]] + ms[1..] == acc + ms;
      FoldExtends(acc + [ms[0]], ms[1..]);
    }
  }

  /** A list is left alone exactly when it is in normal form; so normalizing twice is normalizing once. */
  lemma FixedPoints(ms: seq<Message>)
    ensures Normalized(ms) == Ok(ms) <==> NormalForm(ms)
    ensures Normalized(ms).Ok? ==> Normalized(Normalized(ms).value) == Normalized(ms)
  {
    assert [] + ms == ms;
    if NormalForm(ms) {
      FoldExtends([], ms);
    }
    if Normalized(ms).Ok? {
      assert [] + Normalized(ms).value == Normalized(ms).value;
      FoldExtends([], Normalized(ms).value);
    }
  }

  lemma {:induction false} FoldAppends(acc: seq<Message>, a: seq<Message>, b: seq<Message>)
    requires NormalForm(acc)
    ensures FoldFrom(acc, a + b) == if FoldFrom(acc, a).Err? then FoldFrom(acc, a)
        else FoldFrom(FoldFrom(acc, a).value, b)
    decreases |a|
  {
    if a == [] {
      assert a + b == b;
    } else {
      assert (a + b)[1..] == a[1..] + b;
      if Push(acc, a[0]).Ok? {
        FoldAppends(Push(acc, a[0]).value, a[1..], b);
      }
    }
  }

  /** A normalized beginning can stand for the messages it came from, whatever follows. */
  lemma NormalizedPrefix(a: seq<Message>, b: seq<Message>)
    ensures Normalized(a).Err? ==> Normalized(a + b).Err?
    ensures Normalized(a).Ok? ==> Normalized(Normalized(a).value + b) == Normalized(a + b)
  {
    FoldAppends([], a, b);
    if Normalized(a).Ok? {
      FoldAppends([], Normalized(a).value, b);
      FixedPoints(a);
    }
  }

  // ---------------------------------------------------------------- when it fails

  ghost predicate GuidanceAfterConversation(ms: seq<Message>) {
    exists i, j :: 0 <= i < j < |ms| && !Guidance(ms[i]) && Guidance(ms[j])
  }

  lemma {:induction false} FoldFails(acc: seq<Message>, ms: seq<Message>)
    requires NormalForm(acc)
    ensures FoldFrom(acc, ms).Err?
            <==> GuidanceAfterConversation(ms)
                 || (acc != [] && !Guidance(acc[|acc| - 1]) && exists j :: 0 <= j < |ms| && Guidance(ms[j]))
    decreases |ms|
  {
    if ms == [] {
    } else {
      var next := Push(acc, ms[0]);
      assert forall j :: 0 <= j < |ms[1..]| ==> ms[1..][j] == ms[j + 1];
      assert forall j :: 0 < j < |ms| ==> ms[j] == ms[1..][j - 1];
      if next.Ok? {
        assert Guidance(next.value[|next.value| - 1]) <==> Guidance(ms[0]);
        FoldFails(next.value, ms[1..]);
      } else {
        assert Guidance(ms[0]);
      }
    }
  }

  /** Normalization fails exactly when guidance follows a conversation message. */
  lemma FailsExactlyWhen(ms: seq<Message>)
    ensures Normalized(ms).Err? <==> GuidanceAfterConversation(ms)
  {
    FoldFails([], ms);
  }

  // ---------------------------------------------------------------- what is merged, and what is kept

  ghost function Flatten(blocks: seq<seq<Message>>): seq<Message> {
    if blocks == [] then [] else Flatten(blocks[..|blocks| - 1]) + blocks[|blocks| - 1]
  }

  /** Messages of one kind; only guidance and users come in blocks of more than one. */
  ghost predicate Block(b: seq<Message>) {
    && b != []
    && ((forall i :: 0 <= i < |b| ==> Guidance(b[i])) || (forall i :: 0 <= i < |b| ==> b[i].User?)
        || (|b| == 1 && !Guidance(b[0])))
  }

  ghost predicate Mergeable(a: Message, b: Message) { (Guidance(a) && Guidance(b)) || (a.User? && b.User?) }

  ghost predicate MaximalBlocks(blocks: seq<seq<Message>>) {
    && (forall i :: 0 <= i < |blocks| ==> Block(blocks[i]))
    && (forall i :: 0 < i < |blocks| ==> !Mergeable(blocks[i - 1][0], blocks[i][0]))
  }

  ghost function Text(m: Message): string {
    match m
    case FunctionCall(_, _, arguments) => arguments
    case FunctionOutput(_, output) => output
    case _ => m.text
  }

  ghost function Joined(b: seq<Message>): string
    requires b != []
  {
    if |b| == 1 then Text(b[0]) else Joined(b[..|b| - 1]) + "\n\n" + Text(b[|b| - 1])
  }

  ghost function Merged(b: seq<Message>): Message
    requires b != []
  {
    if Guidance(b[0]) then System(Joined(b)) else if b[0].User? then User(Joined(b)) else b[0]
  }

  ghost predicate MergedFrom(out: seq<Message>, blocks: seq<seq<Message>>)
    requires MaximalBlocks(blocks)
  {
    |out| == |blocks| && forall i :: 0 <= i < |out| ==> out[i] == Merged(blocks[i])
  }

  /** One more message joins the last block or starts a new one. */
  ghost function Grow(blocks: seq<seq<Message>>, m: Message): seq<seq<Message>>
    requires MaximalBlocks(blocks)
  {
    if blocks != [] && Mergeable(blocks[|blocks| - 1][0], m) then blocks[|blocks| - 1 := blocks[|blocks| - 1] + [m]]
    else blocks + [[m]]
  }

  lemma GrowFlattens(blocks: seq<seq<Message>>, m: Message)
    requires MaximalBlocks(blocks)
    ensures Flatten(Grow(blocks, m)) == Flatten(blocks) + [m]
  {
  }

  /** A block that a message of its kind joins. */
  lemma JoinedBlock(b: seq<Message>, m: Message)
    requires Block(b) && Mergeable(b[0], m)
    ensures Block(b + [m]) && (b + [m])[0] == b[0] && Joined(b + [m]) == Joined(b) + BREAK + Text(m)
  {
    assert (b + [m])[..|b|] == b;
  }

  lemma JoinIsPush(acc: seq<Message>, blocks: seq<seq<Message>>, m: Message)
    requires MaximalBlocks(blocks) && NormalForm(acc) && MergedFrom(acc, blocks) && Push(acc, m).Ok?
    requires blocks != [] && Mergeable(blocks[|blocks| - 1][0], m)
    ensures MaximalBlocks(Grow(blocks, m)) && MergedFrom(Push(acc, m).value, Grow(blocks, m))
  {
    var b, n := blocks[|blocks| - 1], |acc| - 1;
    JoinedBlock(b, m);
    hide Block, Joined;
    assert acc[n] == Merged(b);
    assert Guidance(m) ==> n == 0;
    assert Push(acc, m).value == acc[n := Merged(b + [m])];
  }

  lemma GrowIsPush(acc: seq<Message>, blocks: seq<seq<Message>>, m: Message)
    requires MaximalBlocks(blocks) && NormalForm(acc) && MergedFrom(acc, blocks) && Push(acc, m).Ok?
    ensures MaximalBlocks(Grow(blocks, m)) && MergedFrom(Push(acc, m).value, Grow(blocks, m))
  {
    if blocks != [] && Mergeable(blocks[|blocks| - 1][0], m) {
      JoinIsPush(acc, blocks, m);
    } else {
      OneMessageBlock(m);
      hide Block, Joined;
      assert acc != [] ==> acc[|acc| - 1] == Merged(blocks[|blocks| - 1]);
      assert Push(acc, m).value == acc + [Merged([m])];
    }
  }

  lemma OneMessageBlock(m: Message)
    ensures Block([m]) && Joined([m]) == Text(m)
  {
  }

  lemma {:induction false} FoldMerges(acc: seq<Message>, blocks: seq<seq<Message>>, ms: seq<Message>)
      returns (all: seq<seq<Message>>)
    requires MaximalBlocks(blocks) && NormalForm(acc) && MergedFrom(acc, blocks) && FoldFrom(acc, ms).Ok?
    ensures Flatten(all) == Flatten(blocks) + ms && MaximalBlocks(all) && MergedFrom(FoldFrom(acc, ms).value, all)
    decreases |ms|
  {
    hide MaximalBlocks, MergedFrom, Flatten, Grow, Push;
    all := blocks;
    if ms == [] {
    } else {
      GrowIsPush(acc, blocks, ms[0]);
      GrowFlattens(blocks, ms[0]);
      all := FoldMerges(Push(acc, ms[0]).value, Grow(blocks, ms[0]), ms[1..]);
      assert Flatten(blocks) + [ms[0]] + ms[1..] == Flatten(blocks) + ms;
    }
  }

  /** The result is the list cut into maximal blocks, each of guidance or of users joined by a blank line. */
  lemma ResultMergesBlocks(ms: seq<Message>)
    requires Normalized(ms).Ok?
    ensures exists blocks :: MaximalBlocks(blocks) && Flatten(blocks) == ms && MergedFrom(Normalized(ms).value, blocks)
  {
    var none: seq<seq<Message>> := [];
    var blocks := FoldMerges([], none, ms);
    assert Flatten(none) + ms == ms;
  }

  /** The assistant and tool messages, in order. */
  ghost function Kept(ms: seq<Message>): seq<Message> {
    if ms == [] then []
    else
      var m := ms[|ms| - 1];
      Kept(ms[..|ms| - 1]) + if Guidance(m) || m.User? then [] else [m]
  }

  lemma KeptOneMore(ms: seq<Message>, m: Message)
    ensures Kept(ms + [m]) == Kept(ms) + Kept([m])
    ensures Kept([m]) == if Guidance(m) || m.User? then [] else [m]
  {
    assert (ms + [m])[..|ms|] == ms && [m][..0] == [];
  }

  lemma PushKeeps(acc: seq<Message>, m: Message)
    requires NormalForm(acc) && Push(acc, m).Ok?
    ensures Kept(Push(acc, m).value) == Kept(acc) + Kept([m])
  {
    hide Kept;
    var next, n := Push(acc, m).value, |acc|;
    KeptOneMore(acc, m);
    if |next| == n {
      var init := acc[..n - 1];
      assert acc == init + [acc[n - 1]] && next == init + [next[n - 1]];
      KeptOneMore(init, acc[n - 1]);
      KeptOneMore(init, next[n - 1]);
    } else {
      assert next == acc + [next[n]];
      KeptOneMore(acc, next[n]);
    }
  }

  lemma {:induction false} FoldKeeps(acc: seq<Message>, ms: seq<Message>)
    requires NormalForm(acc) && FoldFrom(acc, ms).Ok?
    ensures Kept(FoldFrom(acc, ms).value) == Kept(acc) + Kept(ms)
    decreases |ms|
  {
    hide NormalForm, Push;
    if ms == [] {
    } else {
      PushKeeps(acc, ms[0]);
      FoldKeeps(Push(acc, ms[0]).value, ms[1..]);
      KeptAppends([ms[0]], ms[1..]);
      assert [ms[0]] + ms[1..] == ms;
    }
  }

  lemma {:induction false} KeptAppends(a: seq<Message>, b: seq<Message>)
    ensures Kept(a + b) == Kept(a) + Kept(b)
    decreases |b|
  {
    if b == [] {
      assert a + b == a;
    } else {
      assert (a + b)[..|a + b| - 1] == a + b[..|b| - 1];
      KeptAppends(a, b[..|b| - 1]);
    }
  }

  /** Assistant and tool messages come through unchanged and in order. */
  lemma ConversationIsKept(ms: seq<Message>)
    requires Normalized(ms).Ok?
    ensures Kept(Normalized(ms).value) == Kept(ms)
  {
    FoldKeeps([], ms);
  }
}
