/**
 Fingerprints of the tool calls in a model's answer, streamed or in one piece.

 The sum of two sums has an unambiguous concatenation, because sums have one length. A hash under way is the text
 written so far.
 */
module ToolFingerprints {
  import opened Wrappers
  import opened Digests
  import opened Sets

  const LIMIT := 256

  /** The sum of two sums. */
  type Fingerprint = Digest<(Digest<string>, Digest<string>)>

  datatype Key = Key(choice: int, tool: int)

  datatype Delta = Delta(key: Key, name: string, args: string)

  datatype Stream = Stream(name: string, args: string)

  function Sum(s: Stream): Fingerprint { Sha256((Sha256(s.name), Sha256(s.args))) }

  // ---------------------------------------------------------------- what deltas say

  /** What the deltas of one call say together, in arrival order. */
  function Said(ds: seq<Delta>, k: Key): Stream {
    if ds == [] then Stream("", "")
    else
      var (s, last) := (Said(ds[..|ds| - 1], k), ds[|ds| - 1]);
      if last.key == k then Stream(s.name + last.name, s.args + last.args) else s
  }

  function Keys(ds: seq<Delta>): set<Key> { set i | 0 <= i < |ds| :: ds[i].key }

  predicate InRange(k: Key) { 0 <= k.choice < LIMIT && 0 <= k.tool < LIMIT }

  predicate Acceptable(ds: seq<Delta>) { (forall i :: 0 <= i < |ds| ==> InRange(ds[i].key)) && |Keys(ds)| <= LIMIT }

  predicate Less(a: Key, b: Key) { a.choice < b.choice || (a.choice == b.choice && a.tool < b.tool) }

  predicate Ascending(ks: seq<Key>) { forall i, j :: 0 <= i < j < |ks| ==> Less(ks[i], ks[j]) }

  ghost predicate Sorts(ks: seq<Key>, keys: set<Key>) { Ascending(ks) && Members(ks) == keys }

  /** There is one way to sort a set of keys. */
  lemma {:induction false} SortedOnce(a: seq<Key>, b: seq<Key>)
    requires Ascending(a) && Ascending(b) && Members(a) == Members(b)
    ensures a == b
    decreases |a|
  {
    if a == [] || b == [] {
      assert forall ks: seq<Key> :: ks != [] ==> ks[0] in Members(ks);
    } else {
      assert a[0] in Members(b) && b[0] in Members(a);
      assert a[0] == b[0];
      RestMembers(a);
      RestMembers(b);
      SortedOnce(a[1..], b[1..]);
      assert a == [a[0]] + a[1..] && b == [b[0]] + b[1..];
    }
  }

  lemma RestMembers(ks: seq<Key>)
    requires ks != [] && Ascending(ks)
    ensures Ascending(ks[1..]) && Members(ks[1..]) == Members(ks) - {ks[0]}
  {
  }

  /** The streamed list: in key order, whatever order the keys came in or the map yields them in. */
  ghost predicate Lists(fps: seq<Fingerprint>, ds: seq<Delta>) {
    exists ks :: Sorts(ks, Keys(ds)) && fps == Sums(ds, ks)
  }

  function Sums(ds: seq<Delta>, ks: seq<Key>): seq<Fingerprint> {
    seq(|ks|, i requires 0 <= i < |ks| => Sum(Said(ds, ks[i])))
  }

  // ---------------------------------------------------------------- the streamed side

  ghost predicate Accumulates(streams: map<Key, Stream>, ds: seq<Delta>) {
    streams.Keys == Keys(ds) && forall k :: k in streams ==> streams[k] == Said(ds, k)
  }

  lemma OneMoreDelta(ds: seq<Delta>, d: Delta)
    ensures Keys(ds + [d]) == Keys(ds) + {d.key}
    ensures forall k :: Said(ds + [d], k)
                        == if d.key == k then Stream(Said(ds, k).name + d.name, Said(ds, k).args + d.args)
                            else Said(ds, k)
  {
    var all := ds + [d];
    assert all[..|ds|] == ds && all[|ds|].key == d.key;
    assert forall i :: 0 <= i < |all| ==> all[i] == if i < |ds| then ds[i] else d;
  }

  lemma {:induction false} NothingSaid(ds: seq<Delta>, k: Key)
    ensures k !in Keys(ds) ==> Said(ds, k) == Stream("", "")
    decreases |ds|
  {
    if ds == [] {
    } else {
      NothingSaid(ds[..|ds| - 1], k);
      assert ds[|ds| - 1].key in Keys(ds);
      assert Keys(ds[..|ds| - 1]) <= Keys(ds);
    }
  }

  class ToolStreams {
    var streams: map<Key, Stream>
    var fingerprints: seq<Fingerprint>
    ghost var deltas: seq<Delta>

    ghost predicate Valid()
      reads this
    {
      Accumulates(streams, deltas) && Acceptable(deltas)
    }

    constructor ()
      ensures Valid() && deltas == [] && fingerprints == []
    {
      streams, fingerprints, deltas := map[], [], [];
    }

    /** One delta: refused exactly when its key is out of range, or new when there are 256 already. */
    method AddToolDelta(d: Delta) returns (ok: bool)
      requires Valid()
      modifies this`streams, this`deltas
      ensures Valid()
      ensures ok == Acceptable(old(deltas) + [d])
      ensures deltas == if ok then old(deltas) + [d] else old(deltas)
    {
      OneMoreDelta(deltas, d);
      NothingSaid(deltas, d.key);
      RangeOneMore(deltas, d);
      SizeOneMore(streams.Keys, d.key);
      hide Said, Keys, InRange;
      if d.key.choice < 0 || d.key.choice >= 256 || d.key.tool < 0 || d.key.tool >= 256 {
        RangeMeans(d.key);
        return false;
      }
      RangeMeans(d.key);
      if d.key !in streams {
        if |streams| >= 256 {
          assert |streams.Keys| == |streams|;
          return false;
        }
      }
      assert Keys(deltas) + {d.key} == streams.Keys + {d.key};
      var stream := if d.key in streams then streams[d.key] else Stream("", "");
      streams := streams[d.key := Stream(stream.name + d.name, stream.args + d.args)];
      deltas := deltas + [d];
      return true;
    }

    /** Appends the list and forgets the streams. */
    method FinishToolDeltas()
      requires Valid()
      modifies this
      ensures Valid() && deltas == []
      ensures exists fps :: Lists(fps, old(deltas)) && fingerprints == old(fingerprints) + fps
    {
      var ks := SortedKeys(streams.Keys);
      var fps := [];
      for i := 0 to |ks|
        invariant streams == old(streams) && deltas == old(deltas)
        invariant |fps| == i && forall j :: 0 <= j < i ==> fps[j] == Sum(Said(deltas, ks[j]))
      {
        assert ks[i] in Members(ks);
        fps := fps + [Sum(streams[ks[i]])];
      }
      assert fps == Sums(deltas, ks);
      assert Lists(fps, deltas);
      fingerprints := fingerprints + fps;
      streams, deltas := map[], [];
    }
  }

  lemma RangeOneMore(ds: seq<Delta>, d: Delta)
    requires Acceptable(ds)
    ensures Acceptable(ds + [d]) <==> InRange(d.key) && |Keys(ds) + {d.key}| <= LIMIT
  {
    OneMoreDelta(ds, d);
    var all := ds + [d];
    assert all[|ds|] == d;
    assert forall i :: 0 <= i < |ds| ==> all[i] == ds[i];
  }

  lemma SizeOneMore(keys: set<Key>, k: Key)
    ensures |keys + {k}| == if k in keys then |keys| else |keys| + 1
  {
    if k in keys {
      assert keys + {k} == keys;
    }
  }

  lemma RangeMeans(k: Key)
    ensures InRange(k) <==> 0 <= k.choice < 256 && 0 <= k.tool < 256
  {
  }

  /** The keys are collected in any order, then sorted. */
  method SortedKeys(keys: set<Key>) returns (ks: seq<Key>)
    ensures Sorts(ks, keys)
  {
    ks := [];
    var rest := keys;
    while rest != {}
      invariant Ascending(ks) && Members(ks) + rest == keys && Members(ks) !! rest
      decreases |rest|
    {
      var k :| k in rest;
      rest := rest - {k};
      ks := Insert(ks, k);
    }
  }

  method Insert(ks: seq<Key>, k: Key) returns (all: seq<Key>)
    requires Ascending(ks) && k !in Members(ks)
    ensures Ascending(all) && Members(all) == Members(ks) + {k}
  {
    var n := 0;
    while n < |ks| && Less(ks[n], k)
      invariant 0 <= n <= |ks| && forall i :: 0 <= i < n ==> Less(ks[i], k)
    {
      n := n + 1;
    }
    assert n < |ks| ==> ks[n] in Members(ks) && Less(k, ks[n]);
    all := ks[..n] + [k] + ks[n..];
    MembersInserted(ks, n, k);
    assert forall i :: 0 <= i < |all| ==> all[i] == if i < n then ks[i] else if i == n then k else ks[i - 1];
  }

  lemma MembersInserted(ks: seq<Key>, n: nat, k: Key)
    requires n <= |ks|
    ensures Members(ks[..n] + [k] + ks[n..]) == Members(ks) + {k}
  {
    var all := ks[..n] + [k] + ks[n..];
    forall x
      ensures x in Members(all) <==> x in Members(ks) + {k}
    {
      if x in Members(ks) {
        var i :| 0 <= i < |ks| && ks[i] == x;
        assert all[if i < n then i else i + 1] == x;
      }
      assert all[n] == k;
      if x in Members(all) {
        var i :| 0 <= i < |all| && all[i] == x;
        assert x == if i < n then ks[i] else if i == n then k else ks[i - 1];
      }
    }
  }

  /** A whole stream of deltas: accepted exactly when all of it is within the limits, and then listed. */
  method StreamFingerprints(ds: seq<Delta>) returns (r: Option<seq<Fingerprint>>)
    ensures r.Some? <==> Acceptable(ds)
    ensures r.Some? ==> Lists(r.value, ds)
  {
    var result := new ToolStreams();
    for i := 0 to |ds|
      invariant fresh(result) && result.Valid() && result.deltas == ds[..i] && result.fingerprints == []
    {
      var ok := result.AddToolDelta(ds[i]);
      assert ds[..i] + [ds[i]] == ds[..i + 1];
      if !ok {
        PrefixAcceptable(ds, i + 1);
        return None;
      }
    }
    assert ds[..|ds|] == ds;
    result.FinishToolDeltas();
    r := Some(result.fingerprints);
  }

  lemma PrefixAcceptable(ds: seq<Delta>, n: nat)
    requires n <= |ds|
    ensures Acceptable(ds) ==> Acceptable(ds[..n])
  {
    assert Keys(ds[..n]) <= Keys(ds);
    Sets.SmallerSet(Keys(ds[..n]), Keys(ds));
  }

  // ---------------------------------------------------------------- independence and agreement

  lemma SameTextsSameList(ds: seq<Delta>, es: seq<Delta>, fps: seq<Fingerprint>)
    requires Keys(ds) == Keys(es) && forall k :: k in Keys(ds) ==> Said(ds, k) == Said(es, k)
    ensures Lists(fps, ds) <==> Lists(fps, es)
  {
    forall ks | Sorts(ks, Keys(ds))
      ensures Sums(ds, ks) == Sums(es, ks)
    {
      assert forall i :: 0 <= i < |ks| ==> ks[i] in Members(ks);
    }
  }

  /**
   Streams of the same calls have the same list exactly when each call's deltas say the same together: fragmentation,
   interleaving and map order do not matter, and nothing else goes unnoticed.
   */
  lemma OnlyTheTextsMatter(ds: seq<Delta>, es: seq<Delta>, fps: seq<Fingerprint>)
    requires Keys(ds) == Keys(es) && Lists(fps, ds)
    ensures Lists(fps, es) <==> forall k :: k in Keys(ds) ==> Said(ds, k) == Said(es, k)
  {
    if Lists(fps, es) {
      var ks :| Sorts(ks, Keys(ds)) && fps == Sums(ds, ks);
      var ls :| Sorts(ls, Keys(es)) && fps == Sums(es, ls);
      SortedOnce(ks, ls);
      forall k | k in Keys(ds)
        ensures Said(ds, k) == Said(es, k)
      {
        assert k in Members(ks);
        var i :| 0 <= i < |ks| && ks[i] == k;
        assert fps[i] == Sum(Said(ds, ks[i])) && fps[i] == Sum(Said(es, ls[i]));
      }
    } else if forall k :: k in Keys(ds) ==> Said(ds, k) == Said(es, k) {
      SameTextsSameList(ds, es, fps);
    }
  }

  lemma ListsOnce(ds: seq<Delta>, fps: seq<Fingerprint>, gps: seq<Fingerprint>)
    requires Lists(fps, ds) && Lists(gps, ds)
    ensures fps == gps
  {
    var ks :| Sorts(ks, Keys(ds)) && fps == Sums(ds, ks);
    var ls :| Sorts(ls, Keys(ds)) && gps == Sums(ds, ls);
    SortedOnce(ks, ls);
  }

  /** Deltas of two different calls can change places. */
  lemma NeighboursCommute(ds: seq<Delta>, a: Delta, b: Delta, rest: seq<Delta>, fps: seq<Fingerprint>)
    requires a.key != b.key
    ensures Lists(fps, ds + [a] + [b] + rest) <==> Lists(fps, ds + [b] + [a] + rest)
  {
    var x, y := ds + [a] + [b], ds + [b] + [a];
    OneMoreDelta(ds, a);
    OneMoreDelta(ds, b);
    OneMoreDelta(ds + [a], b);
    OneMoreDelta(ds + [b], a);
    SameAfter(x, y, rest);
    SameTextsSameList(x + rest, y + rest, fps);
  }

  /** A delta may arrive in two pieces. */
  lemma PiecesAreOne(ds: seq<Delta>, a: Delta, b: Delta, rest: seq<Delta>, fps: seq<Fingerprint>)
    requires a.key == b.key
    ensures Lists(fps, ds + [a] + [b] + rest)
        <==> Lists(fps, ds + [Delta(a.key, a.name + b.name, a.args + b.args)] + rest)
  {
    var whole := Delta(a.key, a.name + b.name, a.args + b.args);
    var x, y := ds + [a] + [b], ds + [whole];
    OneMoreDelta(ds, a);
    OneMoreDelta(ds + [a], b);
    OneMoreDelta(ds, whole);
    var s := Said(ds, a.key);
    assert s.name + a.name + b.name == s.name + whole.name && s.args + a.args + b.args == s.args + whole.args;
    SameAfter(x, y, rest);
    SameTextsSameList(x + rest, y + rest, fps);
  }

  lemma {:induction false} SameAfter(x: seq<Delta>, y: seq<Delta>, rest: seq<Delta>)
    requires Keys(x) == Keys(y) && forall k :: Said(x, k) == Said(y, k)
    ensures Keys(x + rest) == Keys(y + rest) && forall k :: Said(x + rest, k) == Said(y + rest, k)
    decreases |rest|
  {
    if rest == [] {
      assert x + rest == x && y + rest == y;
    } else {
      OneMoreDelta(x, rest[0]);
      OneMoreDelta(y, rest[0]);
      SameAfter(x + [rest[0]], y + [rest[0]], rest[1..]);
      assert x + [rest[0]] + rest[1..] == x + rest && y + [rest[0]] + rest[1..] == y + rest;
    }
  }

  /** The calls of an answer in one piece, by choice. */
  type Answer = seq<seq<Stream>>

  function Flat(answer: Answer): seq<Fingerprint> {
    if answer == [] then [] else Flat(answer[..|answer| - 1]) + InOrder(answer[|answer| - 1])
  }

  function InOrder(calls: seq<Stream>): seq<Fingerprint> { seq(|calls|, j requires 0 <= j < |calls| => Sum(calls[j])) }

  /** The loops over choices and calls. */
  method AnswerFingerprints(answer: Answer) returns (fps: seq<Fingerprint>)
    ensures fps == Flat(answer)
  {
    fps := [];
    for i := 0 to |answer|
      invariant fps == Flat(answer[..i])
    {
      ghost var before := fps;
      for j := 0 to |answer[i]|
        invariant fps == before + InOrder(answer[i][..j])
      {
        fps := fps + [Sum(answer[i][j])];
      }
      assert answer[i][..|answer[i]|] == answer[i];
      assert answer[..i + 1][..i] == answer[..i];
    }
    assert answer[..|answer|] == answer;
  }

  ghost predicate At(answer: Answer, k: Key) { 0 <= k.choice < |answer| && 0 <= k.tool < |answer[k.choice]| }

  /** The deltas stream this answer: every call is keyed by its position. */
  ghost predicate Streams(ds: seq<Delta>, answer: Answer) {
    && (forall k :: k in Keys(ds) <==> At(answer, k))
    && (forall k :: At(answer, k) ==> Said(ds, k) == answer[k.choice][k.tool])
  }

  function OfChoice(i: int, n: nat): seq<Key> { seq(n, j => Key(i, j)) }

  function Positions(answer: Answer): seq<Key> {
    if answer == [] then []
    else
      var i := |answer| - 1;
      Positions(answer[..i]) + OfChoice(i, |answer[i]|)
  }

  lemma ChoiceIsSorted(i: int, n: nat)
    ensures Ascending(OfChoice(i, n))
    ensures forall k :: k in OfChoice(i, n) <==> k.choice == i && 0 <= k.tool < n
  {
    forall k: Key | k.choice == i && 0 <= k.tool < n
      ensures k in OfChoice(i, n)
    {
      assert OfChoice(i, n)[k.tool] == k;
    }
  }

  lemma SortedJoin(a: seq<Key>, b: seq<Key>)
    requires Ascending(a) && Ascending(b) && forall j, k :: j in a && k in b ==> Less(j, k)
    ensures Ascending(a + b)
  {
    hide Less;
    var all := a + b;
    forall i, j | 0 <= i < j < |all|
      ensures Less(all[i], all[j])
    {
      if i < |a| <= j {
        assert a[i] in a && b[j - |a|] in b;
      }
    }
  }

  lemma {:induction false} PositionsAreSorted(answer: Answer)
    ensures Ascending(Positions(answer))
    ensures forall k :: k in Positions(answer) <==> At(answer, k)
    decreases |answer|
  {
    hide Ascending, OfChoice;
    if answer == [] {
      NoneIsSorted();
    } else {
      var i := |answer| - 1;
      PositionsAreSorted(answer[..i]);
      ChoiceIsSorted(i, |answer[i]|);
      assert forall k :: At(answer, k) <==> At(answer[..i], k) || (k.choice == i && 0 <= k.tool < |answer[i]|);
      SortedJoin(Positions(answer[..i]), OfChoice(i, |answer[i]|));
    }
  }

  lemma NoneIsSorted()
    ensures Ascending([])
  {
  }

  lemma {:induction false} FlatByPosition(ds: seq<Delta>, answer: Answer)
    requires forall k :: At(answer, k) ==> Said(ds, k) == answer[k.choice][k.tool]
    ensures Flat(answer) == Sums(ds, Positions(answer))
    decreases |answer|
  {
    if answer == [] {
    } else {
      var i := |answer| - 1;
      var init, tail := Positions(answer[..i]), OfChoice(i, |answer[i]|);
      assert forall k :: At(answer[..i], k) ==> At(answer, k);
      FlatByPosition(ds, answer[..i]);
      assert forall j :: 0 <= j < |tail| ==> At(answer, tail[j]);
      assert Sums(ds, tail) == InOrder(answer[i]);
      assert Sums(ds, init + tail) == Sums(ds, init) + Sums(ds, tail);
    }
  }

  /** Streamed with positions as indices, an answer has the fingerprints it has in one piece, in the same order. */
  lemma StreamedEqualsWhole(ds: seq<Delta>, answer: Answer, fps: seq<Fingerprint>)
    requires Streams(ds, answer)
    ensures Lists(fps, ds) <==> fps == Flat(answer)
  {
    var ks := Positions(answer);
    PositionsAreSorted(answer);
    FlatByPosition(ds, answer);
    forall k
      ensures k in Members(ks) <==> k in Keys(ds)
    {
      assert k in Members(ks) <==> k in ks;
    }
    assert Sorts(ks, Keys(ds));
    assert Lists(Flat(answer), ds);
    if Lists(fps, ds) {
      ListsOnce(ds, fps, Flat(answer));
    }
  }
}
