/**
 The repetition detector: bounded in-memory maps with first-in-first-out eviction over a durable table.

 The specification is a run's whole unbounded history. A cached or stored state must be its summary: the last entry and
 the length of the trailing block of entries equal to it.
 */
module Repetition {
  import opened Wrappers

  const MAX_RUNS := 1024
  const MAX_FEEDBACK_IDS := 256

  // ---------------------------------------------------------------- histories and their summaries

  /** The length of the trailing block of equal entries. */
  function Trail<T(==)>(h: seq<T>): nat {
    if h == [] then 0
    else if |h| == 1 || h[|h| - 1] != h[|h| - 2] then 1
    else 1 + Trail(h[..|h| - 1])
  }

  lemma {:induction false} TrailIsTrailing<T>(h: seq<T>, n: nat)
    requires 0 < n <= |h|
    ensures n <= Trail(h) <==> forall i :: |h| - n <= i < |h| ==> h[i] == h[|h| - 1]
    decreases n
  {
    if n > 1 {
      var g := h[..|h| - 1];
      if h[|h| - 1] == h[|h| - 2] {
        TrailIsTrailing(g, n - 1);
        if forall i :: |g| - (n - 1) <= i < |g| ==> g[i] == g[|g| - 1] {
          assert forall i :: |h| - n <= i < |h| - 1 ==> h[i] == g[i];
        } else {
          var i :| |g| - (n - 1) <= i < |g| && g[i] != g[|g| - 1];
          assert h[i] == g[i];
        }
      } else {
        assert h[|h| - 2] != h[|h| - 1];
      }
    }
  }

  /** `fingerprint` is empty after a success and before any entry. */
  datatype CallState = CallState(fingerprint: string, count: nat)

  const NOTHING := CallState("", 0)

  /** A history entry is a tool-call fingerprint, a provider error code, or "" for a provider success. */
  type Entries = seq<string>

  function Summary(h: Entries): CallState {
    if h == [] || h[|h| - 1] == "" then NOTHING else CallState(h[|h| - 1], Trail(h))
  }

  /** The update of one state by one entry. */
  function Advance(state: CallState, entry: string): CallState {
    if entry == "" then NOTHING
    else if state.fingerprint == entry then state.(count := state.count + 1)
    else CallState(entry, 1)
  }

  function AdvanceAll(state: CallState, entries: Entries): CallState
    decreases |entries|
  {
    if entries == [] then state else AdvanceAll(Advance(state, entries[0]), entries[1..])
  }

  lemma AdvanceSummarises(h: Entries, entry: string)
    ensures Advance(Summary(h), entry) == Summary(h + [entry])
  {
  }

  lemma {:induction false} AdvanceAllSummarises(h: Entries, entries: Entries)
    ensures AdvanceAll(Summary(h), entries) == Summary(h + entries)
    decreases |entries|
  {
    if entries == [] {
      assert h + entries == h;
    } else {
      AdvanceSummarises(h, entries[0]);
      AdvanceAllSummarises(h + [entries[0]], entries[1..]);
      assert h + [entries[0]] + entries[1..] == h + entries;
    }
  }

  /** The question the detector answers. */
  ghost predicate LastThreeSame(h: Entries) {
    |h| >= 3 && h[|h| - 1] != "" && h[|h| - 1] == h[|h| - 2] == h[|h| - 3]
  }

  lemma SummaryAnswers(h: Entries)
    ensures Summary(h).count >= 3 <==> LastThreeSame(h)
  {
    if |h| >= 3 {
      TrailIsTrailing(h, 3);
    } else {
      assert Trail(h) <= |h| by { TrailAtMost(h); }
    }
  }

  lemma {:induction false} TrailAtMost<T>(h: seq<T>)
    ensures Trail(h) <= |h|
    decreases |h|
  {
    if |h| <= 1 {
    } else {
      TrailAtMost(h[..|h| - 1]);
    }
  }

  /**
   Starting from nothing instead of from the run's history gives the right summary exactly when the history counts
   nothing, or the new entries are not all repeats of its last one.
   */
  lemma {:induction false} ForgettingIsHarmlessWhen(h: Entries, entries: Entries)
    requires entries != []
    ensures Summary(entries) == Summary(h + entries)
            <==> Summary(h).count == 0 || exists i :: 0 <= i < |entries| && entries[i] != Summary(h).fingerprint
  {
    var all, last := h + entries, entries[|entries| - 1];
    if h != [] && h[|h| - 1] != "" {
      TrailAtMost(entries);
      TrailIsTrailing(h, 1);
      if forall i :: 0 <= i < |entries| ==> entries[i] == h[|h| - 1] {
        TrailIsTrailing(all, |entries| + 1);
      } else {
        SameTrail(h, entries);
      }
    } else {
      SameTrail(h, entries);
    }
  }

  /** Entries that do not just repeat the end of the history before them have their own trailing block. */
  lemma {:induction false} SameTrail(h: Entries, entries: Entries)
    requires entries != []
    requires h == [] || entries[|entries| - 1] == "" || h[|h| - 1] == ""
        || exists i :: 0 <= i < |entries| && entries[i] != h[|h| - 1]
    ensures Summary(h + entries) == Summary(entries)
    decreases |entries|
  {
    var all, n := h + entries, |entries|;
    if h == [] {
      assert all == entries;
    } else if entries[n - 1] != "" {
      if n == 1 {
        assert all[|all| - 2] == h[|h| - 1];
      } else if entries[n - 1] == entries[n - 2] {
        assert all[..|all| - 1] == h + entries[..n - 1];
        if h[|h| - 1] != "" {
          var i :| 0 <= i < n && entries[i] != h[|h| - 1];
          if i == n - 1 {
            assert entries[..n - 1][n - 2] != h[|h| - 1];
          } else {
            assert entries[..n - 1][i] != h[|h| - 1];
          }
        }
        SameTrail(h, entries[..n - 1]);
      }
    }
  }

  // ---------------------------------------------------------------- the bounded map

  /** A map and the order in which its keys were put there. */
  datatype Fifo<V> = Fifo(entries: map<string, V>, order: seq<string>)

  ghost predicate WellFormed<V>(c: Fifo<V>) {
    && |c.entries| <= MAX_RUNS
    && (forall k :: k in c.order <==> k in c.entries)
    && (forall i, j :: 0 <= i < j < |c.order| ==> c.order[i] != c.order[j])
  }

  /** A full map has an oldest key. */
  lemma OldestExists<V>(c: Fifo<V>)
    requires WellFormed(c) && |c.entries| > 0
    ensures |c.order| > 0
  {
  }

  function Evict<V>(c: Fifo<V>): Fifo<V>
    requires |c.entries| >= MAX_RUNS ==> |c.order| > 0
  {
    if |c.entries| >= MAX_RUNS then Fifo(map k | k in c.entries && k != c.order[0] :: c.entries[k], c.order[1..]) else c
  }

  function Put<V>(c: Fifo<V>, run: string, v: V): Fifo<V>
    requires |c.entries| >= MAX_RUNS ==> |c.order| > 0
  {
    Fifo(Evict(c).entries[run := v], Evict(c).order + [run])
  }

  lemma EvictMakesRoom<V>(c: Fifo<V>)
    requires WellFormed(c)
    ensures |c.entries| >= MAX_RUNS ==> |c.order| > 0
    ensures WellFormed(Evict(c)) && |Evict(c).entries| < MAX_RUNS
    ensures forall k :: k in Evict(c).entries ==> k in c.entries && Evict(c).entries[k] == c.entries[k]
  {
    if |c.entries| >= MAX_RUNS {
      OldestExists(c);
      var e := Evict(c);
      assert e.entries.Keys == c.entries.Keys - {c.order[0]};
      forall k
        ensures k in e.order <==> k in e.entries
      {
        if k in c.order {
          var i :| 0 <= i < |c.order| && c.order[i] == k;
          assert i > 0 ==> e.order[i - 1] == k;
        }
      }
    }
  }

  lemma AddedIsWellFormed<V>(c: Fifo<V>, run: string, v: V)
    requires WellFormed(c) && |c.entries| < MAX_RUNS && run !in c.entries
    ensures WellFormed(Fifo(c.entries[run := v], c.order + [run]))
  {
    var order := c.order + [run];
    assert c.entries[run := v].Keys == c.entries.Keys + {run};
    forall k
      ensures k in order <==> k in c.entries[run := v]
    {
      assert k in order <==> k in c.order || k == run;
    }
  }

  lemma PutIsWellFormed<V>(c: Fifo<V>, run: string, v: V)
    requires WellFormed(c) && run !in c.entries
    ensures |c.entries| >= MAX_RUNS ==> |c.order| > 0
    ensures WellFormed(Put(c, run, v))
    ensures forall k :: k in Put(c, run, v).entries ==>
        k == run || (k in c.entries && Put(c, run, v).entries[k] == c.entries[k])
    ensures run in Put(c, run, v).entries && Put(c, run, v).entries[run] == v
  {
    EvictMakesRoom(c);
    hide Evict, WellFormed;
    AddedIsWellFormed(Evict(c), run, v);
  }

  /** A new run costs an older one its entry exactly if 1024 are tracked, and then the one that came first. */
  lemma PutEvictsExactlyWhen<V>(c: Fifo<V>, run: string, v: V)
    requires WellFormed(c) && run !in c.entries
    ensures |c.entries| >= MAX_RUNS ==> |c.order| > 0
    ensures |c.entries| <= 1024
    ensures |c.entries| < 1024 ==> Put(c, run, v) == Fifo(c.entries[run := v], c.order + [run])
    ensures |c.entries| == 1024 ==>
              && |c.order| > 0 && c.order[0] in c.entries
              && Put(c, run, v) == Fifo((c.entries - {c.order[0]})[run := v], c.order[1..] + [run])
  {
    if |c.entries| == 1024 {
      OldestExists(c);
    }
  }

  // ---------------------------------------------------------------- tool calls and provider errors

  /** One kind of repetition: what is cached and the durable rows of that kind. */
  datatype Detector = Detector(cache: Fifo<CallState>, stored: map<string, CallState>)

  function Stored(d: Detector, run: string): CallState {
    if run in d.stored then d.stored[run] else NOTHING
  }

  function Cached(d: Detector, run: string): CallState {
    if run in d.cache.entries then d.cache.entries[run] else NOTHING
  }

  /** An uncached run starts from nothing, whatever its durable row says. */
  function Recorded(d: Detector, run: string, entries: Entries): Detector
    requires |d.cache.entries| >= MAX_RUNS ==> |d.cache.order| > 0
  {
    if entries == [] then
      if run in d.cache.entries && d.cache.entries[run].fingerprint != "" then
        d.(stored := d.stored[run := d.cache.entries[run]])
      else d
    else
      var state := AdvanceAll(Cached(d, run), entries);
      Detector(Updated(d.cache, run, state), d.stored[run := state])
  }

  /** A lookup loads a positive durable count into the cache. */
  function LookedUp(d: Detector, run: string): (Detector, bool)
    requires |d.cache.entries| >= MAX_RUNS ==> |d.cache.order| > 0
  {
    if run in d.cache.entries then (d, d.cache.entries[run].count >= 3)
    else if Stored(d, run).count == 0 then (d, false)
    else (d.(cache := Put(d.cache, run, Stored(d, run))), Stored(d, run).count >= 3)
  }

  function RestartedDetector(d: Detector): Detector { d.(cache := Fifo(map[], [])) }

  type Histories = map<string, Entries>

  function Of(hs: Histories, run: string): Entries { if run in hs then hs[run] else [] }

  ghost predicate CacheAgrees(c: Fifo<CallState>, hs: Histories) {
    forall run :: run in c.entries ==> c.entries[run] == Summary(Of(hs, run))
  }

  ghost predicate StoreAgrees(d: Detector, hs: Histories) {
    forall run :: Stored(d, run) == Summary(Of(hs, run))
  }

  /** Every cached and every durable state is the summary of its run's whole history. */
  ghost predicate Agrees(d: Detector, hs: Histories) {
    WellFormed(d.cache) && CacheAgrees(d.cache, hs) && StoreAgrees(d, hs)
  }

  /** What a caller can check before it records: the run is cached, or its durable row is harmless to forget. */
  predicate Disciplined(d: Detector, run: string, entries: Entries) {
    || run in d.cache.entries || entries == [] || Stored(d, run).count == 0
    || exists i :: 0 <= i < |entries| && entries[i] != Stored(d, run).fingerprint
  }

  /** The cache after `run` got the state `state`. */
  function Updated(c: Fifo<CallState>, run: string, state: CallState): Fifo<CallState>
    requires |c.entries| >= MAX_RUNS ==> |c.order| > 0
  {
    if run in c.entries then c.(entries := c.entries[run := state]) else Put(c, run, state)
  }

  lemma UpdatedIsWellFormed(c: Fifo<CallState>, run: string, state: CallState)
    requires WellFormed(c)
    ensures |c.entries| >= MAX_RUNS ==> |c.order| > 0
    ensures WellFormed(Updated(c, run, state))
    ensures var c' := Updated(c, run, state);
            && run in c'.entries && c'.entries[run] == state
            && forall k :: k in c'.entries && k != run ==> k in c.entries && c'.entries[k] == c.entries[k]
  {
    if run in c.entries {
      EvictMakesRoom(c);
      assert Updated(c, run, state).entries.Keys == c.entries.Keys;
    } else {
      PutIsWellFormed(c, run, state);
    }
  }

  /** Recording touches one run: agreement afterwards is that run's new state being its new summary. */
  lemma RecordAgreesByState(d: Detector, hs: Histories, run: string, entries: Entries)
    requires Agrees(d, hs) && entries != []
    ensures |d.cache.entries| >= MAX_RUNS ==> |d.cache.order| > 0
    ensures Agrees(Recorded(d, run, entries), hs[run := Of(hs, run) + entries])
            <==> AdvanceAll(Cached(d, run), entries) == Summary(Of(hs, run) + entries)
  {
    hide Summary, AdvanceAll, WellFormed, Evict, Put;
    var state := AdvanceAll(Cached(d, run), entries);
    UpdatedIsWellFormed(d.cache, run, state);
    var d', hs' := Recorded(d, run, entries), hs[run := Of(hs, run) + entries];
    assert d'.cache == Updated(d.cache, run, state);
    assert Stored(d', run) == state && Of(hs', run) == Of(hs, run) + entries;
    assert forall r :: r != run ==> Stored(d', r) == Stored(d, r) && Of(hs', r) == Of(hs, r);
  }

  /** A record keeps the detector in agreement with the unbounded histories exactly when it is disciplined. */
  lemma RecordAgreesExactlyWhen(d: Detector, hs: Histories, run: string, entries: Entries)
    requires Agrees(d, hs)
    ensures |d.cache.entries| >= MAX_RUNS ==> |d.cache.order| > 0
    ensures Agrees(Recorded(d, run, entries), hs[run := Of(hs, run) + entries]) <==> Disciplined(d, run, entries)
  {
    hide Agrees, Recorded;
    var h := Of(hs, run);
    SummaryIsStored(d, hs, run);
    if entries == [] {
      EmptyRecordAgrees(d, hs, run);
    } else {
      RecordAgreesByState(d, hs, run, entries);
      if run in d.cache.entries {
        AdvanceAllSummarises(h, entries);
      } else {
        AdvanceAllSummarises([], entries);
        assert [] + entries == entries;
        ForgettingIsHarmlessWhen(h, entries);
      }
    }
  }

  lemma SummaryIsStored(d: Detector, hs: Histories, run: string)
    requires Agrees(d, hs)
    ensures Stored(d, run) == Summary(Of(hs, run))
    ensures run in d.cache.entries ==> d.cache.entries[run] == Summary(Of(hs, run))
    ensures |d.cache.entries| >= MAX_RUNS ==> |d.cache.order| > 0
  {
  }

  lemma EmptyRecordAgrees(d: Detector, hs: Histories, run: string)
    requires Agrees(d, hs)
    ensures |d.cache.entries| >= MAX_RUNS ==> |d.cache.order| > 0
    ensures Agrees(Recorded(d, run, []), hs[run := Of(hs, run) + []])
  {
    hide Summary, WellFormed, Updated;
    SummaryIsStored(d, hs, run);
    var d', hs' := Recorded(d, run, []), hs[run := Of(hs, run) + []];
    assert Of(hs, run) + [] == Of(hs, run);
    assert forall r :: Stored(d', r) == Stored(d, r);
    assert forall r :: Of(hs', r) == Of(hs, r);
  }

  /** A lookup answers what the whole history says, and stays in agreement with it. */
  lemma LookupIsExact(d: Detector, hs: Histories, run: string)
    requires Agrees(d, hs)
    ensures |d.cache.entries| >= MAX_RUNS ==> |d.cache.order| > 0
    ensures Agrees(LookedUp(d, run).0, hs)
    ensures LookedUp(d, run).1 <==> LastThreeSame(Of(hs, run))
  {
    hide Summary, WellFormed, Evict, Put;
    SummaryAnswers(Of(hs, run));
    SummaryIsStored(d, hs, run);
    if run !in d.cache.entries {
      UpdatedIsWellFormed(d.cache, run, Stored(d, run));
      assert LookedUp(d, run).0.cache == d.cache || LookedUp(d, run).0.cache == Updated(d.cache, run, Stored(d, run));
      assert forall r :: Stored(LookedUp(d, run).0, r) == Stored(d, r);
    }
  }

  datatype Step = Record(run: string, entries: Entries) | Lookup(run: string) | Restart

  ghost function Next(d: Detector, step: Step): Detector
    requires WellFormed(d.cache)
  {
    EvictMakesRoom(d.cache);
    match step
    case Record(run, entries) => Recorded(d, run, entries)
    case Lookup(run) => LookedUp(d, run).0
    case Restart => RestartedDetector(d)
  }

  ghost function Extended(hs: Histories, step: Step): Histories {
    if step.Record? then hs[step.run := Of(hs, step.run) + step.entries] else hs
  }

  /** Every record of the run of steps is disciplined when it happens. */
  ghost predicate DisciplinedRun(d: Detector, steps: seq<Step>)
    decreases |steps|
  {
    steps != [] && WellFormed(d.cache) ==>
      && (steps[0].Record? ==> Disciplined(d, steps[0].run, steps[0].entries))
      && DisciplinedRun(Next(d, steps[0]), steps[1..])
  }

  /** Every lookup of the run of steps is answered by the history so far. */
  ghost predicate AnswersExactly(d: Detector, hs: Histories, steps: seq<Step>)
    decreases |steps|
  {
    steps != [] ==>
      && WellFormed(d.cache)
      && (steps[0].Lookup? ==> Answer(d, steps[0].run) == LastThreeSame(Of(hs, steps[0].run)))
      && AnswersExactly(Next(d, steps[0]), Extended(hs, steps[0]), steps[1..])
  }

  ghost function Answer(d: Detector, run: string): bool
    requires WellFormed(d.cache)
  {
    EvictMakesRoom(d.cache);
    LookedUp(d, run).1
  }

  lemma RestartAgrees(d: Detector, hs: Histories)
    requires Agrees(d, hs)
    ensures Agrees(RestartedDetector(d), hs) && |RestartedDetector(d).cache.entries| == 0
  {
  }

  /** Across any evictions and restarts, the bounded detector answers as the unbounded histories would. */
  lemma {:induction false} BoundedIsExact(d: Detector, hs: Histories, steps: seq<Step>)
    requires Agrees(d, hs) && DisciplinedRun(d, steps)
    ensures AnswersExactly(d, hs, steps)
    decreases |steps|
  {
    if steps == [] {
    } else {
      match steps[0] {
        case Record(run, entries) => RecordAgreesExactlyWhen(d, hs, run, entries);
        case Lookup(run) => LookupIsExact(d, hs, run);
        case Restart => RestartAgrees(d, hs);
      }
      BoundedIsExact(Next(d, steps[0]), Extended(hs, steps[0]), steps[1..]);
    }
  }

  /** After a lookup every record of the run is disciplined: it is cached, or nothing positive is stored. */
  lemma LookupMakesDisciplined(d: Detector, run: string, entries: Entries)
    requires WellFormed(d.cache)
    ensures |d.cache.entries| >= MAX_RUNS ==> |d.cache.order| > 0
    ensures Disciplined(LookedUp(d, run).0, run, entries)
  {
    EvictMakesRoom(d.cache);
  }

  /** Every record comes right after a lookup of its run. */
  ghost predicate LookedUpFirst(steps: seq<Step>) {
    forall i :: 0 <= i < |steps| && steps[i].Record? ==> i > 0 && steps[i - 1] == Lookup(steps[i].run)
  }

  lemma {:induction false} LookedUpIsDisciplined(d: Detector, hs: Histories, steps: seq<Step>)
    requires Agrees(d, hs)
    requires LookedUpFirst(steps)
             || (steps != [] && steps[0].Record? && Disciplined(d, steps[0].run, steps[0].entries)
                 && LookedUpFirst([Lookup(steps[0].run)] + steps))
    ensures DisciplinedRun(d, steps)
    decreases |steps|
  {
    hide Agrees, Disciplined, LookedUp, Recorded;
    if steps == [] {
    } else {
      AgreesIsWellFormed(d, hs);
      var rest := steps[1..];
      assert forall i :: 0 <= i < |rest| ==> rest[i] == steps[i + 1];
      match steps[0] {
        case Record(run, entries) =>
          RecordAgreesExactlyWhen(d, hs, run, entries);
          assert forall i :: 0 <= i < |steps| ==> ([Lookup(run)] + steps)[i + 1] == steps[i];
        case Lookup(run) =>
          LookupIsExact(d, hs, run);
          if rest != [] && rest[0].Record? {
            LookupMakesDisciplined(d, run, rest[0].entries);
            assert [Lookup(run)] + rest == steps;
          }
        case Restart => RestartAgrees(d, hs);
      }
      LookedUpIsDisciplined(Next(d, steps[0]), Extended(hs, steps[0]), rest);
    }
  }

  lemma AgreesIsWellFormed(d: Detector, hs: Histories)
    requires Agrees(d, hs)
    ensures WellFormed(d.cache)
  {
  }

  /** So a detector that is asked before it is told answers exactly, whatever is evicted and whenever it restarts. */
  lemma LookupsMakeItExact(d: Detector, hs: Histories, steps: seq<Step>)
    requires Agrees(d, hs) && LookedUpFirst(steps)
    ensures AnswersExactly(d, hs, steps)
  {
    LookedUpIsDisciplined(d, hs, steps);
    BoundedIsExact(d, hs, steps);
  }

  /** A third equal entry recorded right after a restart, with no lookup in between, goes unnoticed. */
  lemma RecordWithoutLookupForgets()
    ensures var d := Detector(Fifo(map[], []), map["run" := CallState("a", 2)]);
            && Agrees(d, map["run" := ["a", "a"]])
            && !LookedUp(Recorded(d, "run", ["a"]), "run").1
            && LastThreeSame(["a", "a"] + ["a"])
  {
  }
}
