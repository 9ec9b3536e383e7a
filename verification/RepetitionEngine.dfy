/**
 The engine's repetition state: three bounded maps with their order lists, over the durable rows of three kinds.

 The ghost fields are the unbounded histories. Tool calls and provider errors agree with theirs across evictions and
 restarts; a tool-error entry agrees with the results accepted since it was made, until it is evicted or reloaded.
 */
module RepetitionEngine {
  import opened Wrappers
  import opened Digests
  import opened Repetition
  import opened ToolResults
  import Ascii

  predicate FeedbackRunId(s: string) {
    0 < |s| <= 64 && forall i :: 0 <= i < |s| ==> Alphanumeric(s[i]) || s[i] == '_' || s[i] == '.' || s[i] == '-'
  }

  predicate IsFingerprint(s: string) {
    |s| == 64 && forall i :: 0 <= i < |s| ==> '0' <= s[i] <= '9' || 'a' <= s[i] <= 'f'
  }

  predicate Fingerprints(fps: seq<string>) { forall i :: 0 <= i < |fps| ==> IsFingerprint(fps[i]) }

  /** The grammar of run ids and fingerprints. */
  lemma IdentifiersAre(s: string)
    ensures FeedbackRunId(s) <==>
        0 < |s| < 65 && forall c :: c in s ==> Ascii.Plain(c) || c == '_' || c == '.' || c == '-'
    ensures IsFingerprint(s) <==>
        |s| == 64 && forall c :: c in s ==> Ascii.Digit(c) || (Ascii.Lower(c) && c <= 'f')
  {
    assert forall i :: 0 <= i < |s| ==> s[i] in s;
  }

  lemma {:induction false} AdvanceOneMore(state: CallState, entries: Entries, k: nat)
    requires k < |entries|
    ensures AdvanceAll(state, entries[..k + 1]) == Advance(AdvanceAll(state, entries[..k]), entries[k])
    decreases k
  {
    if k > 0 {
      AdvanceOneMore(Advance(state, entries[0]), entries[1..], k - 1);
      assert entries[..k + 1][1..] == entries[1..][..k] && entries[..k][1..] == entries[1..][..k - 1];
    } else {
      assert entries[..1][1..] == [] && entries[..0] == [];
    }
  }

  lemma UpdatedTwice(c: Fifo<CallState>, run: string, a: CallState, b: CallState)
    requires WellFormed(c)
    ensures |c.entries| >= MAX_RUNS ==> |c.order| > 0
    ensures WellFormed(Updated(c, run, a)) && run in Updated(c, run, a).entries && Updated(c, run, a).entries[run] == a
    ensures Updated(Updated(c, run, a), run, b) == Updated(c, run, b)
    ensures run !in c.entries ==> Updated(c, run, a) == Put(c, run, a)
  {
    hide WellFormed, Evict;
    UpdatedIsWellFormed(c, run, a);
  }

  /** Makes the entry of a run that has none, evicting the oldest entry when the map is full. */
  method InsertRun<V>(c: Fifo<V>, run: string, v: V) returns (next: Fifo<V>)
    requires WellFormed(c) && run !in c.entries
    ensures |c.entries| >= MAX_RUNS ==> |c.order| > 0
    ensures next == Put(c, run, v) && WellFormed(next)
  {
    PutIsWellFormed(c, run, v);
    var entries, order := c.entries, c.order;
    if |entries| >= MAX_RUNS {
      entries := map k | k in entries && k != order[0] :: entries[k];
      order := order[1..];
    }
    return Fifo(entries[run := v], order + [run]);
  }

  function StateIn(c: Fifo<CallState>, run: string): CallState { if run in c.entries then c.entries[run] else NOTHING }

  /** One entry of a run: a tool-call fingerprint, a provider's error code, or "" for its success. */
  method Observe(c: Fifo<CallState>, run: string, entry: string) returns (next: Fifo<CallState>)
    requires WellFormed(c)
    ensures |c.entries| >= MAX_RUNS ==> |c.order| > 0
    ensures next == Updated(c, run, Advance(StateIn(c, run), entry)) && WellFormed(next)
    ensures run in next.entries && next.entries[run] == Advance(StateIn(c, run), entry)
  {
    hide WellFormed, Evict, Put;
    UpdatedIsWellFormed(c, run, Advance(StateIn(c, run), entry));
    next := c;
    if run !in c.entries {
      next := InsertRun(c, run, NOTHING);
      UpdatedTwice(c, run, NOTHING, Advance(NOTHING, entry));
    }
    var state := next.entries[run];
    if entry == "" {
      state := CallState("", 0);
    } else if state.fingerprint == entry {
      state := state.(count := state.count + 1);
    } else {
      state := CallState(entry, 1);
    }
    next := next.(entries := next.entries[run := state]);
  }

  /** A cached count, or on a miss the durable one, which is cached when positive. */
  method LoadAndCompare(d: Detector, run: string) returns (cache: Fifo<CallState>, repeated: bool)
    requires WellFormed(d.cache)
    ensures |d.cache.entries| >= MAX_RUNS ==> |d.cache.order| > 0
    ensures (d.(cache := cache), repeated) == LookedUp(d, run) && WellFormed(cache)
  {
    hide WellFormed, Evict, Put;
    RoomFor(d.cache);
    if run in d.cache.entries {
      return d.cache, d.cache.entries[run].count >= 3;
    }
    var loaded := if run in d.stored then d.stored[run] else CallState("", 0);
    if loaded.count == 0 {
      return d.cache, false;
    }
    cache := InsertRun(d.cache, run, loaded);
    repeated := loaded.count >= 3;
  }

  lemma RoomFor<V>(c: Fifo<V>)
    requires WellFormed(c)
    ensures |c.entries| >= MAX_RUNS ==> |c.order| > 0
  {
  }

  // ---------------------------------------------------------------- tool results

  /** Just made, or just loaded from its row: only the count is known. */
  ghost predicate Blank(state: ToolState) { state.fingerprint == None && state.seen == {} && state.seenOrder == [] }

  /**
   Every tool entry lists its ids. It is the summary of the results it accepted since it was made or loaded; before the
   first of them it is blank.
   */
  ghost predicate ToolsAgree(tools: Fifo<ToolState>, accepted: map<string, Accepted>) {
    && WellFormed(tools) && accepted.Keys <= tools.entries.Keys
    && (forall run :: run in tools.entries ==> OrderLists(tools.entries[run]))
    && (forall run :: run in tools.entries && run !in accepted ==> Blank(tools.entries[run]))
    && (forall run :: run in accepted ==> Summarises(tools.entries[run], accepted[run]))
  }

  /** What is still tracked after `run` got a new entry: neither `run` nor the run that was evicted for it. */
  ghost function Surviving(accepted: map<string, Accepted>, tools: Fifo<ToolState>, run: string): map<string,
      Accepted> {
    map k | k in accepted && k in tools.entries && k != run :: accepted[k]
  }

  lemma InsertKeeps(tools: Fifo<ToolState>, accepted: map<string, Accepted>, run: string, state: ToolState)
    requires ToolsAgree(tools, accepted) && run !in tools.entries && OrderLists(state) && Blank(state)
    ensures |tools.entries| >= MAX_RUNS ==> |tools.order| > 0
    ensures ToolsAgree(Put(tools, run, state), Surviving(accepted, Put(tools, run, state), run))
    ensures run in Put(tools, run, state).entries && Put(tools, run, state).entries[run] == state
  {
    hide WellFormed, Evict, OrderLists, Summarises, Blank;
    PutIsWellFormed(tools, run, state);
    ghost var next := Put(tools, run, state);
    hide Put;
    assert forall k :: k in next.entries && k != run ==> next.entries[k] == tools.entries[k];
  }

  /** The entry of `run` after a result: `acc` is what it summarises from then on. */
  lemma ReplaceKeeps(tools: Fifo<ToolState>, accepted: map<string, Accepted>, run: string, state: ToolState,
      acc: Accepted)
    requires ToolsAgree(tools, accepted) && run in tools.entries && OrderLists(state) && Summarises(state, acc)
    ensures ToolsAgree(tools.(entries := tools.entries[run := state]), accepted[run := acc])
  {
    hide OrderLists, Summarises, Blank;
    assert tools.entries[run := state].Keys == tools.entries.Keys;
  }

  lemma OldestIdExists(state: ToolState)
    requires OrderLists(state)
    ensures |state.seen| >= MAX_FEEDBACK_IDS ==> |state.seenOrder| > 0
  {
  }

  method AcceptResult(state: ToolState, result: ToolResult) returns (next: ToolState, stored: bool)
    requires OrderLists(state)
    ensures |state.seen| >= MAX_FEEDBACK_IDS ==> |state.seenOrder| > 0
    ensures next == Accept(state, result) && OrderLists(next) && (stored <==> result.callId !in state.seen)
  {
    hide Text, OrderLists;
    AcceptKeepsOrder(state, result);
    OldestIdExists(state);
    if result.callId in state.seen {
      return state, false;
    }
    var seen, seenOrder := state.seen, state.seenOrder;
    if |seen| >= MAX_FEEDBACK_IDS {
      seen := seen - {seenOrder[0]};
      seenOrder := seenOrder[1..];
    }
    var fingerprint := Sha256(Text(result));
    var count := if !result.failed then 0 else if state.fingerprint == Some(fingerprint) then state.count + 1 else 1;
    return ToolState(Some(fingerprint), count, seen + {result.callId}, seenOrder + [result.callId]), true;
  }

  /** A result extends what the entry summarises; the first one after a reload counts as the first of a new entry. */
  lemma Extend(state: ToolState, acc: Option<Accepted>, result: ToolResult) returns (more: Accepted)
    requires OrderLists(state) && ValidResult(result)
    requires if acc.Some? then Summarises(state, acc.value) else Blank(state)
    ensures |state.seen| >= MAX_FEEDBACK_IDS ==> |state.seenOrder| > 0
    ensures var before := if acc.Some? then acc.value else [];
            more == if result.callId in Window(before) then before else before + [result]
    ensures Summarises(Accept(state, result), more)
  {
    hide Summarises, Window, Text, Accept;
    if acc.Some? {
      AcceptExtends(state, acc.value, result);
      more := if result.callId in Window(acc.value) then acc.value else acc.value + [result];
    } else {
      NewStateSummarises();
      AcceptExtends(NEW_STATE, [], result);
      BlankIsNew(state, result);
      more := [] + [result];
    }
  }

  lemma BlankIsNew(state: ToolState, result: ToolResult)
    requires Blank(state)
    ensures Accept(state, result) == Accept(NEW_STATE, result) && Window([]) == []
  {
  }

  /** `run` got an entry if it had none, at the cost of the oldest one if 1024 are tracked; the others are kept. */
  ghost predicate Entered<V>(before: Fifo<V>, after: Fifo<V>, run: string) {
    && (forall k :: k in after.entries && k != run ==> k in before.entries && after.entries[k] == before.entries[k])
    && if run in before.entries then after.order == before.order && after.entries.Keys == before.entries.Keys
       else if |before.entries| < 1024 then
         after.order == before.order + [run] && after.entries.Keys == before.entries.Keys + {run}
       else
         && before.order != [] && after.order == before.order[1..] + [run]
         && after.entries.Keys == before.entries.Keys - {before.order[0]} + {run}
  }

  lemma PutEnters<V>(c: Fifo<V>, run: string, v: V)
    requires WellFormed(c) && run !in c.entries
    ensures |c.entries| >= MAX_RUNS ==> |c.order| > 0
    ensures Entered(c, Put(c, run, v), run)
  {
    PutEvictsExactlyWhen(c, run, v);
    hide Put, Evict, WellFormed, Entered;
    if |c.entries| < 1024 {
      RoomEnters(c, run, v);
    } else {
      FullEnters(c, run, v);
    }
  }

  lemma RoomEnters<V>(c: Fifo<V>, run: string, v: V)
    requires run !in c.entries && |c.entries| < 1024
    ensures Entered(c, Fifo(c.entries[run := v], c.order + [run]), run)
  {
    KeysWith(c.entries, run, v);
  }

  lemma FullEnters<V>(c: Fifo<V>, run: string, v: V)
    requires run !in c.entries && |c.entries| == 1024 && c.order != [] && c.order[0] in c.entries
    ensures Entered(c, Fifo((c.entries - {c.order[0]})[run := v], c.order[1..] + [run]), run)
  {
    KeysWith(c.entries - {c.order[0]}, run, v);
  }

  lemma KeysWith<V>(m: map<string, V>, k: string, v: V)
    ensures m[k := v].Keys == m.Keys + {k}
  {
  }

  lemma AlreadyEntered<V>(c: Fifo<V>, run: string)
    requires run in c.entries
    ensures Entered(c, c, run)
  {
  }

  lemma ToolsAreWellFormed(tools: Fifo<ToolState>, accepted: map<string, Accepted>)
    requires ToolsAgree(tools, accepted)
    ensures WellFormed(tools) && accepted.Keys <= tools.entries.Keys
  {
  }

  lemma StillEntered<V>(before: Fifo<V>, after: Fifo<V>, run: string, v: V)
    requires Entered(before, after, run) && run in after.entries
    ensures Entered(before, after.(entries := after.entries[run := v]), run)
  {
    assert after.entries[run := v].Keys == after.entries.Keys;
  }

  lemma ToolsList(tools: Fifo<ToolState>, accepted: map<string, Accepted>, run: string)
    requires ToolsAgree(tools, accepted) && run in tools.entries
    ensures OrderLists(tools.entries[run])
    ensures if run in accepted then Summarises(tools.entries[run], accepted[run]) else Blank(tools.entries[run])
  {
  }

  lemma SeenIsWindow(state: ToolState, acc: Option<Accepted>, result: ToolResult)
    requires OrderLists(state)
    requires if acc.Some? then Summarises(state, acc.value) else Blank(state)
    ensures result.callId in state.seen <==> result.callId in Window(if acc.Some? then acc.value else [])
  {
  }

  lemma CountIsTrail(state: ToolState, acc: Accepted)
    requires Summarises(state, acc)
    ensures state.count == ErrorTrail(acc)
  {
  }

  class RepetitionState {
    var calls: Fifo<CallState>
    var providers: Fifo<CallState>
    var tools: Fifo<ToolState>
    /** The rows of `run_repetition_state`, by kind. */
    var storedCalls: map<string, CallState>
    var storedProviders: map<string, CallState>
    var storedToolErrors: map<string, nat>

    ghost var callHistory: Histories
    ghost var providerHistory: Histories
    ghost var accepted: map<string, Accepted>

    function Calls(): Detector reads this { Detector(calls, storedCalls) }

    function Providers(): Detector reads this { Detector(providers, storedProviders) }

    /** Unconditional: every order list lists its map's keys without repeats, so evicting its first element is safe. */
    ghost predicate Valid()
      reads this
    {
      WellFormed(calls) && WellFormed(providers) && ToolsAgree(tools, accepted)
    }

    /** A new process over the rows an earlier one left. */
    constructor (storedCalls: map<string, CallState>, storedProviders: map<string, CallState>,
                 storedToolErrors: map<string, nat>, ghost callHistory: Histories, ghost providerHistory: Histories)
      ensures Valid()
      ensures Calls() == Detector(Fifo(map[], []), storedCalls) && this.callHistory == callHistory
      ensures Providers() == Detector(Fifo(map[], []), storedProviders) && this.providerHistory == providerHistory
      ensures tools == Fifo(map[], []) && accepted == map[] && this.storedToolErrors == storedToolErrors
    {
      this.storedCalls, this.storedProviders, this.storedToolErrors := storedCalls, storedProviders, storedToolErrors;
      this.callHistory, this.providerHistory, this.accepted := callHistory, providerHistory, map[];
      calls, providers, tools := Fifo(map[], []), Fifo(map[], []), Fifo(map[], []);
    }

    method RecordToolCalls(run: string, fps: seq<string>) returns (ok: bool)
      requires Valid()
      modifies this`calls, this`storedCalls, this`callHistory
      ensures Valid() && ok == (FeedbackRunId(run) && Fingerprints(fps))
      ensures !ok ==> Calls() == old(Calls()) && callHistory == old(callHistory)
      ensures ok ==> callHistory == old(callHistory)[run := Of(old(callHistory), run) + fps]
      ensures ok && old(Agrees(Calls(), callHistory)) ==>
                (Agrees(Calls(), callHistory) <==> Disciplined(old(Calls()), run, fps))
    {
      hide WellFormed, Evict, Put, Agrees, Updated, ToolsAgree;
      if !FeedbackRunId(run) || !Fingerprints(fps) {
        return false;
      }
      ghost var before := Calls();
      RoomFor(calls);
      for i := 0 to |fps|
        invariant WellFormed(calls) && storedCalls == before.stored && callHistory == old(callHistory)
        invariant i == 0 ==> calls == before.cache
        invariant i > 0 ==> calls == Updated(before.cache, run, AdvanceAll(Cached(before, run), fps[..i]))
        invariant i > 0 ==> run in calls.entries && calls.entries[run] == AdvanceAll(Cached(before, run), fps[..i])
        invariant i > 0 ==> calls.entries[run].fingerprint != ""
      {
        AdvanceOneMore(Cached(before, run), fps, i);
        UpdatedTwice(before.cache, run, AdvanceAll(Cached(before, run), fps[..i]),
            AdvanceAll(Cached(before, run), fps[..i + 1]));
        calls := Observe(calls, run, fps[i]);
      }
      assert fps[..|fps|] == fps;
      if run in calls.entries && calls.entries[run].fingerprint != "" {
        storedCalls := storedCalls[run := calls.entries[run]];
      }
      callHistory := callHistory[run := Of(callHistory, run) + fps];
      assert Calls() == Recorded(before, run, fps);
      if Agrees(before, old(callHistory)) {
        RecordAgreesExactlyWhen(before, old(callHistory), run, fps);
      }
      return true;
    }

    method RepeatedToolCall(run: string) returns (repeated: bool)
      requires Valid()
      modifies this`calls
      ensures Valid()
      ensures old(Agrees(Calls(), callHistory)) ==>
          Agrees(Calls(), callHistory) && (repeated <==> LastThreeSame(Of(callHistory, run)))
    {
      hide WellFormed, Agrees, LookedUp, ToolsAgree;
      ghost var before := Calls();
      calls, repeated := LoadAndCompare(Calls(), run);
      if Agrees(before, callHistory) {
        LookupIsExact(before, callHistory, run);
      }
    }

    /** A success clears the run; an error code counts. */
    method RecordProviderOutcome(run: string, success: bool, code: string) returns (ok: bool)
      requires Valid()
      modifies this`providers, this`storedProviders, this`providerHistory
      ensures Valid() && ok == (FeedbackRunId(run) && (success || Code(code)))
      ensures !ok ==> Providers() == old(Providers()) && providerHistory == old(providerHistory)
      ensures var entries := [if success then "" else code];
              ok ==> providerHistory == old(providerHistory)[run := Of(old(providerHistory), run) + entries]
      ensures var entries := [if success then "" else code];
              ok && old(Agrees(Providers(), providerHistory)) ==>
                (Agrees(Providers(), providerHistory) <==> Disciplined(old(Providers()), run, entries))
    {
      hide WellFormed, Evict, Put, Agrees, Updated, ToolsAgree;
      if !FeedbackRunId(run) || (!success && !Code(code)) {
        return false;
      }
      ghost var before := Providers();
      var entry := if success then "" else code;
      providers := Observe(providers, run, entry);
      storedProviders := storedProviders[run := providers.entries[run]];
      providerHistory := providerHistory[run := Of(providerHistory, run) + [entry]];
      assert AdvanceAll(Cached(before, run), [entry]) == Advance(Cached(before, run), entry) by {
        assert [entry][1..] == [];
      }
      assert Providers() == Recorded(before, run, [entry]);
      if Agrees(before, old(providerHistory)) {
        RecordAgreesExactlyWhen(before, old(providerHistory), run, [entry]);
      }
      return true;
    }

    method RepeatedProviderError(run: string) returns (repeated: bool)
      requires Valid()
      modifies this`providers
      ensures Valid()
      ensures old(Agrees(Providers(), providerHistory)) ==>
                Agrees(Providers(), providerHistory) && (repeated <==> LastThreeSame(Of(providerHistory, run)))
    {
      hide WellFormed, Agrees, LookedUp, ToolsAgree;
      ghost var before := Providers();
      providers, repeated := LoadAndCompare(Providers(), run);
      if Agrees(before, providerHistory) {
        LookupIsExact(before, providerHistory, run);
      }
    }

    /** The entry of a run is made when it has none. */
    method Track(run: string)
      requires Valid()
      modifies this`tools, this`accepted
      ensures Valid() && run in tools.entries && Entered(old(tools), tools, run)
      ensures run in old(tools.entries) ==> tools == old(tools) && accepted == old(accepted)
      ensures run !in old(tools.entries) ==> tools.entries[run] == NEW_STATE && run !in accepted
      ensures forall r :: r in old(accepted) && r != run ==>
                (r in accepted <==> r in tools.entries) && (r in accepted ==> accepted[r] == old(accepted)[r])
    {
      hide WellFormed, OrderLists, Summarises, Put, Blank, Entered;
      if run in tools.entries {
        AlreadyEntered(tools, run);
        return;
      }
      NewStateSummarises();
      InsertKeeps(tools, accepted, run, NEW_STATE);
      PutEnters(tools, run, NEW_STATE);
      hide ToolsAgree;
      ToolsAreWellFormed(tools, accepted);
      accepted := Surviving(accepted, Put(tools, run, NEW_STATE), run);
      tools := InsertRun(tools, run, NEW_STATE);
    }

    /**
     A valid result is always allowed. It extends the results accepted since the run's entry was made or loaded, unless
     its call id is among the last 256 of them; the row then holds the length of the block of equal errors at their end.
     */
    method RecordToolResult(run: string, result: ToolResult) returns (ok: bool)
      requires Valid()
      modifies this`tools, this`accepted, this`storedToolErrors
      ensures Valid() && ok == (FeedbackRunId(run) && ValidResult(result))
      ensures !ok ==> tools == old(tools) && accepted == old(accepted) && storedToolErrors == old(storedToolErrors)
      ensures ok ==>
                var acc := if run in old(accepted) then old(accepted)[run] else [];
                && run in accepted && accepted[run] == (if result.callId in Window(acc) then acc else acc + [result])
                && storedToolErrors == (if result.callId in Window(acc) then old(storedToolErrors)
                                        else old(storedToolErrors)[run := ErrorTrail(accepted[run])])
      ensures ok ==> run in tools.entries && Entered(old(tools), tools, run)
      ensures forall r :: r in old(accepted) && r != run ==>
                (r in accepted <==> r in tools.entries) && (r in accepted ==> accepted[r] == old(accepted)[r])
    {
      hide WellFormed, OrderLists, Summarises, Window, Put, Accept, Blank, ErrorTrail;
      if !FeedbackRunId(run) || !ValidResult(result) {
        return false;
      }
      hide ValidResult, FeedbackRunId, Entered, ToolsAgree;
      Track(run);
      ToolsList(tools, accepted, run);
      ghost var acc := if run in accepted then Some(accepted[run]) else None;
      ghost var more := Extend(tools.entries[run], acc, result);
      SeenIsWindow(tools.entries[run], acc, result);
      var state, stored := AcceptResult(tools.entries[run], result);
      CountIsTrail(state, more);
      ReplaceKeeps(tools, accepted, run, state, more);
      StillEntered(old(tools), tools, run, state);
      tools := tools.(entries := tools.entries[run := state]);
      accepted := accepted[run := more];
      if stored {
        storedToolErrors := storedToolErrors[run := state.count];
      }
      return true;
    }

    /**
     A run is reported exactly when the last three results accepted by its entry are the same error; before the first of
     them its count, kept or loaded, decides.
     */
    method RepeatedToolErrorOf(run: string) returns (repeated: bool)
      requires Valid()
      modifies this`tools, this`accepted
      ensures Valid()
      ensures run in old(accepted) ==> accepted == old(accepted) && (repeated <==> LastThreeErrorsSame(accepted[run]))
      ensures run in old(tools.entries) || run !in storedToolErrors || storedToolErrors[run] == 0 ==>
                tools == old(tools)
      ensures run !in old(tools.entries) && run in storedToolErrors && storedToolErrors[run] > 0 ==>
                && run in tools.entries && tools.entries[run] == ToolState(None, storedToolErrors[run], {}, [])
                && Entered(old(tools), tools, run)
      ensures run !in old(accepted) ==>
                && run !in accepted
                && (repeated <==> 3 <= if run in old(tools.entries) then old(tools.entries[run].count)
                                       else if run in storedToolErrors then storedToolErrors[run] else 0)
    {
      hide WellFormed, OrderLists, Summarises, Blank, Entered, Put;
      if run in tools.entries {
        if run in accepted {
          ThreeMeansSameError(tools.entries[run], accepted[run]);
        }
        return tools.entries[run].count >= 3;
      }
      var count := if run in storedToolErrors then storedToolErrors[run] else 0;
      if count == 0 {
        return false;
      }
      var loaded := ToolState(None, count, {}, []);
      EmptyOrderLists(count);
      InsertKeeps(tools, accepted, run, loaded);
      PutEnters(tools, run, loaded);
      accepted := Surviving(accepted, Put(tools, run, loaded), run);
      tools := InsertRun(tools, run, loaded);
      return count >= 3;
    }
  }

  lemma NewStateSummarises()
    ensures OrderLists(NEW_STATE) && Summarises(NEW_STATE, []) && Blank(NEW_STATE)
  {
  }

  lemma EmptyOrderLists(count: nat)
    ensures OrderLists(ToolState(None, count, {}, [])) && Blank(ToolState(None, count, {}, []))
  {
  }
}
