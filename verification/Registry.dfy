/**
 The in-memory registry of active runs, one step per critical section of its mutex.

 A `Registry` value is the state guarded by the lock together with the calls that are between two of their own
 critical sections. Records are reached through handles, because a subscriber's release function keeps its record
 after the map has dropped it. Any interleaving of calls is a sequence of `Step`s.
 */
module RunRegistry {
  import opened Wrappers
  import opened Digests
  import Ascii
  import ExecutionRows

  type Notice = ExecutionRows.Notice
  type Handle = nat
  type CallId = nat

  /** A buffered channel of capacity one; `panics` counts sends on and closes of a closed channel. */
  datatype Channel = Channel(queue: seq<Notice>, closed: bool, sent: nat, dropped: nat, panics: nat)

  const OPEN_CHANNEL := Channel([], false, 0, 0, 0)

  /** `select { case ch <- notice: default: }` */
  function Send(ch: Channel, notice: Notice): Channel {
    if ch.closed then ch.(panics := ch.panics + 1)
    else if |ch.queue| < 1 then ch.(queue := ch.queue + [notice], sent := ch.sent + 1)
    else ch.(dropped := ch.dropped + 1)
  }

  function Close(ch: Channel): Channel {
    if ch.closed then ch.(panics := ch.panics + 1) else ch.(closed := true)
  }

  /** What the counters of a channel mean: an operation on a closed one panics, a send to a full one is dropped. */
  lemma ChannelsCount(ch: Channel, notice: Notice)
    ensures var after := Send(ch, notice);
            && (after.panics > ch.panics <==> ch.closed)
            && (after.dropped > ch.dropped <==> !ch.closed && ch.queue != [])
            && (after.sent > ch.sent <==> !ch.closed && ch.queue == [])
            && after.queue == (if !ch.closed && ch.queue == [] then [notice] else ch.queue)
    ensures Close(ch).closed && (Close(ch).panics > ch.panics <==> ch.closed) && Close(ch).queue == ch.queue
  {
  }

  datatype ActiveRun = ActiveRun(runToken: Digest<string>, signalToken: Digest<string>, signals: Channel,
      notified: bool,
                                 ready: bool, claimed: bool, closed: bool, finishing: bool)

  /** A call that has left one critical section and not yet entered its next one. */
  datatype Call = Registering(runId: string, handle: Handle) | Finishing(runId: string, handle: Handle)

  datatype RegistryState = RegistryState(runs: map<string, Handle>, records: map<Handle, ActiveRun>,
                                         calls: map<CallId, Call>)

  datatype Step =
    | RegisterInsert(call: CallId, runId: string, handle: Handle, runToken: string, signalToken: string)
    | RegisterUndo(call: CallId)
    | RegisterReady(call: CallId)
    | Subscribe(runId: string, signalToken: string)
    | Release(handle: Handle)
    | NotifyPolicyBlock(notice: Notice)
    | Receive(handle: Handle)
    | FinishFlag(call: CallId, runId: string)
    | FinishUndo(call: CallId)
    | FinishCommit(call: CallId)

  datatype Reply = Okay | InvalidRunId | RunActive | NotFound | TokenInvalid | AlreadyClaimed | NotNow

  predicate RunIdChar(c: char) {
    'A' <= c <= 'Z' || 'a' <= c <= 'z' || '0' <= c <= '9' || c == '_' || c == '.' || c == '-'
  }

  predicate ValidRunId(id: string) {
    0 < |id| <= 64 && forall i :: 0 <= i < |id| ==> RunIdChar(id[i])
  }

  /** A run id has one to 64 letters, digits, underscores, dots and dashes. */
  lemma ValidRunIdExactlyWhen(id: string)
    ensures ValidRunId(id) <==>
        0 < |id| < 65 && forall c :: c in id ==> Ascii.Plain(c) || c == '_' || c == '.' || c == '-'
  {
    assert forall i :: 0 <= i < |id| ==> id[i] in id;
  }

  predicate FreshTokens(r: RegistryState, runToken: string, signalToken: string) {
    && runToken != "" && signalToken != ""
    && (forall h :: h in r.records ==> r.records[h].runToken != Sha256(runToken)
                                       && r.records[h].signalToken != Sha256(signalToken))
  }

  /** Handles, call identities and random tokens are fresh; a later section runs once, for the call that owns it. */
  predicate Possible(r: RegistryState, step: Step) {
    match step
    case RegisterInsert(call, _, handle, runToken, signalToken) =>
      call !in r.calls && handle !in r.records && FreshTokens(r, runToken, signalToken)
    case RegisterUndo(call) => call in r.calls && r.calls[call].Registering?
    case RegisterReady(call) => call in r.calls && r.calls[call].Registering? && r.calls[call].handle in r.records
    case FinishFlag(call, _) => call !in r.calls
    case FinishUndo(call) => call in r.calls && r.calls[call].Finishing? && r.calls[call].handle in r.records
    case FinishCommit(call) => call in r.calls && r.calls[call].Finishing? && r.calls[call].handle in r.records
    case Release(handle) => handle in r.records && r.records[handle].claimed
    case Receive(handle) => handle in r.records
    case _ => true
  }

  function WithRecord(r: RegistryState, handle: Handle, record: ActiveRun): RegistryState {
    r.(records := r.records[handle := record])
  }

  function CloseOnce(record: ActiveRun): ActiveRun {
    if record.closed then record else record.(signals := Close(record.signals), closed := true)
  }

  /** The record a run id names, if the map has one. */
  function Lookup(r: RegistryState, runId: string): Option<ActiveRun> {
    if runId in r.runs && r.runs[runId] in r.records then Some(r.records[r.runs[runId]]) else None
  }

  function Apply(r: RegistryState, step: Step): (RegistryState, Reply)
    requires Possible(r, step)
  {
    match step
    case RegisterInsert(call, runId, handle, runToken, signalToken) =>
      if !ValidRunId(runId) then (r, InvalidRunId)
      else if runId in r.runs then (r, RunActive)
      else
        var record := ActiveRun(Sha256(runToken), Sha256(signalToken), OPEN_CHANNEL, false, false, false, false, false);
        (RegistryState(r.runs[runId := handle], r.records[handle := record],
            r.calls[call := Registering(runId, handle)]), Okay)
    case RegisterUndo(call) =>
      (r.(runs := r.runs - {r.calls[call].runId}, calls := r.calls - {call}), Okay)
    case RegisterReady(call) =>
      var h := r.calls[call].handle;
      (WithRecord(r, h, r.records[h].(ready := true)).(calls := r.calls - {call}), Okay)
    case Subscribe(runId, signalToken) =>
      (match Lookup(r, runId)
       case None => (r, NotFound)
       case Some(record) =>
         if !record.ready || record.finishing then (r, NotFound)
         else if signalToken == "" || record.signalToken != Sha256(signalToken) then (r, TokenInvalid)
         else if record.claimed then (r, AlreadyClaimed)
         else (WithRecord(r, r.runs[runId], record.(claimed := true)), Okay))
    case Release(handle) =>
      (WithRecord(r, handle, CloseOnce(r.records[handle])), Okay)
    case NotifyPolicyBlock(notice) =>
      (match Lookup(r, notice.runId)
       case None => (r, NotFound)
       case Some(record) =>
         if !record.ready || record.closed || record.finishing || record.notified then (r, NotFound)
         else (WithRecord(r, r.runs[notice.runId], record.(signals := Send(record.signals, notice), notified := true)),
             Okay))
    case Receive(handle) =>
      var ch := r.records[handle].signals;
      if ch.queue == [] then (r, NotFound)
      else (WithRecord(r, handle, r.records[handle].(signals := ch.(queue := ch.queue[1..]))), Okay)
    case FinishFlag(call, runId) =>
      (match Lookup(r, runId)
       case None => (r, NotFound)
       case Some(record) =>
         if !record.ready then (r, NotFound)
         else if record.finishing then (r, NotNow)
         else
           var h := r.runs[runId];
           (WithRecord(r, h, record.(finishing := true)).(calls := r.calls[call := Finishing(runId, h)]), Okay))
    case FinishUndo(call) =>
      var h := r.calls[call].handle;
      (WithRecord(r, h, r.records[h].(finishing := false)).(calls := r.calls - {call}), Okay)
    case FinishCommit(call) =>
      var h := r.calls[call].handle;
      (WithRecord(r, h, CloseOnce(r.records[h])).(runs := r.runs - {r.calls[call].runId}, calls := r.calls - {call}),
          Okay)
  }

  // ---------------------------------------------------------------- safety in every interleaving

  /** Nothing panicked or was dropped, and at most one signal was ever sent: exactly when the notice was taken. */
  ghost predicate SafeRecord(record: ActiveRun) {
    && record.signals.panics == 0 && record.signals.dropped == 0
    && record.closed == record.signals.closed
    && record.signals.sent == (if record.notified then 1 else 0)
    && |record.signals.queue| <= record.signals.sent
  }

  /** The sections that end a call. */
  predicate EndsCall(step: Step) {
    step.RegisterUndo? || step.RegisterReady? || step.FinishUndo? || step.FinishCommit?
  }

  /** The call still owns the map entry it put there or flagged. */
  ghost predicate Owns(r: RegistryState, call: Call) {
    && call.runId in r.runs && r.runs[call.runId] == call.handle && call.handle in r.records
    && (call.Registering? ==> !r.records[call.handle].ready && !r.records[call.handle].finishing)
    && (call.Finishing? ==> r.records[call.handle].ready && r.records[call.handle].finishing)
  }

  ghost predicate InFlight(r: RegistryState, runId: string, finishing: bool) {
    exists c :: c in r.calls && r.calls[c].runId == runId && r.calls[c].Finishing? == finishing
  }

  ghost predicate MapInv(r: RegistryState) {
    && (forall id :: id in r.runs ==> r.runs[id] in r.records)
    && (forall a, b :: a in r.runs && b in r.runs && r.runs[a] == r.runs[b] ==> a == b)
  }

  ghost predicate RecordInv(r: RegistryState) {
    && (forall h :: h in r.records ==> SafeRecord(r.records[h]))
    && (forall g, h :: g in r.records && h in r.records && r.records[g].runToken == r.records[h].runToken ==> g == h)
  }

  ghost predicate CallInv(r: RegistryState) {
    && (forall c :: c in r.calls ==> Owns(r, r.calls[c]))
    && (forall c, d :: c in r.calls && d in r.calls && r.calls[c].runId == r.calls[d].runId ==> c == d)
  }

  /** Every half-done registration and every finishing flag belongs to a call that will still clear it. */
  ghost predicate FlagInv(r: RegistryState)
    requires MapInv(r)
  {
    && (forall id :: id in r.runs && !r.records[r.runs[id]].ready ==> InFlight(r, id, false))
    && (forall id :: id in r.runs && r.records[r.runs[id]].finishing ==> InFlight(r, id, true))
  }

  ghost predicate Inv(r: RegistryState) {
    MapInv(r) && RecordInv(r) && CallInv(r) && FlagInv(r)
  }

  lemma WitnessCall(r: RegistryState, c: CallId)
    requires c in r.calls
    ensures InFlight(r, r.calls[c].runId, r.calls[c].Finishing?)
  {
  }

  /** All that one step can do to a record. */
  ghost predicate RecordMoves(a: ActiveRun, b: ActiveRun) {
    || b == a || b == a.(ready := true) || b == a.(claimed := true)
    || b == a.(finishing := true) || b == a.(finishing := false) || b == CloseOnce(a)
    || (a.signals.queue != [] && b == a.(signals := a.signals.(queue := a.signals.queue[1..])))
    || (!a.closed && !a.notified && exists n :: b == a.(signals := Send(a.signals, n), notified := true))
  }

  lemma StepMovesRecords(r: RegistryState, step: Step)
    requires MapInv(r) && Possible(r, step)
    ensures forall h :: h in r.records ==>
        h in Apply(r, step).0.records && RecordMoves(r.records[h], Apply(r, step).0.records[h])
    ensures !step.RegisterInsert? ==> Apply(r, step).0.records.Keys == r.records.Keys
  {
  }

  lemma StepMapsFreshHandles(r: RegistryState, step: Step)
    requires Possible(r, step)
    ensures var r' := Apply(r, step).0;
            forall k :: k in r'.runs ==> (k in r.runs && r'.runs[k] == r.runs[k]) || r'.runs[k] !in r.records
  {
  }

  lemma InsertKeepsRecords(r: RegistryState, step: Step)
    requires RecordInv(r) && Possible(r, step) && step.RegisterInsert?
    ensures RecordInv(Apply(r, step).0)
  {
  }

  lemma StepKeepsRecords(r: RegistryState, step: Step)
    requires MapInv(r) && RecordInv(r) && Possible(r, step)
    ensures RecordInv(Apply(r, step).0)
  {
    if step.RegisterInsert? {
      InsertKeepsRecords(r, step);
    } else {
      var r' := Apply(r, step).0;
      StepMovesRecords(r, step);
      forall h | h in r.records
        ensures SafeRecord(r'.records[h]) && r'.records[h].runToken == r.records[h].runToken
      {
        MovesAreSafe(r.records[h], r'.records[h]);
      }
    }
  }

  lemma MovesAreSafe(a: ActiveRun, b: ActiveRun)
    requires SafeRecord(a) && RecordMoves(a, b)
    ensures SafeRecord(b) && b.runToken == a.runToken
  {
  }

  /** Steps that touch neither the map, nor the calls, nor the two flags. */
  ghost predicate Quiet(r: RegistryState, r': RegistryState) {
    && r'.runs == r.runs && r'.calls == r.calls && r'.records.Keys == r.records.Keys
    && forall h :: h in r.records ==>
        r'.records[h].ready == r.records[h].ready && r'.records[h].finishing == r.records[h].finishing
  }

  lemma QuietKeepsCalls(r: RegistryState, r': RegistryState)
    requires MapInv(r) && CallInv(r) && FlagInv(r) && Quiet(r, r')
    ensures MapInv(r') && CallInv(r') && FlagInv(r')
  {
  }

  lemma KeptFlags(r: RegistryState, r': RegistryState, id: string)
    requires MapInv(r) && FlagInv(r)
    requires id in r.runs && id in r'.runs && r'.runs[id] == r.runs[id] && r.runs[id] in r'.records
    requires r'.records[r.runs[id]].ready == r.records[r.runs[id]].ready
    requires r'.records[r.runs[id]].finishing == r.records[r.runs[id]].finishing
    requires forall c :: c in r.calls && r.calls[c].runId == id ==> c in r'.calls && r'.calls[c] == r.calls[c]
    ensures !r'.records[r'.runs[id]].ready ==> InFlight(r', id, false)
    ensures r'.records[r'.runs[id]].finishing ==> InFlight(r', id, true)
  {
  }

  /** Steps that begin or end a call on run `id` leave every other run and its calls alone. */
  ghost predicate OnlyRun(r: RegistryState, r': RegistryState, id: string)
    requires MapInv(r)
  {
    && (forall k :: k != id ==> (k in r'.runs <==> k in r.runs))
    && (forall k :: k in r.runs && k != id ==> r'.runs[k] == r.runs[k])
    && (forall k :: k in r.runs && k != id ==> r.runs[k] in r'.records && r'.records[r.runs[k]] == r.records[r.runs[k]])
    && (forall c :: c in r.calls && r.calls[c].runId != id ==> c in r'.calls && r'.calls[c] == r.calls[c])
    && (forall c :: c in r'.calls && r'.calls[c].runId != id ==> c in r.calls && r.calls[c] == r'.calls[c])
  }

  /** What run `id` itself must satisfy afterwards. */
  ghost predicate LocalInv(r: RegistryState, id: string) {
    && (id in r.runs ==> r.runs[id] in r.records && forall k :: k in r.runs && k != id ==> r.runs[k] != r.runs[id])
    && (forall c :: c in r.calls && r.calls[c].runId == id ==> Owns(r, r.calls[c]))
    && (forall c, d :: c in r.calls && d in r.calls && r.calls[c].runId == id && r.calls[d].runId == id ==> c == d)
    && (id in r.runs && !r.records[r.runs[id]].ready ==> InFlight(r, id, false))
    && (id in r.runs && r.records[r.runs[id]].finishing ==> InFlight(r, id, true))
  }

  lemma OnlyRunKeepsInv(r: RegistryState, r': RegistryState, id: string)
    requires MapInv(r) && CallInv(r) && FlagInv(r) && OnlyRun(r, r', id) && LocalInv(r', id)
    ensures MapInv(r') && CallInv(r') && FlagInv(r')
  {
    hide InFlight;
    OthersKeepFlags(r, r', id);
  }

  lemma OthersKeepFlags(r: RegistryState, r': RegistryState, id: string)
    requires MapInv(r) && FlagInv(r) && OnlyRun(r, r', id)
    ensures forall k :: k in r'.runs && k != id ==>
              && r'.runs[k] in r'.records
              && (!r'.records[r'.runs[k]].ready ==> InFlight(r', k, false))
              && (r'.records[r'.runs[k]].finishing ==> InFlight(r', k, true))
  {
    hide InFlight;
    forall k | k in r'.runs && k != id
      ensures r'.runs[k] in r'.records
      ensures !r'.records[r'.runs[k]].ready ==> InFlight(r', k, false)
      ensures r'.records[r'.runs[k]].finishing ==> InFlight(r', k, true)
    {
      KeptFlags(r, r', k);
    }
  }

  /** Registering puts a fresh, unready record behind an unused run id. */
  lemma InsertKeepsCalls(r: RegistryState, call: CallId, id: string, h: Handle, record: ActiveRun)
    requires MapInv(r) && CallInv(r) && FlagInv(r)
    requires call !in r.calls && id !in r.runs && h !in r.records && !record.ready && !record.finishing
    ensures var r' := RegistryState(r.runs[id := h], r.records[h := record], r.calls[call := Registering(id, h)]);
            MapInv(r') && CallInv(r') && FlagInv(r')
  {
    var r' := RegistryState(r.runs[id := h], r.records[h := record], r.calls[call := Registering(id, h)]);
    WitnessCall(r', call);
    OnlyRunKeepsInv(r, r', id);
  }

  /** Raising the finishing flag of a ready record whose flag is down. */
  lemma FlagKeepsCalls(r: RegistryState, call: CallId, id: string)
    requires MapInv(r) && CallInv(r) && FlagInv(r)
    requires call !in r.calls && id in r.runs && r.records[r.runs[id]].ready && !r.records[r.runs[id]].finishing
    ensures var h := r.runs[id];
            var r' := WithRecord(r, h, r.records[h].(finishing := true)).(calls := r.calls[call := Finishing(id, h)]);
            MapInv(r') && CallInv(r') && FlagInv(r')
  {
    var h := r.runs[id];
    var r' := WithRecord(r, h, r.records[h].(finishing := true)).(calls := r.calls[call := Finishing(id, h)]);
    WitnessCall(r', call);
    OnlyRunKeepsInv(r, r', id);
  }

  lemma EndIsLocal(r: RegistryState, step: Step)
    requires MapInv(r) && CallInv(r) && FlagInv(r) && Possible(r, step) && EndsCall(step)
    ensures LocalInv(Apply(r, step).0, r.calls[step.call].runId)
  {
    assert Owns(r, r.calls[step.call]);
    assert Apply(r, step).0.calls.Keys == r.calls.Keys - {step.call};
  }

  lemma EndKeepsCalls(r: RegistryState, step: Step)
    requires MapInv(r) && CallInv(r) && FlagInv(r) && Possible(r, step) && EndsCall(step)
    ensures var r' := Apply(r, step).0; MapInv(r') && CallInv(r') && FlagInv(r')
  {
    assert Owns(r, r.calls[step.call]);
    EndLeavesOthers(r, step);
    EndIsLocal(r, step);
    hide Apply, OnlyRun, LocalInv, CallInv, FlagInv, Owns;
    OnlyRunKeepsInv(r, Apply(r, step).0, r.calls[step.call].runId);
  }

  ghost predicate QuietStep(step: Step) {
    step.Subscribe? || step.Release? || step.NotifyPolicyBlock? || step.Receive?
  }

  lemma StepIsQuiet(r: RegistryState, step: Step)
    requires MapInv(r) && Possible(r, step) && QuietStep(step)
    ensures Quiet(r, Apply(r, step).0)
  {
  }

  lemma StepKeepsInv(r: RegistryState, step: Step)
    requires Inv(r) && Possible(r, step)
    ensures Inv(Apply(r, step).0)
  {
    StepKeepsRecords(r, step);
    if Apply(r, step).0 != r {
      StepKeepsCalls(r, step);
    }
  }

  lemma StepKeepsCalls(r: RegistryState, step: Step)
    requires MapInv(r) && CallInv(r) && FlagInv(r) && Possible(r, step) && Apply(r, step).0 != r
    ensures var r' := Apply(r, step).0; MapInv(r') && CallInv(r') && FlagInv(r')
  {
    if step.RegisterInsert? {
      var r' := Apply(r, step).0;
      InsertKeepsCalls(r, step.call, step.runId, step.handle, r'.records[step.handle]);
    } else if step.FinishFlag? {
      FlagKeepsCalls(r, step.call, step.runId);
    } else if QuietStep(step) {
      StepIsQuiet(r, step);
      QuietKeepsCalls(r, Apply(r, step).0);
    } else {
      EndKeepsCalls(r, step);
    }
  }

  ghost predicate PossibleRun(r: RegistryState, steps: seq<Step>)
    decreases |steps|
  {
    steps == [] || (Possible(r, steps[0]) && PossibleRun(Apply(r, steps[0]).0, steps[1..]))
  }

  ghost function After(r: RegistryState, steps: seq<Step>): RegistryState
    requires PossibleRun(r, steps)
    decreases |steps|
  {
    if steps == [] then r else After(Apply(r, steps[0]).0, steps[1..])
  }

  const EMPTY := RegistryState(map[], map[], map[])

  /**
   Whatever the interleaving of lock sections: no send on and no second close of a closed channel, no notice lost to
   the default arm, at most one signal per registration, at most one call per run between its sections (so at most one
   Finish in the store), and every delete removes the entry its own call still owns.
   */
  lemma {:induction false} SafeInEveryInterleaving(steps: seq<Step>, r: RegistryState)
    requires Inv(r) && PossibleRun(r, steps)
    ensures Inv(After(r, steps))
    decreases |steps|
  {
    if steps == [] {
    } else {
      StepKeepsInv(r, steps[0]);
      SafeInEveryInterleaving(steps[1..], Apply(r, steps[0]).0);
    }
  }

  ghost predicate Resolves(r: RegistryState, token: string, id: string) {
    match Lookup(r, id)
    case None => false
    case Some(record) => token != "" && record.ready && !record.finishing && record.runToken == Sha256(token)
  }

  /** The token issued with a record resolves exactly while that record is mapped, ready and not finishing. */
  lemma IssuedTokenResolves(r: RegistryState, h: Handle, token: string, id: string)
    requires Inv(r) && token != "" && h in r.records && r.records[h].runToken == Sha256(token)
    ensures Resolves(r, token, id) <==> id in r.runs && r.runs[id] == h && r.records[h].ready && !r.records[h].finishing
  {
  }

  /** A finished registration is gone for good: its handle is never mapped again, so its token never resolves. */
  lemma {:induction false} RevokedForever(r: RegistryState, steps: seq<Step>, h: Handle, token: string, id: string)
    requires Inv(r) && PossibleRun(r, steps)
    requires h in r.records && token != "" && r.records[h].runToken == Sha256(token)
    requires forall k :: k in r.runs ==> r.runs[k] != h
    ensures !Resolves(After(r, steps), token, id)
    decreases |steps|
  {
    if steps == [] {
      IssuedTokenResolves(r, h, token, id);
    } else {
      StepKeepsInv(r, steps[0]);
      StepMovesRecords(r, steps[0]);
      StepMapsFreshHandles(r, steps[0]);
      MovesKeep(r.records[h], Apply(r, steps[0]).0.records[h]);
      RevokedForever(Apply(r, steps[0]).0, steps[1..], h, token, id);
    }
  }

  /** The first notice that finds a ready, open, unfinished run is the one signal its record ever carries. */
  lemma {:induction false} FirstNoticeIsTheSignal(r: RegistryState, notice: Notice, steps: seq<Step>)
    requires Inv(r) && Lookup(r, notice.runId).Some?
    requires var record := Lookup(r, notice.runId).value;
             record.ready && !record.closed && !record.finishing && !record.notified
    requires PossibleRun(Apply(r, NotifyPolicyBlock(notice)).0, steps)
    ensures var h := r.runs[notice.runId];
            var last := After(Apply(r, NotifyPolicyBlock(notice)).0, steps);
            && Apply(r, NotifyPolicyBlock(notice)).0.records[h].signals.queue == [notice]
            && h in last.records && last.records[h].signals.sent == 1
            && (last.records[h].signals.queue == [notice] || last.records[h].signals.queue == [])
  {
    var r' := Apply(r, NotifyPolicyBlock(notice)).0;
    StepKeepsInv(r, NotifyPolicyBlock(notice));
    assert SafeRecord(r.records[r.runs[notice.runId]]);
    NotifiedStays(r', steps, r.runs[notice.runId], notice);
  }

  lemma MovesKeep(a: ActiveRun, b: ActiveRun)
    requires RecordMoves(a, b)
    ensures b.runToken == a.runToken && b.signalToken == a.signalToken
    ensures a.notified ==> b.notified && b.signals.sent == a.signals.sent
                           && (b.signals.queue == a.signals.queue
                               || (a.signals.queue != [] && b.signals.queue == a.signals.queue[1..]))
  {
  }

  // ---------------------------------------------------------------- what a registration's tokens are good for

  /** A record that was issued with these two tokens, and still has them. */
  ghost predicate Holds(r: RegistryState, h: Handle, runToken: string, signalToken: string) {
    && h in r.records && r.records[h].runToken == Sha256(runToken) && r.records[h].signalToken == Sha256(signalToken)
  }

  lemma {:induction false} TokensStay(r: RegistryState, steps: seq<Step>, h: Handle, runToken: string,
                                      signalToken: string)
    requires Inv(r) && PossibleRun(r, steps) && Holds(r, h, runToken, signalToken)
    ensures Holds(After(r, steps), h, runToken, signalToken)
    decreases |steps|
  {
    if steps == [] {
    } else {
      StepKeepsInv(r, steps[0]);
      StepMovesRecords(r, steps[0]);
      MovesKeep(r.records[h], Apply(r, steps[0]).0.records[h]);
      hide Inv, Apply;
      TokensStay(Apply(r, steps[0]).0, steps[1..], h, runToken, signalToken);
    }
  }

  /**
   However the sections interleave after a registration, while its record is mapped the tokens it was issued are the
   ones that count: a subscription succeeds exactly with the signal token, once, and the run token resolves to the run,
   both exactly while the record is ready and not finishing; what else can go wrong is told apart.
   */
  lemma {:induction false} TokensCountExactlyWhen(r: RegistryState, register: Step, steps: seq<Step>, token: string)
    requires Inv(r) && Possible(r, register) && register.RegisterInsert? && Apply(r, register).1.Okay?
    requires PossibleRun(Apply(r, register).0, steps)
    ensures var last := After(Apply(r, register).0, steps);
            var reply := Apply(last, Subscribe(register.runId, token)).1;
            register.runId in last.runs && last.runs[register.runId] == register.handle ==>
              && register.handle in last.records
              && var record := last.records[register.handle];
                 var open := record.ready && !record.finishing;
                 && (reply == Okay <==> open && token == register.signalToken && !record.claimed)
                 && (reply == NotFound <==> !open)
                 && (reply == TokenInvalid <==> open && token != register.signalToken)
                 && (reply == AlreadyClaimed <==> open && token == register.signalToken && record.claimed)
                 && (Resolves(last, token, register.runId) <==> open && token == register.runToken)
  {
    var first := Apply(r, register).0;
    StepKeepsInv(r, register);
    assert Holds(first, register.handle, register.runToken, register.signalToken);
    TokensStay(first, steps, register.handle, register.runToken, register.signalToken);
  }

  /** A new registration is mapped to a new, open record that nobody has claimed; it is not ready yet. */
  lemma RegisteredAs(r: RegistryState, register: Step)
    requires Inv(r) && Possible(r, register) && register.RegisterInsert?
    ensures var (r', reply) := Apply(r, register);
            && (reply == Okay <==> ValidRunId(register.runId) && register.runId !in r.runs)
            && (reply == InvalidRunId <==> !ValidRunId(register.runId))
            && (reply == Okay ==>
                  && r'.runs == r.runs[register.runId := register.handle] && register.handle in r'.records
                  && r'.calls == r.calls[register.call := Registering(register.runId, register.handle)]
                  && var record := r'.records[register.handle];
                     && !record.ready && !record.claimed && !record.closed && !record.finishing && !record.notified
                     && record.signals.queue == [] && !record.signals.closed)
            && (reply != Okay ==> r' == r)
  {
  }

  /** The step is a section of a call that has this record. */
  ghost predicate SectionOf(r: RegistryState, step: Step, h: Handle)
    requires Possible(r, step)
  {
    EndsCall(step) && r.calls[step.call].handle == h
  }

  ghost predicate Maps(r: RegistryState, runId: string, h: Handle) { runId in r.runs && r.runs[runId] == h }

  /** A record becomes ready by the last section of its own registration, and stays so. */
  lemma ReadyHasCause(r: RegistryState, step: Step, h: Handle)
    requires MapInv(r) && Possible(r, step) && h in r.records
    ensures h in Apply(r, step).0.records
    ensures Apply(r, step).0.records[h].ready <==> r.records[h].ready || (step.RegisterReady? && SectionOf(r, step, h))
  {
  }

  /** It is claimed by a subscription to its run that succeeds. */
  lemma ClaimHasCause(r: RegistryState, step: Step, h: Handle)
    requires MapInv(r) && Possible(r, step) && h in r.records
    ensures h in Apply(r, step).0.records
    ensures Apply(r, step).0.records[h].claimed <==>
        r.records[h].claimed || (step.Subscribe? && Apply(r, step).1.Okay? && Maps(r, step.runId, h))
  {
  }

  /** Its finishing flag is up from the first section of a Finish until the store reported an error. */
  lemma FinishingHasCauses(r: RegistryState, step: Step, h: Handle)
    requires MapInv(r) && Possible(r, step) && h in r.records
    ensures h in Apply(r, step).0.records
    ensures Apply(r, step).0.records[h].finishing <==>
        || (r.records[h].finishing && !(step.FinishUndo? && SectionOf(r, step, h)))
        || (step.FinishFlag? && Apply(r, step).1.Okay? && Maps(r, step.runId, h))
  {
  }

  /** Its stream is closed by its release function or by the end of its Finish. */
  lemma ClosedHasCauses(r: RegistryState, step: Step, h: Handle)
    requires MapInv(r) && Possible(r, step) && h in r.records
    ensures h in Apply(r, step).0.records
    ensures Apply(r, step).0.records[h].closed <==>
        || r.records[h].closed || step == Release(h) || (step.FinishCommit? && SectionOf(r, step, h))
  {
  }

  /** It is signalled by a notice that is taken; a signal leaves the channel when it is received, and only then. */
  lemma SignalHasCause(r: RegistryState, step: Step, h: Handle)
    requires MapInv(r) && Possible(r, step) && h in r.records
    ensures h in Apply(r, step).0.records
    ensures var a, b := r.records[h], Apply(r, step).0.records[h];
            && (b.notified <==>
                a.notified || (step.NotifyPolicyBlock? && Apply(r, step).1.Okay? && Maps(r, step.notice.runId, h)))
            && (b.notified == a.notified ==>
                  b.signals.queue == if step == Receive(h) && a.signals.queue != [] then a.signals.queue[1..]
                                     else a.signals.queue)
  {
  }

  /** A run leaves the map by the end of its Finish, or by its registration being undone, and otherwise not. */
  lemma EntriesHaveCauses(r: RegistryState, step: Step)
    requires Possible(r, step) && !step.RegisterInsert?
    ensures Apply(r, step).0.runs
            == if step.RegisterUndo? || step.FinishCommit? then r.runs - {r.calls[step.call].runId} else r.runs
  {
  }

  /** Which calls are between two of their sections afterwards. */
  lemma CallsHaveCauses(r: RegistryState, step: Step)
    requires Possible(r, step) && !step.RegisterInsert?
    ensures var (r', reply) := Apply(r, step);
            if EndsCall(step) then r'.calls == r.calls - {step.call}
            else if step.FinishFlag? && reply == Okay then
              step.runId in r.runs && r'.calls == r.calls[step.call := Finishing(step.runId, r.runs[step.runId])]
            else r'.calls == r.calls
  {
  }

  /** Finishing begins exactly for a ready run that is not finishing; a second one is told to wait. */
  lemma FinishBeginsExactlyWhen(r: RegistryState, call: CallId, runId: string)
    requires Inv(r) && call !in r.calls
    ensures var reply := Apply(r, FinishFlag(call, runId)).1;
            var ready := runId in r.runs && r.records[r.runs[runId]].ready;
            && (reply == NotFound <==> !ready)
            && (reply == NotNow <==> ready && r.records[r.runs[runId]].finishing)
            && (reply == Okay <==> ready && !r.records[r.runs[runId]].finishing)
  {
  }

  /** A notice is taken exactly by a ready run that is open, not finishing and has had none. */
  lemma NoticeTakenExactlyWhen(r: RegistryState, notice: Notice)
    requires Inv(r)
    ensures var (r', reply) := Apply(r, NotifyPolicyBlock(notice));
            && (reply == Okay <==>
                  && notice.runId in r.runs
                  && var record := r.records[r.runs[notice.runId]];
                     record.ready && !record.closed && !record.finishing && !record.notified)
            && (reply == Okay ==> r'.records[r.runs[notice.runId]].signals.queue == [notice])
            && (reply != Okay ==> r' == r)
  {
  }

  /**
   A signal token is good for one subscription: once a record is claimed nobody subscribes to it again, whatever
   follows.
   */
  lemma {:induction false} ClaimedOnce(r: RegistryState, steps: seq<Step>, h: Handle, runId: string,
      signalToken: string)
    requires Inv(r) && PossibleRun(r, steps) && h in r.records && r.records[h].claimed
    ensures var last := After(r, steps);
            runId in last.runs && last.runs[runId] == h ==> !Apply(last, Subscribe(runId, signalToken)).1.Okay?
    decreases |steps|
  {
    if steps == [] {
    } else {
      StepKeepsInv(r, steps[0]);
      StepMovesRecords(r, steps[0]);
      ClaimStays(r.records[h], Apply(r, steps[0]).0.records[h]);
      ClaimedOnce(Apply(r, steps[0]).0, steps[1..], h, runId, signalToken);
    }
  }

  lemma ClaimStays(a: ActiveRun, b: ActiveRun)
    requires RecordMoves(a, b) && a.claimed
    ensures b.claimed
  {
  }

  lemma {:induction false} NotifiedStays(r: RegistryState, steps: seq<Step>, h: Handle, notice: Notice)
    requires Inv(r) && PossibleRun(r, steps)
    requires h in r.records && r.records[h].notified && r.records[h].signals.sent == 1
    requires r.records[h].signals.queue == [notice] || r.records[h].signals.queue == []
    ensures var last := After(r, steps);
            && h in last.records && last.records[h].signals.sent == 1
            && (last.records[h].signals.queue == [notice] || last.records[h].signals.queue == [])
    decreases |steps|
  {
    if steps == [] {
    } else {
      StepKeepsInv(r, steps[0]);
      StepMovesRecords(r, steps[0]);
      MovesKeep(r.records[h], Apply(r, steps[0]).0.records[h]);
      NotifiedStays(Apply(r, steps[0]).0, steps[1..], h, notice);
    }
  }

  ghost predicate LeavesRun(r: RegistryState, r': RegistryState, id: string)
    requires id in r.runs && r.runs[id] in r.records
  {
    && id in r'.runs && r'.runs[id] == r.runs[id] && r'.runs[id] in r'.records
    && r'.records[r'.runs[id]].ready == r.records[r.runs[id]].ready
    && r'.records[r'.runs[id]].finishing == r.records[r.runs[id]].finishing
    && (forall c :: c in r.calls && r.calls[c].runId == id ==> c in r'.calls && r'.calls[c] == r.calls[c])
  }

  lemma InsertLeavesOthers(r: RegistryState, step: Step, id: string)
    requires MapInv(r) && Possible(r, step) && step.RegisterInsert? && id in r.runs
    ensures LeavesRun(r, Apply(r, step).0, id)
  {
  }

  lemma FlagLeavesOthers(r: RegistryState, step: Step, id: string)
    requires MapInv(r) && Possible(r, step) && step.FinishFlag? && id in r.runs && id != step.runId
    ensures LeavesRun(r, Apply(r, step).0, id)
  {
  }

  lemma EndLeavesOthers(r: RegistryState, step: Step)
    requires MapInv(r) && Possible(r, step)
    requires EndsCall(step)
    requires Owns(r, r.calls[step.call])
    ensures OnlyRun(r, Apply(r, step).0, r.calls[step.call].runId)
  {
  }

  /** No step of another call touches the map entry or the two flags of a registered run. */
  lemma OtherCallsLeaveRun(r: RegistryState, step: Step, id: string)
    requires Inv(r) && Possible(r, step)
    requires id in r.runs && r.records[r.runs[id]].ready
    requires step.FinishFlag? ==> step.runId != id
    requires step.FinishUndo? || step.FinishCommit? ==> r.calls[step.call].runId != id
    ensures LeavesRun(r, Apply(r, step).0, id)
  {
    if QuietStep(step) {
      StepIsQuiet(r, step);
    } else if step.RegisterInsert? {
      InsertLeavesOthers(r, step, id);
    } else if step.FinishFlag? {
      FlagLeavesOthers(r, step, id);
    } else {
      assert Owns(r, r.calls[step.call]);
      EndLeavesOthers(r, step);
    }
  }

  /** A call's place between two of its sections is its own: only its next section ends it. */
  lemma OtherCallsLeaveCall(r: RegistryState, step: Step, call: CallId)
    requires Possible(r, step) && call in r.calls
    requires EndsCall(step) ==> step.call != call
    ensures call in Apply(r, step).0.calls && Apply(r, step).0.calls[call] == r.calls[call]
  {
  }

  /** The record is out of the map and its signal stream is closed. */
  ghost predicate Gone(r: RegistryState, h: Handle) {
    h in r.records && r.records[h].closed && forall id :: id in r.runs ==> r.runs[id] != h
  }

  lemma GoneMoves(a: ActiveRun, b: ActiveRun)
    requires RecordMoves(a, b) && a.closed
    ensures b.closed
  {
  }

  /** What is gone stays gone, and a record keeps the token it was issued with. */
  lemma GoneForGood(r: RegistryState, step: Step, h: Handle)
    requires Inv(r) && Possible(r, step) && h in r.records
    ensures h in Apply(r, step).0.records && Apply(r, step).0.records[h].runToken == r.records[h].runToken
    ensures Gone(r, h) ==> Gone(Apply(r, step).0, h)
    ensures r.records[h].notified ==> Apply(r, step).0.records[h].notified
  {
    StepMovesRecords(r, step);
    StepMapsFreshHandles(r, step);
    MovesKeep(r.records[h], Apply(r, step).0.records[h]);
    hide Apply;
    if r.records[h].closed {
      GoneMoves(r.records[h], Apply(r, step).0.records[h]);
    }
  }

  /** No run token resolves to a record that is gone. */
  lemma GoneIsRevoked(r: RegistryState, h: Handle, token: string)
    requires Inv(r) && Gone(r, h) && r.records[h].runToken == Sha256(token)
    ensures forall id :: !Resolves(r, token, id)
  {
  }

  /** The registry object; each method is one critical section, `calls` remembers who is between two of them. */
  class Registry {
    var runs: map<string, Handle>
    var records: map<Handle, ActiveRun>
    var calls: map<CallId, Call>

    function View(): RegistryState reads this { RegistryState(runs, records, calls) }

    constructor ()
      ensures View() == EMPTY && Inv(View())
    {
      runs, records, calls := map[], map[], map[];
    }

    method InsertRun(call: CallId, runId: string, handle: Handle, runToken: string, signalToken: string)
      returns (reply: Reply)
      requires Inv(View()) && Possible(View(), RegisterInsert(call, runId, handle, runToken, signalToken))
      modifies this
      ensures (View(), reply) == Apply(old(View()), RegisterInsert(call, runId, handle, runToken, signalToken))
      ensures Inv(View())
    {
      StepKeepsInv(View(), RegisterInsert(call, runId, handle, runToken, signalToken));
      if !ValidRunId(runId) {
        return InvalidRunId;
      }
      if runId in runs {
        return RunActive;
      }
      records := records[handle := ActiveRun(Sha256(runToken), Sha256(signalToken), OPEN_CHANNEL, false, false, false,
          false, false)];
      runs := runs[runId := handle];
      calls := calls[call := Registering(runId, handle)];
      return Okay;
    }

    method UndoInsert(call: CallId, runId: string)
      requires Inv(View()) && Possible(View(), RegisterUndo(call)) && calls[call].runId == runId
      modifies this
      ensures View() == Apply(old(View()), RegisterUndo(call)).0 && Inv(View())
    {
      StepKeepsInv(View(), RegisterUndo(call));
      runs := runs - {runId};
      calls := calls - {call};
    }

    method MarkReady(call: CallId, handle: Handle)
      requires Inv(View()) && Possible(View(), RegisterReady(call)) && calls[call].handle == handle
      modifies this
      ensures View() == Apply(old(View()), RegisterReady(call)).0 && Inv(View())
    {
      StepKeepsInv(View(), RegisterReady(call));
      records := records[handle := records[handle].(ready := true)];
      calls := calls - {call};
    }

    method ResolveRunToken(token: string) returns (found: Option<string>)
      requires Inv(View())
      ensures found.Some? ==> Resolves(View(), token, found.value)
      ensures found.None? ==> forall id :: !Resolves(View(), token, id)
    {
      if token == "" {
        return None;
      }
      var hash := Sha256(token);
      var rest := runs.Keys;
      while rest != {}
        invariant rest <= runs.Keys
        invariant forall id :: id in runs && id !in rest ==> !Resolves(View(), token, id)
        decreases |rest|
      {
        var id :| id in rest;
        var record := records[runs[id]];
        if record.ready && !record.finishing && record.runToken == hash {
          return Some(id);
        }
        rest := rest - {id};
      }
      return None;
    }

    method SubscribeSignals(runId: string, signalToken: string) returns (reply: Reply)
      requires Inv(View())
      modifies this`records
      ensures (View(), reply) == Apply(old(View()), Subscribe(runId, signalToken)) && Inv(View())
    {
      StepKeepsInv(View(), Subscribe(runId, signalToken));
      if runId !in runs || !records[runs[runId]].ready || records[runs[runId]].finishing {
        return NotFound;
      }
      var record := records[runs[runId]];
      if signalToken == "" || record.signalToken != Sha256(signalToken) {
        return TokenInvalid;
      }
      if record.claimed {
        return AlreadyClaimed;
      }
      records := records[runs[runId] := record.(claimed := true)];
      return Okay;
    }

    /** The function Subscribe hands out; calling it again does nothing. */
    method ReleaseSignals(handle: Handle)
      requires Inv(View()) && Possible(View(), Release(handle))
      modifies this`records
      ensures View() == Apply(old(View()), Release(handle)).0 && Inv(View())
    {
      StepKeepsInv(View(), Release(handle));
      var record := records[handle];
      if !record.closed {
        records := records[handle := record.(signals := Close(record.signals), closed := true)];
      } else {
        records := records[handle := record];
      }
    }

    method Notify(notice: Notice) returns (reply: Reply)
      requires Inv(View())
      modifies this`records
      ensures (View(), reply) == Apply(old(View()), NotifyPolicyBlock(notice)) && Inv(View())
    {
      StepKeepsInv(View(), NotifyPolicyBlock(notice));
      if notice.runId !in runs {
        return NotFound;
      }
      var record := records[runs[notice.runId]];
      if !record.ready || record.closed || record.finishing {
        return NotFound;
      }
      if record.notified {
        return NotFound;
      }
      records := records[runs[notice.runId] := record.(signals := Send(record.signals, notice), notified := true)];
      return Okay;
    }

    /** A subscriber takes the buffered signal, if there is one. */
    method TakeSignal(handle: Handle) returns (signal: Option<Notice>)
      requires Inv(View()) && handle in records
      modifies this`records
      ensures View() == Apply(old(View()), Receive(handle)).0 && Inv(View())
      ensures signal.Some? <==> old(records[handle].signals.queue) != []
      ensures signal.Some? ==> signal.value == old(records[handle].signals.queue)[0]
    {
      StepKeepsInv(View(), Receive(handle));
      var record := records[handle];
      if record.signals.queue == [] {
        return None;
      }
      records := records[handle := record.(signals := record.signals.(queue := record.signals.queue[1..]))];
      return Some(record.signals.queue[0]);
    }

    method BeginFinish(call: CallId, runId: string) returns (reply: Reply, handle: Handle)
      requires Inv(View()) && Possible(View(), FinishFlag(call, runId))
      modifies this
      ensures (View(), reply) == Apply(old(View()), FinishFlag(call, runId)) && Inv(View())
      ensures reply.Okay? ==> runId in runs && runs[runId] == handle
    {
      StepKeepsInv(View(), FinishFlag(call, runId));
      if runId !in runs || !records[runs[runId]].ready {
        return NotFound, 0;
      }
      handle := runs[runId];
      if records[handle].finishing {
        return NotNow, handle;
      }
      records := records[handle := records[handle].(finishing := true)];
      calls := calls[call := Finishing(runId, handle)];
      return Okay, handle;
    }

    method UndoFinish(call: CallId, handle: Handle)
      requires Inv(View()) && Possible(View(), FinishUndo(call)) && calls[call].handle == handle
      modifies this
      ensures View() == Apply(old(View()), FinishUndo(call)).0 && Inv(View())
    {
      StepKeepsInv(View(), FinishUndo(call));
      records := records[handle := records[handle].(finishing := false)];
      calls := calls - {call};
    }

    method CommitFinish(call: CallId, runId: string, handle: Handle)
      requires Inv(View()) && Possible(View(), FinishCommit(call)) && calls[call] == Finishing(runId, handle)
      modifies this
      ensures View() == Apply(old(View()), FinishCommit(call)).0 && Inv(View())
    {
      StepKeepsInv(View(), FinishCommit(call));
      var record := records[handle];
      if !record.closed {
        record := record.(signals := Close(record.signals), closed := true);
      }
      records := records[handle := record];
      runs := runs - {runId};
      calls := calls - {call};
    }

    /** The critical section that `step` names. */
    method Perform(step: Step)
      requires Inv(View()) && Possible(View(), step)
      modifies this
      ensures View() == Apply(old(View()), step).0 && Inv(View())
    {
      match step
      case RegisterInsert(call, id, h, runToken, signalToken) =>
        var _ := InsertRun(call, id, h, runToken, signalToken);
      case RegisterUndo(call) =>
        UndoInsert(call, calls[call].runId);
      case RegisterReady(call) =>
        MarkReady(call, calls[call].handle);
      case Subscribe(id, signalToken) =>
        var _ := SubscribeSignals(id, signalToken);
      case Release(h) =>
        ReleaseSignals(h);
      case NotifyPolicyBlock(notice) =>
        var _ := Notify(notice);
      case Receive(h) =>
        var _ := TakeSignal(h);
      case FinishFlag(call, id) =>
        var _, _ := BeginFinish(call, id);
      case FinishUndo(call) =>
        UndoFinish(call, calls[call].handle);
      case FinishCommit(call) =>
        CommitFinish(call, calls[call].runId, calls[call].handle);
    }
  }
}
