/**
 How a supervised run ends: the runner's event loop, the HTTP Finish handler, the registry and the durable row.

 `Core` is everything the supervisor of one run shares with the rest of the process. `Environment` is interference:
 any finite number of atomic steps of everybody else, taken between any two atomic steps of the code below. It may let
 this run's mark-running request land at any time after it was sent, even after it was cancelled; it may commit policy
 blocks, notify, subscribe and release; and it may do anything to other runs. Nobody else finishes this run.
 */
module RunEnding {
  import opened Wrappers
  import opened Digests
  import opened ExecutionRows
  import R = RunRegistry
  import RunIds

  /** What interference can make of an open row: mark it running, and then block it. */
  ghost predicate RowRely(a: Row, b: Row) {
    || b == a
    || (a.state.Starting? && b == a.(state := Running))
    || ((a.state.Starting? || a.state.Running?) && b.policy.Some? && b == a.(state := Blocked, policy := b.policy))
  }

  datatype FinishRequest = FinishRequest(state: State, exitCode: int, stopReason: string,
                                         termination: TerminationStatus, code: string)

  predicate RunnerTerminalState(state: State) {
    PlainTerminal(state) || state.TerminationFailed?
  }

  /** The state a report means for a row that is already blocked, if it is a report about stopping the process. */
  function BlockedFinishState(input: FinishRequest): Option<State> {
    match input.termination
    case Succeeded => if input.code != "" then None else Some(Blocked)
    case NotStopped => if input.code == "" then None else Some(TerminationFailed)
    case _ => None
  }

  /** The handler's checks of a report against the row it read first; `None` is its 400. */
  function FirstState(before: Row, input: FinishRequest): Option<State> {
    if !RunnerTerminalState(input.state) || !ValidStatus(input.termination) then None
    else if before.state.Blocked? then BlockedFinishState(input)
    else if input.state.TerminationFailed? then
      if !input.termination.NotStopped? || input.code == "" then None else Some(TerminationFailed)
    else if input.termination.NotStopped? || input.code != "" then None
    else Some(input.state)
  }

  /** A report that is wrong whatever the row is: no end, an unknown status, or a code that does not fit the status. */
  ghost predicate Malformed(input: FinishRequest) {
    || input.state in {Starting, Running, Blocked, OtherState} || input.termination == OtherStatus
    || (input.termination == NotStopped <==> input.code == "")
  }

  /** Which reports the handler accepts, and as what state: a blocked row takes only how its process was stopped. */
  lemma FirstStateExactlyWhen(before: Row, input: FinishRequest)
    ensures FirstState(before, input) ==
        if Malformed(input) then None
        else if before.state == Blocked then
          if input.termination == Succeeded then Some(Blocked)
          else if input.termination == NotStopped then Some(TerminationFailed) else None
        else if (input.state == TerminationFailed) == (input.termination == NotStopped) then Some(input.state)
        else None
  {
  }

  /** The three kinds of report the runner makes. */
  predicate StoppedReport(input: FinishRequest) {
    PlainTerminal(input.state) && input.termination.Succeeded? && input.code == ""
  }

  predicate StopFailedReport(input: FinishRequest) {
    input.state.TerminationFailed? && input.termination.NotStopped? && NormalizedCode(input.code)
  }

  predicate NaturalReport(input: FinishRequest) {
    PlainTerminal(input.state) && input.termination.NotRequired? && input.code == ""
  }

  /** A closed row agrees with the report, except that a committed block keeps its policy and its own state. */
  ghost predicate ClosedBy(row: Row, input: FinishRequest) {
    && Closed(row) && row.exitCode == Some(input.exitCode) && row.stopReason == input.stopReason
    && (row.policy.None? ==>
          row.state == input.state && row.termination == NullIfUnset(input.termination) && row.code == input.code)
    && (row.policy.Some? ==>
        || (row.state.Blocked? && row.termination == Some(Succeeded) && input.termination.Succeeded?)
                             || (row.state.TerminationFailed? && row.termination == Some(NotStopped)
                                 && row.code == input.code && input.termination.NotStopped?))
  }

  function ReportOf(runId: string, input: FinishRequest, state: State, now: Time): ExecutionResult {
    ExecutionResult(runId, state, Some(now), input.exitCode, input.stopReason, input.termination, input.code)
  }

  /** The row is open whatever interference does, and the report fits every open row it can become. */
  ghost predicate SurelyStored(row: Row, input: FinishRequest, state: State) {
    || (StopFailedReport(input) && state.TerminationFailed?)
    || (row.state.Blocked? && BlockedFinishState(input) == Some(state)
        && (input.code == "" || NormalizedCode(input.code)))
  }

  ghost predicate PlainReport(row: Row, input: FinishRequest, state: State) {
    && PlainTerminal(input.state) && state == input.state && ValidStatus(input.termination)
    && !input.termination.NotStopped? && input.code == "" && (input.state.Failed? || !row.state.Starting?)
  }

  ghost predicate KeepsPolicy(before: Row, after: Row) {
    before.policy.Some? ==> after.policy == before.policy
  }

  /** What the handler needs to know about interference with an open row. */
  ghost predicate Progresses(a: Row, b: Row) {
    OpenRow(b) && KeepsPolicy(a, b) && (!a.state.Starting? ==> !b.state.Starting?) && (a.state.Blocked? ==> b == a)
  }

  ghost predicate OpenRow(row: Row) { GoodRow(row) && !Closed(row) }

  /** The report is one that the handler accepts as this state. */
  ghost predicate Fits(input: FinishRequest, state: State) {
    if state.TerminationFailed? then input.termination.NotStopped? && input.code != ""
    else
      && input.code == "" && input.termination != NotStopped && input.termination != OtherStatus
      && (if state.Blocked? then input.termination.Succeeded? else PlainTerminal(state))
  }

  /** Of such reports the store rejects exactly those whose code is not normalized. */
  lemma RejectedExactlyWhen(input: FinishRequest, state: State, result: ExecutionResult)
    requires Fits(input, state) && result.runId != "" && result.endedAt.Some?
    requires result == ReportOf(result.runId, input, state, result.endedAt.value)
    ensures CheckResult(result).Rejected? <==> input.code != "" && !NormalizedCode(input.code)
    ensures CheckResult(result).Done? || CheckResult(result).Rejected?
  {
  }

  /** What one store attempt does to the row it meets, `seen`, when `row` was the row before. */
  lemma StoredReport(row: Row, seen: Row, input: FinishRequest, state: State, result: ExecutionResult)
    requires OpenRow(row) && RowRely(row, seen) && RunnerTerminalState(input.state)
    requires state == input.state || (row.state.Blocked? && BlockedFinishState(input) == Some(state))
    requires result.runId != "" && result.endedAt.Some?
        && result == ReportOf(result.runId, input, state, result.endedAt.value)
    ensures CheckResult(result) in {Done, Rejected}
    ensures CheckResult(result).Done? && Finished(seen, result).Some? ==> ClosedBy(Finished(seen, result).value, input)
    ensures SurelyStored(row, input, state) ==> CheckResult(result).Done? && Finished(seen, result).Some?
    ensures PlainReport(row, input, state) ==>
        CheckResult(result).Done? && (Finished(seen, result).Some? || seen.state.Blocked?)
    ensures CheckResult(result).Done? && Finished(seen, result).Some? && row.policy.Some?
            ==> Finished(seen, result).value.policy == row.policy
  {
  }

  lemma RelyProgresses(a: Row, b: Row, c: Row)
    requires OpenRow(a) && RowRely(a, b) && RowRely(b, c) && GoodRow(c)
    ensures Progresses(a, c) && (b.state.Blocked? ==> c.state.Blocked?)
  {
  }

  /** How a process ended; `failed` is a non-nil error from Wait. */
  datatype ProcessResult = ProcessResult(exitCode: int, failed: bool)

  /** The answer to mark-running as it reached the runner; one that is lost on its way counts as refused. */
  datatype Answer = Awaited | Accepted | Refused

  /**
   What has happened to the runner from outside: whether the signal stream or the child could not be opened, how the
   child ended, a circuit break on the signal stream, the loss of that stream, cancellation, the deadline, the answer to
   mark-running, and a failed attempt to stop the child.
   */
  datatype Log = Log(noSignals: bool, noChild: bool, child: Option<ProcessResult>, signalled: bool, streamLost: bool,
                     cancelled: bool, deadlineDue: bool, answer: Answer, stopFailed: bool)

  const NOTHING_YET := Log(false, false, None, false, false, false, false, Awaited, false)

  /** Nothing that has happened is taken back, and there is one exit and one answer. */
  predicate Grows(a: Log, b: Log) {
    && (a.noSignals ==> b.noSignals) && (a.noChild ==> b.noChild) && (a.child.Some? ==> b.child == a.child)
    && (a.signalled ==> b.signalled) && (a.streamLost ==> b.streamLost) && (a.cancelled ==> b.cancelled)
    && (a.deadlineDue ==> b.deadlineDue) && (!a.answer.Awaited? ==> b.answer == a.answer)
    && (a.stopFailed ==> b.stopFailed)
  }

  /** Some channel of the runner's `select` has something to receive. */
  predicate Ready(log: Log, processDone: bool, pending: bool) {
    || (log.child.Some? && !processDone) || log.signalled || log.streamLost || log.deadlineDue || log.cancelled
    || (!log.answer.Awaited? && pending)
  }

  /**
   What the log can become while a `select` waits: a channel is ready in the end, a circuit break comes only by a
   signal, the deadline only if there is one, and a good answer only from a request that was accepted.
   */
  predicate Arrives(log: Log, later: Log, signal: bool, accepted: bool, hasDeadline: bool, processDone: bool,
                    pending: bool) {
    && Grows(log, later) && Ready(later, processDone, pending) && later.signalled == (log.signalled || signal)
    && (later.deadlineDue ==> log.deadlineDue || hasDeadline)
    && (later.answer.Accepted? ==> accepted || log.answer.Accepted?)
    && later.noSignals == log.noSignals && later.noChild == log.noChild && later.stopFailed == log.stopFailed
  }

  /** Any such log. */
  method Arrivals(log: Log, signal: bool, accepted: bool, hasDeadline: bool, processDone: bool, pending: bool)
    returns (later: Log)
    ensures Arrives(log, later, signal, accepted, hasDeadline, processDone, pending)
  {
    later := *;
    if !Arrives(log, later, signal, accepted, hasDeadline, processDone, pending) {
      later := log.(signalled := log.signalled || signal, streamLost := true);
    }
  }

  lemma ArrivalsAre(log: Log, later: Log, signal: bool, accepted: bool, hasDeadline: bool, processDone: bool,
                    pending: bool)
    requires Arrives(log, later, signal, accepted, hasDeadline, processDone, pending)
    ensures Grows(log, later) && Ready(later, processDone, pending) && later.signalled == (log.signalled || signal)
    ensures later.deadlineDue ==> log.deadlineDue || hasDeadline
    ensures later.answer.Accepted? ==> accepted || log.answer.Accepted?
    ensures later.noSignals == log.noSignals && later.noChild == log.noChild && later.stopFailed == log.stopFailed
  {
  }

  class Core {
    const journal: Journal
    const registry: R.Registry
    const runId: string
    const handle: R.Handle
    const runToken: string
    var markSent: bool
    var markArrived: bool
    var markAccepted: bool
    /** What came from outside so far; it is written by `Meanwhile`, `Open` and `Terminate` only. */
    var log: Log
    /** The block of this run that committed. */
    ghost var committed: Option<Notice>

    /** The supervisor's view right after its registration succeeded. */
    constructor (journal: Journal, registry: R.Registry, runId: string, handle: R.Handle, runToken: string)
      requires R.Inv(registry.View()) && runId != ""
      requires handle in registry.records && registry.records[handle].runToken == Sha256(runToken)
      requires runId in journal.rows && GoodRow(journal.rows[runId]) && journal.rows[runId].state.Starting?
      ensures Valid() && !markSent && committed == None && log == NOTHING_YET
      ensures this.journal == journal && this.registry == registry && this.runId == runId && this.handle == handle
      ensures this.runToken == runToken
    {
      this.journal, this.registry, this.runId, this.handle, this.runToken := journal, registry, runId, handle, runToken;
      markSent, markArrived, markAccepted, committed, log := false, false, false, None, NOTHING_YET;
    }

    ghost predicate Valid()
      reads this, journal, registry
    {
      && R.Inv(registry.View()) && runId != ""
      && handle in registry.records && registry.records[handle].runToken == Sha256(runToken)
      && runId in journal.rows && GoodRow(Row()) && Row().policy == committed
      && (markArrived ==> markSent)
      && (markArrived && markAccepted ==> !Row().state.Starting?)
      && (!markArrived ==> Row().state.Starting? || Closed(Row()))
      && (log.answer.Accepted? ==> markArrived && markAccepted)
    }

    ghost function Row(): Row
      reads this, journal
      requires runId in journal.rows
    {
      journal.rows[runId]
    }

    /** This run's record is mapped and ready; `finishing` is its flag. */
    ghost predicate Registered(finishing: bool)
      reads this, registry
    {
      && runId in registry.runs && registry.runs[runId] == handle && handle in registry.records
      && registry.records[handle].ready && registry.records[handle].finishing == finishing
    }

    ghost predicate HasCall(call: R.CallId)
      reads this, registry
    {
      call in registry.calls && registry.calls[call] == R.Finishing(runId, handle)
    }

    /** The run is over: its record is unmapped and its signal stream closed. */
    ghost predicate Dropped()
      reads registry
    {
      R.Gone(registry.View(), handle)
    }

    /** A notice was put into this run's signal channel. */
    ghost predicate Notified()
      reads registry
    {
      handle in registry.records && registry.records[handle].notified
    }

    /** This run's registration is between its sections. */
    ghost predicate Registering(call: R.CallId)
      reads this, registry
    {
      call in registry.calls && registry.calls[call] == R.Registering(runId, handle)
    }

    /** One atomic step of somebody else on the `executions` and `events` tables. */
    method OtherTransaction(op: Op)
      requires Valid()
      modifies this`markArrived, this`markAccepted, this`committed, journal
      ensures Valid() && RowRely(old(Row()), Row())
      ensures op == Mark(runId) && markSent ==> markArrived
    {
      if !op.Recover? && (op.Finish? ==> op.result.runId != runId) {
        TransactionOnRow(journal.View(), op, runId);
      }
      match op
      case Start(id, at) =>
        var _ := journal.StartExecution(id, at);
      case Mark(id) =>
        if id != runId {
          var _ := journal.MarkExecutionRunning(id);
        } else if markSent && !markArrived {
          var _ := Running();
        }
      case Block(notice) =>
        var outcome := journal.BlockExecution(notice);
        if notice.runId == runId && outcome.Done? {
          committed := Some(notice);
        }
      case RecordBlock(event, notice) =>
        var outcome := journal.RecordPolicyBlock(event, notice);
        if notice.runId == runId && outcome.Done? {
          committed := Some(notice);
        }
      case Finish(result) =>
        if result.runId != runId {
          var _ := journal.FinishExecution(result);
        }
      case Append(event) =>
        var _ := journal.AppendEvent(event);
      case Recover(_) =>
    }

    /** One critical section of somebody else in the registry. */
    method OtherSection(step: R.Step)
      requires Valid()
      modifies registry
      ensures Valid()
      ensures forall f :: old(Registered(f)) ==> Registered(f)
      ensures forall c :: old(HasCall(c)) ==> HasCall(c)
      ensures forall c :: old(Registering(c)) ==> Registering(c)
      ensures (old(Dropped()) ==> Dropped()) && (old(Notified()) ==> Notified())
    {
      hide R.Inv, R.Apply;
      var view := registry.View();
      if !R.Possible(view, step) || (step.FinishFlag? && step.runId == runId)
         || (R.EndsCall(step) && view.calls[step.call].runId == runId) {
        return;
      }
      if R.Lookup(view, runId).Some? && R.Lookup(view, runId).value.ready {
        R.OtherCallsLeaveRun(view, step, runId);
      }
      forall c | c in view.calls && view.calls[c].runId == runId
        ensures c in R.Apply(view, step).0.calls && R.Apply(view, step).0.calls[c] == view.calls[c]
      {
        R.OtherCallsLeaveCall(view, step, c);
      }
      R.GoneForGood(view, step, handle);
      registry.Perform(step);
    }

    method Environment()
      requires Valid()
      modifies this`markArrived, this`markAccepted, this`committed, journal, registry
      ensures Valid() && RowRely(old(Row()), Row())
      ensures forall f :: old(Registered(f)) ==> Registered(f)
      ensures forall c :: old(HasCall(c)) ==> HasCall(c)
      ensures forall c :: old(Registering(c)) ==> Registering(c)
      ensures (old(Dropped()) ==> Dropped()) && (old(Notified()) ==> Notified())
    {
      var steps: nat := *;
      while 0 < steps
        invariant Valid() && RowRely(old(Row()), Row())
        invariant forall f :: old(Registered(f)) ==> Registered(f)
        invariant forall c :: old(HasCall(c)) ==> HasCall(c)
        invariant forall c :: old(Registering(c)) ==> Registering(c)
        invariant (old(Dropped()) ==> Dropped()) && (old(Notified()) ==> Notified())
      {
        if * {
          var op: Op := *;
          OtherTransaction(op);
        } else {
          var step: R.Step := *;
          OtherSection(step);
        }
        steps := steps - 1;
      }
    }

    /**
     `HTTPHandler.Running` for this run, which the runner requests once: 204 means that the row moved, 409 that it did
     not.
     */
    method Running() returns (status: int)
      requires Valid() && markSent && !markArrived
      modifies this`markArrived, this`markAccepted, journal
      ensures Valid() && markArrived && status == (if markAccepted then 204 else 409)
      ensures status == 204 <==> Marked(old(Row())) == Some(Row())
      ensures status == 409 <==> Marked(old(Row())).None?
      ensures status == 409 ==> Row() == old(Row())
    {
      var outcome := journal.MarkExecutionRunning(runId);
      markArrived, markAccepted := true, outcome.Done?;
      status := if outcome.Done? then 204 else 409;
    }

    /** The signal handler takes a notice from the channel, if there is one, and sends it to the runner. */
    method NextSignal() returns (signalled: bool)
      requires Valid() && Registered(false)
      modifies registry
      ensures Valid() && Registered(false)
      ensures (signalled || old(Notified())) ==> Notified()
    {
      assert R.SafeRecord(registry.records[handle]);
      R.GoneForGood(registry.View(), R.Receive(handle), handle);
      var signal := registry.TakeSignal(handle);
      return signal.Some?;
    }

    /** Anything by others, and perhaps the next notice for this run. */
    method NextNotice() returns (signalled: bool)
      requires Valid() && Registered(false)
      modifies this`markArrived, this`markAccepted, this`committed, journal, registry
      ensures Valid() && Registered(false) && RowRely(old(Row()), Row())
      ensures signalled || old(Notified()) ==> Notified()
    {
      hide R.Inv, RowRely;
      Environment();
      var deliverNow: bool := *;
      if deliverNow {
        signalled := NextSignal();
      } else {
        signalled := false;
      }
    }

    /**
     The wait of a `select`: anything may happen, until a channel is ready. The answer to mark-running may be lost on
     its way, but only a request that landed and was accepted can be answered well.
     */
    method Meanwhile(processDone: bool, pending: bool, hasDeadline: bool)
      requires Valid() && Registered(false) && (log.signalled ==> Notified()) && (log.deadlineDue ==> hasDeadline)
      modifies this`markArrived, this`markAccepted, this`committed, this`log, journal, registry
      ensures Valid() && Registered(false) && RowRely(old(Row()), Row())
      ensures Grows(old(log), log) && Ready(log, processDone, pending)
      ensures (log.signalled ==> Notified()) && (log.deadlineDue ==> hasDeadline)
      ensures log.noSignals == old(log).noSignals && log.noChild == old(log).noChild
          && log.stopFailed == old(log).stopFailed
    {
      hide R.Inv, RowRely, Grows, Ready, GoodRow, R.Apply, Arrives;
      var signal := NextNotice();
      var later := Arrivals(log, signal, markArrived && markAccepted, hasDeadline, processDone, pending);
      ArrivalsAre(log, later, signal, markArrived && markAccepted, hasDeadline, processDone, pending);
      log := later;
    }

    /** Opens the signal stream and then starts the child; either can fail. */
    method Open() returns (started: bool)
      requires Valid() && Registered(false) && OpenRow(Row()) && log == NOTHING_YET
      modifies this`markArrived, this`markAccepted, this`committed, this`log, journal, registry
      ensures Valid() && Registered(false) && RowRely(old(Row()), Row())
      ensures started ==> log == NOTHING_YET
      ensures !started ==> log == NOTHING_YET.(noSignals := true) || log == NOTHING_YET.(noChild := true)
    {
      Environment();
      var signalsOpen: bool, childStarts: bool := *, *;
      if !signalsOpen {
        log := log.(noSignals := true);
        return false;
      }
      Environment();
      if !childStarts {
        log := log.(noChild := true);
      }
      return childStarts;
    }

    /** Stops the child; when that succeeds the child has ended. */
    method Terminate() returns (ok: bool)
      requires Valid()
      modifies this`log
      ensures Valid()
      ensures if !ok then log == old(log).(stopFailed := true)
              else if old(log).child.Some? then log == old(log)
              else log.child.Some? && log == old(log).(child := log.child)
    {
      hide R.Inv, GoodRow;
      var fails: bool, exit: ProcessResult := *, *;
      if fails {
        log := log.(stopFailed := true);
        return false;
      }
      if log.child.None? {
        log := log.(child := Some(exit));
      }
      return true;
    }

    /** Last section of `Registry.Register`. */
    method BecomeReady(call: R.CallId)
      requires Valid() && Registering(call)
      modifies registry
      ensures Valid() && Registered(false)
    {
      assert R.Owns(registry.View(), registry.calls[call]);
      registry.MarkReady(call, handle);
    }

    /** The row is there; interference before and after the run becomes ready. */
    method Activate(call: R.CallId)
      requires Valid() && Registering(call) && !markSent && OpenRow(Row())
      modifies this`markArrived, this`markAccepted, this`committed, journal, registry
      ensures Valid() && Registered(false) && OpenRow(Row()) && Row().state.Starting?
    {
      hide R.Inv;
      Environment();
      BecomeReady(call);
      Environment();
    }

    /** First section of `Registry.Finish`: raise the flag. */
    method RaiseFlag() returns (call: R.CallId)
      requires Valid() && Registered(false)
      modifies registry
      ensures Valid() && Registered(true) && HasCall(call)
    {
      assert Bound(registry.calls.Keys) !in registry.calls;
      call :| call !in registry.calls;
      var reply, h := registry.BeginFinish(call, runId);
    }

    /** Last section after a store error: lower the flag. */
    method LowerFlag(call: R.CallId)
      requires Valid() && Registered(true) && HasCall(call)
      modifies registry
      ensures Valid() && Registered(false)
    {
      registry.UndoFinish(call, handle);
    }

    /** Last section after the row was closed: drop the record. */
    method DropRun(call: R.CallId)
      requires Valid() && Registered(true) && HasCall(call)
      modifies registry
      ensures Valid() && Dropped()
    {
      assert R.MapInv(registry.View());
      registry.CommitFinish(call, runId, handle);
    }

    method StoreResult(result: ExecutionResult) returns (outcome: Outcome)
      requires Valid() && !Closed(Row()) && result.runId == runId
      modifies journal
      ensures Valid()
      ensures CheckResult(result).Done? && Finished(old(Row()), result).Some?
              ==> outcome.Done? && Row() == Finished(old(Row()), result).value && Closed(Row())
      ensures CheckResult(result).Done? && Finished(old(Row()), result).None? ==> outcome.InvalidTransition?
      ensures !CheckResult(result).Done? ==> outcome == CheckResult(result)
      ensures !outcome.Done? ==> Row() == old(Row())
    {
      outcome := journal.FinishExecution(result);
    }

    /** `Registry.Finish`, with interference between its sections; `seen` is the row its UPDATE met. */
    method FinishRun(result: ExecutionResult) returns (outcome: Outcome, ghost seen: Row)
      requires Valid() && Registered(false) && !Closed(Row()) && result.runId == runId
      modifies this`markArrived, this`markAccepted, this`committed, journal, registry
      ensures Valid() && RowRely(old(Row()), seen)
      ensures CheckResult(result).Done? && Finished(seen, result).Some?
              ==> outcome.Done? && Row() == Finished(seen, result).value && Closed(Row())
      ensures CheckResult(result).Done? && Finished(seen, result).None? ==> outcome.InvalidTransition?
      ensures !CheckResult(result).Done? ==> outcome == CheckResult(result)
      ensures outcome.Done? ==> Dropped()
      ensures !outcome.Done? ==> Registered(false) && RowRely(seen, Row())
    {
      hide R.Inv, R.Gone, Finished;
      var call := RaiseFlag();
      Environment();
      seen := Row();
      outcome := StoreResult(result);
      Environment();
      if outcome.Done? {
        DropRun(call);
      } else {
        LowerFlag(call);
      }
    }

    /** A read of the durable row, with interference before and after it. */
    method ReadExecution() returns (row: Row)
      requires Valid() && Registered(false) && OpenRow(Row())
      modifies this`markArrived, this`markAccepted, this`committed, journal, registry
      ensures Valid() && Registered(false)
      ensures Progresses(old(Row()), row) && Progresses(row, Row())
    {
      Environment();
      row := journal.rows[runId];
      Environment();
    }

    /** One `registry.Finish` for the report `input`, stored as `state`. */
    method Store(input: FinishRequest, state: State) returns (outcome: Outcome)
      requires Valid() && Registered(false) && OpenRow(Row()) && RunnerTerminalState(input.state)
      requires state == input.state || (Row().state.Blocked? && BlockedFinishState(input) == Some(state))
      modifies this`markArrived, this`markAccepted, this`committed, journal, registry
      ensures Valid() && !outcome.RunExists? && !outcome.PolicyBlockRecorded?
      ensures outcome.Done? ==> ClosedBy(Row(), input) && KeepsPolicy(old(Row()), Row()) && Dropped()
      ensures !outcome.Done? ==> Registered(false) && Progresses(old(Row()), Row())
      ensures Fits(input, state) ==> (outcome.Rejected? <==> input.code != "" && !NormalizedCode(input.code))
      ensures SurelyStored(old(Row()), input, state) ==> outcome.Done?
      ensures PlainReport(old(Row()), input, state) ==>
          outcome.Done? || (outcome.InvalidTransition? && Row().state.Blocked?)
    {
      hide R.Inv, R.Gone, RowRely, SurelyStored, PlainReport, ClosedBy, Finished, CheckResult, Progresses;
      var now: Time := *;
      ghost var before := Row();
      var result := ReportOf(runId, input, state, now);
      ghost var seen;
      outcome, seen := FinishRun(result);
      StoredReport(before, seen, input, state, result);
      if Fits(input, state) {
        RejectedExactlyWhen(input, state, result);
      }
      if !outcome.Done? {
        RelyProgresses(before, seen, Row());
      }
    }

    /** The handler's second look at the row after the first attempt lost a race. */
    method RetryIfBlocked(input: FinishRequest) returns (status: int)
      requires Valid() && Registered(false) && OpenRow(Row()) && RunnerTerminalState(input.state)
      modifies this`markArrived, this`markAccepted, this`committed, journal, registry
      ensures Valid()
      ensures status == 200 ==> ClosedBy(Row(), input) && KeepsPolicy(old(Row()), Row()) && Dropped()
      ensures status != 200 ==> Registered(false) && Progresses(old(Row()), Row())
      ensures status == 200 || status == 400 || status == 409 || status == 500
      ensures status == 500 ==> input.code != "" && !NormalizedCode(input.code)
      ensures old(Row()).state.Blocked? && BlockedFinishState(input).None? ==> status == 400
      ensures old(Row()).state.Blocked? && BlockedFinishState(input).Some? && input.code == "" ==> status == 200
    {
      var current := ReadExecution();
      if !current.state.Blocked? {
        return 409;
      }
      if BlockedFinishState(input).None? {
        return 400;
      }
      var outcome := Store(input, BlockedFinishState(input).value);
      if !outcome.Done? {
        return if outcome.InvalidTransition? then 409 else 500;
      }
      Environment();
      return 200;
    }

    /** `HTTPHandler.Finish`; 200 is the only reply that means the row is closed. */
    method Finish(input: FinishRequest) returns (status: int)
      requires Valid() && Registered(false) && OpenRow(Row())
      modifies this`markArrived, this`markAccepted, this`committed, journal, registry
      ensures Valid()
      ensures status == 200 ==> ClosedBy(Row(), input) && KeepsPolicy(old(Row()), Row()) && Dropped()
      ensures status != 200 ==> Registered(false) && Progresses(old(Row()), Row())
      ensures status == 200 || status == 400 || status == 409 || status == 500
      ensures Malformed(input) ==> status == 400
      ensures status == 500 ==> input.termination.NotStopped? && input.code != "" && !NormalizedCode(input.code)
      ensures input.state.TerminationFailed? || (PlainTerminal(input.state) && old(Row()).state.Blocked?) ==>
                (input.termination.NotStopped? && input.code != "" && !NormalizedCode(input.code) ==> status == 500)
      ensures StoppedReport(input) && (input.state.Failed? || !old(Row()).state.Starting?) ==> status == 200
      ensures StopFailedReport(input) ==> status == 200
      ensures NaturalReport(input) && (input.state.Failed? || !old(Row()).state.Starting?)
              ==> status == 200 || (status == 400 && Row().state.Blocked?)
    {
      hide R.Inv;
      var before := ReadExecution();
      FirstStateExactlyWhen(before, input);
      if FirstState(before, input).None? {
        return 400;
      }
      var outcome := Store(input, FirstState(before, input).value);
      if outcome.InvalidTransition? && !before.state.Blocked? {
        status := RetryIfBlocked(input);
        return;
      }
      if !outcome.Done? {
        return if outcome.InvalidTransition? then 409 else 500;
      }
      Environment();
      return 200;
    }
  }

  /** `loop` is what the event loop settled on; `None` for a run whose signals or child could not be opened. */
  datatype Report = Report(loop: Option<Loop>, cause: Option<FinishRequest>, status: int, requests: nat)

  function ControlLossState(markPending: bool): State {
    if markPending then Failed else GatewayFailed
  }

  function ExitState(result: ProcessResult): State {
    if result.exitCode == 0 && !result.failed then Completed else Failed
  }

  const WELL := ProcessResult(0, false)

  const PROCESS_CODE := "process_termination_failed"

  /**
   What the event loop knows: a final state once it has one, and what it received from the two one-shot channels, the
   child's exit and the answer to mark-running.
   */
  datatype Loop = Loop(state: Option<State>, exitCode: int, stopReason: string, pending: bool, markFailed: bool,
                       processDone: bool)

  function Settled(loop: Loop): FinishRequest
    requires loop.state.Some?
  {
    FinishRequest(loop.state.value, loop.exitCode, loop.stopReason, NotRequired, "")
  }

  /**
   The state of a run follows from what happened to it: each stop reason names something that did happen, and decides
   the state together with whether the run was ever marked running; without one the child's own exit does.
   */
  ghost predicate Settles(loop: Loop, log: Log)
    requires loop.state.Some?
  {
    var state, unmarked := loop.state.value, loop.pending || loop.markFailed;
    if loop.stopReason == "" then
      && loop.processDone && !unmarked && log.child.Some?
      && loop.exitCode == log.child.value.exitCode
      && state == (if log.child.value == WELL then Completed else Failed)
    else
      && loop.exitCode == -1
      && if loop.stopReason == "policy_block" then log.signalled && state.Failed?
         else if loop.stopReason == "signal_lost" then
           log.streamLost && !loop.markFailed && state == (if loop.pending then Failed else GatewayFailed)
         else if loop.stopReason == "deadline" then log.deadlineDue && state == (if unmarked then Failed else Deadline)
         else if loop.stopReason == "interrupted" then
           log.cancelled && state == (if unmarked then Failed else Interrupted)
         else
           && loop.stopReason == "control_unavailable" && state.Failed?
           && loop.markFailed && !log.cancelled && !log.deadlineDue
  }

  /** What the loop received did come, and a state it has is one that follows. */
  ghost predicate GoodLoop(loop: Loop, log: Log) {
    && (loop.markFailed ==> !loop.pending) && (loop.processDone ==> log.child.Some?)
    && (!loop.pending ==> log.answer == if loop.markFailed then Refused else Accepted)
    && (loop.state.None? ==>
          loop.exitCode == -1 && loop.stopReason == "" && !loop.markFailed && (loop.processDone ==> loop.pending))
    && (loop.state.Some? ==> Settles(loop, log))
  }

  lemma GrowingKeepsLoop(loop: Loop, a: Log, b: Log)
    requires GoodLoop(loop, a) && Grows(a, b)
    requires loop.state.None? || b == a.(child := b.child, stopFailed := b.stopFailed)
    ensures GoodLoop(loop, b)
  {
  }

  /**
   One turn of the runner's `select`, which is the nondeterministic `if`: an arm can be taken when its channel is ready.
   */
  method Select(loop: Loop, log: Log) returns (next: Loop)
    requires GoodLoop(loop, log) && loop.state.None? && Ready(log, loop.processDone, loop.pending)
    ensures GoodLoop(next, log)
    ensures (next.pending ==> loop.pending) && (loop.processDone ==> next.processDone)
    ensures next.state.None? || !next.state.value.Failed? ==> !next.markFailed
    ensures next.state.Some? && !next.state.value.Failed? ==> !next.pending
    ensures next.state.None? ==> || (next.processDone && !loop.processDone && next.pending == loop.pending)
                                 || (next.processDone == loop.processDone && loop.pending && !next.pending)
  {
    next := loop;
    if
    case !loop.processDone && log.child.Some? =>             // done
      next := next.(processDone := true);
      if !loop.pending {
        next := next.(exitCode := log.child.value.exitCode, state := Some(ExitState(log.child.value)));
      }
    case log.signalled =>                                    // signals: a circuit break
      next := next.(state := Some(Failed), stopReason := "policy_block");
    case log.streamLost =>                                   // signals: closed, or anything else
      next := next.(state := Some(ControlLossState(loop.pending)), stopReason := "signal_lost");
    case log.streamLost =>                                   // signalFailures
      next := next.(state := Some(ControlLossState(loop.pending)), stopReason := "signal_lost");
    case log.deadlineDue =>
      next := next.(state := Some(if loop.pending then Failed else Deadline), stopReason := "deadline");
    case log.cancelled =>
      next := next.(state := Some(if loop.pending then Failed else Interrupted), stopReason := "interrupted");
    case loop.pending && !log.answer.Awaited? =>             // markResult
      next := next.(pending := false);
      if log.answer.Refused? {
        next := next.(markFailed := true, state := Some(Failed), stopReason := "control_unavailable");
        if log.cancelled {
          next := next.(stopReason := "interrupted");
        }
        if log.deadlineDue {
          next := next.(stopReason := "deadline");
        }
      } else if loop.processDone {
        next := next.(exitCode := log.child.value.exitCode, state := Some(ExitState(log.child.value)));
      }
  }

  /** The event loop of the runner; a state that needs the row running is settled only once it is past starting. */
  method EventLoop(core: Core, hasDeadline: bool) returns (loop: Loop)
    requires core.Valid() && core.Registered(false) && core.markSent && OpenRow(core.Row()) && core.log == NOTHING_YET
    modifies core`markArrived, core`markAccepted, core`committed, core`log, core.journal, core.registry
    ensures core.Valid() && core.Registered(false) && OpenRow(core.Row())
    ensures GoodLoop(loop, core.log) && loop.state.Some? && Quiet(core.log)
    ensures !loop.state.value.Failed? ==> !core.Row().state.Starting?
    ensures (core.log.signalled ==> core.Notified()) && (core.log.deadlineDue ==> hasDeadline)
  {
    hide Settles, R.Inv, Grows;
    loop := Loop(None, -1, "", true, false, false);
    while loop.state.None?
      invariant core.Valid() && core.Registered(false) && OpenRow(core.Row())
      invariant GoodLoop(loop, core.log) && Quiet(core.log)
      invariant (core.log.signalled ==> core.Notified()) && (core.log.deadlineDue ==> hasDeadline)
      invariant loop.state.Some? && !loop.state.value.Failed? ==> !loop.pending && !loop.markFailed
      decreases if loop.state.None? then 1 else 0, if loop.processDone then 0 else 1, if loop.pending then 1 else 0
    {
      ghost var before := core.log;
      core.Meanwhile(loop.processDone, loop.pending, hasDeadline);
      GrowingKeepsLoop(loop, before, core.log);
      loop := Select(loop, core.log);
    }
  }

  /** Everything opened, and nobody tried to stop the child. */
  predicate Quiet(log: Log) { !log.noSignals && !log.noChild && !log.stopFailed }

  /** The last report, as the source builds it from what the event loop settled on. */
  ghost predicate Reports(loop: Option<Loop>, log: Log, cause: FinishRequest, requests: nat) {
    match loop
    case None =>
      && requests == 1 && cause == FinishRequest(Failed, -1, cause.stopReason, NotRequired, "")
      && !log.stopFailed && ((cause.stopReason == "signal_unavailable" && log.noSignals)
                             || (cause.stopReason == "start_failed" && log.noChild))
    case Some(l) =>
      && l.state.Some? && GoodLoop(l, log) && !log.noSignals && !log.noChild
      && var settled := Settled(l);
         if l.stopReason == "" then
           requests <= 2 && !log.stopFailed && cause == if requests == 1 then settled
               else settled.(termination := Succeeded, stopReason := "policy_block")
         else
           requests == 1 && Stopped(settled, log, cause)
  }

  /** A run with a stop reason: its child exited before or was stopped, or could not be stopped. */
  ghost predicate Stopped(settled: FinishRequest, log: Log, cause: FinishRequest) {
    if log.stopFailed then
      cause == settled.(state := TerminationFailed, termination := NotStopped, code := PROCESS_CODE)
    else
      log.child.Some? && cause == settled.(termination := Succeeded, exitCode := log.child.value.exitCode)
  }

  /** Nothing came from outside but a child that started and the answer that the run is marked running. */
  predicate Undisturbed(log: Log) {
    Quiet(log) && !log.signalled && !log.streamLost && !log.cancelled && !log.deadlineDue && !log.answer.Refused?
  }

  /** What a stop reason names did happen; without one it was the child's exit. */
  predicate ReasonHappened(reason: string, log: Log) {
    if reason == "" then log.child.Some?
    else if reason == "policy_block" then log.signalled
    else if reason == "signal_lost" then log.streamLost
    else if reason == "deadline" then log.deadlineDue
    else if reason == "interrupted" then log.cancelled
    else if reason == "control_unavailable" then log.answer.Refused? && !log.cancelled && !log.deadlineDue
    else if reason == "signal_unavailable" then log.noSignals
    else reason == "start_failed" && log.noChild
  }

  /** What the row of a run that was not blocked tells about what happened to the run. */
  ghost predicate TellsWhatHappened(row: Row, log: Log) {
    && ReasonHappened(row.stopReason, log)
    && (if Quiet(log) then log.child.Some? && row.exitCode == Some(log.child.value.exitCode)
        else row.exitCode == Some(-1))
    && match row.state
       case Completed => row.stopReason == "" && log.child == Some(WELL) && log.answer.Accepted? && Quiet(log)
       case Deadline => row.stopReason == "deadline" && log.answer.Accepted? && Quiet(log)
       case Interrupted => row.stopReason == "interrupted" && log.answer.Accepted? && Quiet(log)
       case GatewayFailed => row.stopReason == "signal_lost" && log.answer.Accepted? && Quiet(log)
       case Failed => !log.stopFailed && (row.stopReason != "" || log.child.value != WELL)
       case TerminationFailed =>
         log.stopFailed && row.stopReason != "" && row.code == "process_termination_failed"
       case _ => false
  }

  /**
   The state of a row that was not blocked, from its stop reason and from whether the runner had its answer to
   mark-running by then: a run that was marked ends as what ended it, and one that was not as failed.
   */
  ghost predicate StateFollows(row: Row, loop: Option<Loop>, log: Log) {
    var marked := loop.Some? && !loop.value.pending && log.answer.Accepted?;
    row.state ==
      if log.stopFailed then TerminationFailed
      else if row.stopReason == "" then if log.child == Some(WELL) then Completed else Failed
      else if !marked then Failed
      else if row.stopReason == "signal_lost" then GatewayFailed
      else if row.stopReason == "deadline" then Deadline
      else if row.stopReason == "interrupted" then Interrupted
      else Failed
  }

  /** A run is completed only if its child ended well, and whenever it did and nothing disturbed the run. */
  lemma ExitOfUndisturbedRun(row: Row, log: Log)
    requires TellsWhatHappened(row, log)
    ensures Undisturbed(log) ==> (row.state.Completed? <==> log.child == Some(WELL))
    ensures row.state.Completed? ==> log.child == Some(WELL) && log.answer.Accepted? && row.exitCode == Some(0)
  {
  }

  /** The child exited by itself, with code zero, while the run was marked running and nothing else had ended it. */
  ghost predicate EndedWell(loop: Option<Loop>, log: Log) {
    loop.Some? && loop.value.stopReason == "" && log.child == Some(WELL)
  }

  /** The last report of a run that was not blocked tells what happened. */
  lemma EndStates(row: Row, loop: Option<Loop>, log: Log, cause: FinishRequest, requests: nat)
    requires GoodRow(row) && ClosedBy(row, cause) && Reports(loop, log, cause, requests)
    requires row.policy.None? && requests == 1
    ensures TellsWhatHappened(row, log) && StateFollows(row, loop, log)
    ensures row.state.Completed? <==> EndedWell(loop, log)
  {
  }

  /**
   The row a finished run must have: closed by its last report, which tells what happened, and true to the block that
   committed, if one did. The run's token resolves to nothing any more and its signal stream is closed.
   */
  ghost predicate EndedBy(core: Core, report: Report)
    requires core.Valid()
    reads core, core.journal, core.registry
  {
    && Closed(core.Row()) && report.status == 200 && 1 <= report.requests <= 2
    && report.cause.Some? && ClosedBy(core.Row(), report.cause.value)
        && Reports(report.loop, core.log, report.cause.value, report.requests)
    && core.Row().policy == core.committed
    && (report.requests == 2 ==> core.committed.Some?)
    && (core.committed.Some? ==> || (core.Row().state.Blocked? && core.Row().termination == Some(Succeeded))
                                 || (core.Row().state.TerminationFailed? && core.Row().termination == Some(NotStopped)))
    && (core.committed.None? ==>
          TellsWhatHappened(core.Row(), core.log) && StateFollows(core.Row(), report.loop, core.log)
          && (core.Row().state.Completed? <==> EndedWell(report.loop, core.log)))
    && core.Dropped() && forall id :: !R.Resolves(core.registry.View(), core.runToken, id)
  }

  /** The signal stream or the child could not be started: one report, before anything could mark the run. */
  method FinishUnstarted(core: Core, reason: string) returns (report: Report)
    requires core.Valid() && core.Registered(false) && OpenRow(core.Row()) && !core.markSent
    requires (reason == "signal_unavailable" && core.log.noSignals) || (reason == "start_failed" && core.log.noChild)
    requires !core.log.stopFailed
    modifies core`markArrived, core`markAccepted, core`committed, core.journal, core.registry
    ensures core.Valid() && EndedBy(core, report) && report.requests == 1 && report.loop == None
  {
    var input := FinishRequest(Failed, -1, reason, NotRequired, "");
    var status := core.Finish(input);
    R.GoneIsRevoked(core.registry.View(), core.handle, core.runToken);
    EndOfRow(core.Row(), None, core.log, input, 1);
    return Report(None, Some(input), status, 1);
  }

  lemma ProcessCodeIsNormalized()
    ensures NormalizedCode(PROCESS_CODE)
  {
  }

  /** The report, and the one retry after a 400: the row was blocked before the runner saw its child's own exit. */
  method ReportEnd(core: Core, cause: FinishRequest, processDone: bool)
      returns (last: FinishRequest, status: int, requests: nat)
    requires core.Valid() && core.Registered(false) && OpenRow(core.Row())
    requires StoppedReport(cause) || StopFailedReport(cause) || (NaturalReport(cause) && processDone)
    requires cause.state.Failed? || cause.state.TerminationFailed? || !core.Row().state.Starting?
    modifies core`markArrived, core`markAccepted, core`committed, core.journal, core.registry
    ensures core.Valid() && status == 200 && 1 <= requests <= 2 && ClosedBy(core.Row(), last) && core.Dropped()
    ensures requests == 1 ==> last == cause
    ensures requests == 2 ==> NaturalReport(cause) && core.committed.Some?
    ensures requests == 2 ==> last == cause.(termination := Succeeded, stopReason := "policy_block")
  {
    last, requests := cause, 1;
    status := core.Finish(last);
    if status != 200 && last.termination.NotRequired? && processDone {
      if status == 400 {
        last := last.(termination := Succeeded, stopReason := "policy_block");
        status := core.Finish(last);
        requests := 2;
      }
    }
  }

  /** The child is terminated unless it already exited; a child that could not be stopped is its own kind of end. */
  method StopChild(core: Core, loop: Loop) returns (cause: FinishRequest)
    requires core.Valid() && loop.state.Some? && GoodLoop(loop, core.log) && Quiet(core.log)
    modifies core`log
    ensures core.Valid() && GoodLoop(loop, core.log) && Stopped(Settled(loop), core.log, cause)
    ensures core.log == old(core.log).(child := core.log.child, stopFailed := core.log.stopFailed)
    ensures Grows(old(core.log), core.log)
  {
    hide Settles;
    var settled := Settled(loop);
    var stopped := true;
    ghost var before := core.log;
    if !loop.processDone {
      stopped := core.Terminate();
    }
    assert Grows(before, core.log);
    GrowingKeepsLoop(loop, before, core.log);
    if !stopped {
      return settled.(state := TerminationFailed, termination := NotStopped, code := PROCESS_CODE);
    }
    return settled.(termination := Succeeded, exitCode := core.log.child.value.exitCode);
  }

  /** The three kinds of report, and the state they need the row to have left. */
  lemma ReportKinds(loop: Loop, log: Log, cause: FinishRequest)
    requires loop.state.Some? && GoodLoop(loop, log)
    requires if loop.stopReason == "" then cause == Settled(loop) else Stopped(Settled(loop), log, cause)
    ensures StoppedReport(cause) || StopFailedReport(cause)
        || (NaturalReport(cause) && loop.processDone && loop.stopReason == "")
    ensures cause.state == loop.state.value || cause.state.TerminationFailed?
  {
    ProcessCodeIsNormalized();
  }

  /** From the child's start to the end of the run. */
  method SuperviseStarted(core: Core, hasDeadline: bool) returns (report: Report)
    requires core.Valid() && core.Registered(false) && OpenRow(core.Row()) && core.markSent && core.log == NOTHING_YET
    modifies core`markArrived, core`markAccepted, core`committed, core`log, core.journal, core.registry
    ensures core.Valid() && EndedBy(core, report) && (core.log.deadlineDue ==> hasDeadline)
  {
    hide R.Inv, StoppedReport, StopFailedReport, NaturalReport, R.Resolves, ClosedBy, GoodLoop, TellsWhatHappened,
        Stopped, EndedWell, Grows, GoodRow, RowRely, StateFollows, Reports, OpenRow;
    var loop := EventLoop(core, hasDeadline);
    var cause := Settled(loop);
    if cause.stopReason != "" {
      cause := StopChild(core, loop);
    }
    ReportKinds(loop, core.log, cause);
    var last, status, requests := ReportEnd(core, cause, loop.processDone);
    ReportIsOneOf(loop, core.log, cause, last, requests);
    EndOfRow(core.Row(), Some(loop), core.log, last, requests);
    R.GoneIsRevoked(core.registry.View(), core.handle, core.runToken);
    report := Report(Some(loop), Some(last), status, requests);
  }

  lemma ReportIsOneOf(loop: Loop, log: Log, cause: FinishRequest, last: FinishRequest, requests: nat)
    requires loop.state.Some? && GoodLoop(loop, log) && 1 <= requests <= 2 && !log.noSignals && !log.noChild
    requires if loop.stopReason == "" then cause == Settled(loop) && !log.stopFailed
             else Stopped(Settled(loop), log, cause)
    requires requests == 1 ==> last == cause
    requires requests == 2 ==>
        NaturalReport(cause) && last == cause.(termination := Succeeded, stopReason := "policy_block")
    ensures Reports(Some(loop), log, last, requests)
  {
  }

  lemma EndOfRow(row: Row, loop: Option<Loop>, log: Log, last: FinishRequest, requests: nat)
    requires GoodRow(row) && ClosedBy(row, last) && Reports(loop, log, last, requests)
    requires requests == 1 || row.policy.Some?
    ensures Closed(row)
    ensures row.policy.None? ==> TellsWhatHappened(row, log) && StateFollows(row, loop, log)
    ensures row.policy.None? ==> (row.state.Completed? <==> EndedWell(loop, log))
    ensures row.policy.Some? ==> || (row.state.Blocked? && row.termination == Some(Succeeded))
                                 || (row.state.TerminationFailed? && row.termination == Some(NotStopped))
  {
    hide Reports, TellsWhatHappened, EndedWell, StateFollows;
    if row.policy.None? {
      EndStates(row, loop, log, last, requests);
    }
  }

  /**
   One supervised run after its registration. Whatever the child, the clock, the caller, the signal stream, the
   mark-running request, the gateway's policy blocks and the rest of the process do in between, the row ends closed
   after at most two Finish requests, and the run's token is revoked. A block that committed keeps its policy and ends
   as blocked with the process stopped, or as termination_failed; without one the row tells what happened to the run: it
   is completed only if the child ended well, and whenever it did and nothing disturbed the run.
   */
  method Supervise(core: Core, hasDeadline: bool) returns (report: Report)
    requires core.Valid() && core.Registered(false) && OpenRow(core.Row()) && !core.markSent && core.log == NOTHING_YET
    modifies core, core.journal, core.registry
    ensures core.Valid() && EndedBy(core, report) && (core.log.deadlineDue ==> hasDeadline)
    ensures core.Row().state.Completed? <==> core.committed.None? && EndedWell(report.loop, core.log)
    ensures core.committed.None? && Undisturbed(core.log) ==>
        (core.Row().state.Completed? <==> core.log.child == Some(WELL))
    ensures core.Row().state.Completed? ==> core.Row().exitCode == Some(0)
  {
    hide Reports, ClosedBy, R.Inv, R.Resolves, TellsWhatHappened, EndedWell, StateFollows;
    var started := core.Open();
    if !started {
      report := FinishUnstarted(core, if core.log.noSignals then "signal_unavailable" else "start_failed");
    } else {
      core.markSent := true;
      report := SuperviseStarted(core, hasDeadline);
    }
    if core.committed.None? {
      ExitOfUndisturbedRun(core.Row(), core.log);
    }
  }

  /** Any one transaction. */
  method Transact(journal: Journal, op: Op)
    modifies journal
    ensures journal.View() == Apply(old(journal.View()), op).0
  {
    match op
    case Start(id, at) => var _ := journal.StartExecution(id, at);
    case Mark(id) => var _ := journal.MarkExecutionRunning(id);
    case Block(notice) => var _ := journal.BlockExecution(notice);
    case RecordBlock(event, notice) => var _ := journal.RecordPolicyBlock(event, notice);
    case Finish(result) => var _ := journal.FinishExecution(result);
    case Recover(at) => var _ := journal.RecoverExecutions(at);
    case Append(event) => var _ := journal.AppendEvent(event);
  }

  /** Any sections of others in the registry. */
  method OtherSections(registry: R.Registry, call: R.CallId, handle: R.Handle)
    requires R.Inv(registry.View()) && call in registry.calls && handle in registry.records
    modifies registry
    ensures R.Inv(registry.View()) && call in registry.calls && registry.calls[call] == old(registry.calls[call])
    ensures handle in registry.records && registry.records[handle].runToken == old(registry.records[handle].runToken)
  {
    hide R.Inv, R.Apply;
    var steps: nat := *;
    while 0 < steps
      invariant R.Inv(registry.View()) && call in registry.calls && registry.calls[call] == old(registry.calls[call])
      invariant handle in registry.records
          && registry.records[handle].runToken == old(registry.records[handle].runToken)
    {
      var step: R.Step := *;
      if R.Possible(registry.View(), step) && (R.EndsCall(step) ==> step.call != call) {
        R.OtherCallsLeaveCall(registry.View(), step, call);
        R.GoneForGood(registry.View(), step, handle);
        registry.Perform(step);
      }
      steps := steps - 1;
    }
  }

  /** Interference with a registration before its row exists: these transactions, and any sections but its own. */
  method Interfere(journal: Journal, registry: R.Registry, call: R.CallId, handle: R.Handle, ops: seq<Op>)
    requires R.Inv(registry.View()) && call in registry.calls && handle in registry.records
    modifies journal, registry
    ensures R.Inv(registry.View()) && call in registry.calls && registry.calls[call] == old(registry.calls[call])
    ensures handle in registry.records && registry.records[handle].runToken == old(registry.records[handle].runToken)
    ensures journal.View() == Run(old(journal.View()), ops)
  {
    hide R.Inv, Apply;
    OtherSections(registry, call, handle);
    assert ops[0..] == ops;
    for i := 0 to |ops|
      invariant R.Inv(registry.View()) && call in registry.calls && registry.calls[call] == old(registry.calls[call])
      invariant handle in registry.records
          && registry.records[handle].runToken == old(registry.records[handle].runToken)
      invariant Run(journal.View(), ops[i..]) == Run(old(journal.View()), ops)
    {
      assert ops[i..][0] == ops[i] && ops[i..][1..] == ops[i + 1..];
      Transact(journal, ops[i]);
      OtherSections(registry, call, handle);
    }
    assert ops[|ops|..] == [];
  }

  /** No transaction removes a row. */
  lemma {:induction false} RowsStay(t: Tables, ops: seq<Op>)
    ensures t.rows.Keys <= Run(t, ops).rows.Keys
    decreases |ops|
  {
    if ops == [] {
    } else {
      RowsStay(Apply(t, ops[0]).0, ops[1..]);
    }
  }

  /** No mapped record was issued this token, so nothing resolves it. */
  ghost predicate Unissued(registry: R.Registry, runToken: string)
    reads registry
  {
    forall id :: R.Lookup(registry.View(), id).Some? ==>
        R.Lookup(registry.View(), id).value.runToken != Sha256(runToken)
  }

  /** What a registration draws at random: the bytes of an id, and two tokens. */
  datatype Draws = Draws(idBytes: seq<RunIds.Byte>, runToken: string, signalToken: string)

  /** The id that is registered for a request; an empty request is given a new one. */
  function RegisteredId(request: string, draws: Draws): string {
    if request == "" then RunIds.GeneratedId(draws.idBytes) else request
  }

  ghost predicate FreshDraws(registry: R.Registry, draws: Draws)
    reads registry
  {
    |draws.idBytes| == 16 && R.FreshTokens(registry.View(), draws.runToken, draws.signalToken)
  }

  /** The draws succeed, the id is valid and not active, and it has no row when the store is reached. */
  ghost predicate Registrable(registry: R.Registry, tables: Tables, request: string, draws: Option<Draws>)
    reads registry
  {
    && draws.Some?
    && var runId := RegisteredId(request, draws.value);
       R.ValidRunId(runId) && runId !in registry.runs && runId !in tables.rows
  }

  /**
   `Registry.Register`, with interference between its sections; `before` is what others do to the tables before the
   store is reached, and `draws` is `None` when the random source fails. The run is registered with a new row that is
   starting, and its token resolves to it; or the call is refused and leaves no record behind. It is refused exactly if
   the draws fail or the id is invalid, active or has a row.
   */
  method Register(journal: Journal, registry: R.Registry, request: string, draws: Option<Draws>, before: seq<Op>,
                  at: Time)
    returns (core: Option<Core>)
    requires R.Inv(registry.View()) && (draws.Some? ==> FreshDraws(registry, draws.value))
    modifies journal, registry
    ensures R.Inv(registry.View())
    ensures core.Some? <==> old(Registrable(registry, Run(journal.View(), before), request, draws))
    ensures core.Some? ==>
              && fresh(core.value) && core.value.journal == journal && core.value.registry == registry
              && core.value.runId == RegisteredId(request, draws.value) && core.value.runToken == draws.value.runToken
              && core.value.Valid() && core.value.Registered(false) && !core.value.markSent
              && core.value.log == NOTHING_YET && core.value.Row().state.Starting? && OpenRow(core.value.Row())
              && R.Resolves(registry.View(), core.value.runToken, core.value.runId)
    ensures core.None? && draws.Some? ==> Unissued(registry, draws.value.runToken)
  {
    hide R.Inv;
    if draws.None? {
      return None;
    }
    var runId := RegisteredId(request, draws.value);
    var reply, call, handle := InsertRun(registry, runId, draws.value.runToken, draws.value.signalToken);
    if !reply.Okay? {
      return None;
    }
    Interfere(journal, registry, call, handle, before);
    var outcome := journal.StartExecution(runId, Some(at));
    if !outcome.Done? {
      var after: seq<Op> := *;
      Interfere(journal, registry, call, handle, after);
      Withdraw(registry, call, runId, handle, draws.value.runToken);
      return None;
    }
    var c := new Core(journal, registry, runId, handle, draws.value.runToken);
    c.Activate(call);
    return Some(c);
  }

  /** A generated id is valid, so an empty request is refused only if its id is taken or the random source fails. */
  lemma EmptyRequestIsValid(registry: R.Registry, tables: Tables, draws: Draws)
    requires |draws.idBytes| == 16
    ensures Registrable(registry, tables, "", Some(draws)) <==>
        RunIds.GeneratedId(draws.idBytes) !in registry.runs && RunIds.GeneratedId(draws.idBytes) !in tables.rows
  {
    RunIds.GeneratedIdIsValid(draws.idBytes);
  }

  /** An id that has a row is refused whatever the others do. */
  lemma KnownRunsAreRefused(registry: R.Registry, tables: Tables, before: seq<Op>, request: string, draws: Draws)
    requires RegisteredId(request, draws) in tables.rows
    ensures !Registrable(registry, Run(tables, before), request, Some(draws))
  {
    RowsStay(tables, before);
  }

  /** The section after a store error. */
  method Withdraw(registry: R.Registry, call: R.CallId, runId: string, handle: R.Handle, runToken: string)
    requires R.Inv(registry.View()) && call in registry.calls && registry.calls[call] == R.Registering(runId, handle)
    requires handle in registry.records && registry.records[handle].runToken == Sha256(runToken)
    modifies registry
    ensures R.Inv(registry.View()) && Unissued(registry, runToken)
  {
    assert R.Owns(registry.View(), registry.calls[call]);
    registry.UndoInsert(call, runId);
  }

  /** First section of `Registry.Register`, for a new call and a new record. */
  method InsertRun(registry: R.Registry, runId: string, runToken: string, signalToken: string)
    returns (reply: R.Reply, call: R.CallId, handle: R.Handle)
    requires R.Inv(registry.View()) && R.FreshTokens(registry.View(), runToken, signalToken)
    modifies registry
    ensures R.Inv(registry.View())
    ensures reply.Okay? <==> R.ValidRunId(runId) && runId !in old(registry.runs)
    ensures reply.Okay? ==> call in registry.calls && registry.calls[call] == R.Registering(runId, handle)
    ensures reply.Okay? ==> handle in registry.records && registry.records[handle].runToken == Sha256(runToken)
    ensures !reply.Okay? ==> Unissued(registry, runToken)
  {
    assert Bound(registry.calls.Keys) !in registry.calls && Bound(registry.records.Keys) !in registry.records;
    call :| call !in registry.calls;
    handle :| handle !in registry.records;
    reply := registry.InsertRun(call, runId, handle, runToken, signalToken);
  }

  /**
   A supervised run from its registration on: refused exactly if it cannot be registered, or ended; in both cases its
   token resolves to nothing.
   */
  method RegisterAndSupervise(journal: Journal, registry: R.Registry, request: string, draws: Option<Draws>,
                              before: seq<Op>, at: Time, hasDeadline: bool)
    returns (core: Option<Core>, report: Report)
    requires R.Inv(registry.View()) && (draws.Some? ==> FreshDraws(registry, draws.value))
    modifies journal, registry
    ensures core.Some? <==> old(Registrable(registry, Run(journal.View(), before), request, draws))
    ensures core.Some? ==>
              && core.value.journal == journal && core.value.registry == registry
              && core.value.runId == RegisteredId(request, draws.value) && core.value.runToken == draws.value.runToken
    ensures core.Some? ==> core.value.Valid() && EndedBy(core.value, report)
    ensures core.Some? ==>
        (core.value.Row().state.Completed? <==>
         core.value.committed.None? && EndedWell(report.loop, core.value.log))
    ensures core.Some? && core.value.committed.None? && Undisturbed(core.value.log) ==>
        (core.value.Row().state.Completed? <==> core.value.log.child == Some(WELL))
    ensures core.None? ==> report.requests == 0
    ensures draws.Some? ==> forall id :: !R.Resolves(registry.View(), draws.value.runToken, id)
  {
    hide R.Inv;
    core := Register(journal, registry, request, draws, before, at);
    if core.None? {
      return core, Report(None, None, 0, 0);
    }
    report := Supervise(core.value, hasDeadline);
  }

  ghost function Bound(keys: set<nat>): (n: nat)
    ensures forall k :: k in keys ==> k < n
  {
    if keys == {} then 0
    else
      var k :| k in keys;
      assert forall j :: j in keys ==> j == k || j in keys - {k};
      var rest := Bound(keys - {k});
      if k < rest then rest else k + 1
  }
}
