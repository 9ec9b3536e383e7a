/**
 The durable row of one supervised execution and the guarded SQL updates that move it.

 Every update of the `executions` table is a function from the old row to the new one, `None` when the
 statement's WHERE clause does not match. `Journal` is the table itself, with one method per transaction.
 */
module ExecutionRows {
  import opened Wrappers
  import Ascii

  type Time = int

  datatype State =
    | Starting | Running | Completed | Failed | Blocked
    | Deadline | Interrupted | GatewayFailed | TerminationFailed
    | OtherState

  /** `NotStopped` is the status spelled "failed"; `Unset` is the empty string. */
  datatype TerminationStatus = Unset | NotRequired | Succeeded | NotStopped | OtherStatus

  datatype Notice = Notice(runId: string, policy: string, reason: string, attempt: int, threshold: int,
                           estimate: string, occurredAt: Option<Time>)

  datatype ExecutionResult = ExecutionResult(runId: string, state: State, endedAt: Option<Time>, exitCode: int,
                                             stopReason: string, termination: TerminationStatus, code: string)

  /** A NULL column is `None`, or the empty string where the reader maps NULL to it. */
  datatype Row = Row(state: State, startedAt: Time, endedAt: Option<Time>, exitCode: Option<int>, stopReason: string,
                     policy: Option<Notice>, termination: Option<TerminationStatus>, code: string)

  datatype Outcome = Done | RunExists | InvalidTransition | PolicyBlockRecorded | Rejected

  function NewRow(startedAt: Time): Row {
    Row(Starting, startedAt, None, None, "", None, None, "")
  }

  predicate Closed(row: Row) { row.endedAt.Some? }

  function Marked(row: Row): Option<Row> {
    if row.state.Starting? then Some(row.(state := Running)) else None
  }

  function BlockedBy(row: Row, notice: Notice): Option<Row> {
    if row.state.Running? then Some(row.(state := Blocked, policy := Some(notice))) else None
  }

  function Recovered(row: Row, at: Time): Row {
    if row.state.Starting? || row.state.Running? then
      row.(state := Interrupted, endedAt := Some(at), stopReason := "virgil_restart")
    else row
  }

  predicate NormalizedCode(code: string) {
    && 0 < |code| <= 64
    && 'a' <= code[0] <= 'z'
    && forall i :: 1 <= i < |code| ==> 'a' <= code[i] <= 'z' || '0' <= code[i] <= '9' || code[i] == '_'
  }

  /** A code has one to 64 lower-case letters, digits and underscores, a letter first. */
  lemma NormalizedExactlyWhen(code: string)
    ensures NormalizedCode(code) <==>
        && 0 < |code| < 65 && Ascii.Lower(code[0])
        && forall c :: c in code ==> Ascii.Lower(c) || Ascii.Digit(c) || c == '_'
  {
    assert forall i :: 0 <= i < |code| ==> code[i] in code;
  }

  predicate ValidStatus(status: TerminationStatus) { !status.OtherStatus? }

  predicate PlainTerminal(state: State) {
    state.Completed? || state.Failed? || state.Deadline? || state.Interrupted? || state.GatewayFailed?
  }

  /** The argument checks made before any SQL runs; an `InvalidTransition` for a state nobody may finish in. */
  function CheckResult(result: ExecutionResult): Outcome {
    if result.runId == "" || result.endedAt.None? || !ValidStatus(result.termination) then Rejected
    else if result.state.Blocked? then
      if result.termination.Succeeded? && result.code == "" then Done else Rejected
    else if result.state.TerminationFailed? then
      if result.termination.NotStopped? && NormalizedCode(result.code) then Done else Rejected
    else if PlainTerminal(result.state) then
      if result.termination.NotStopped? || result.code != "" then Rejected else Done
    else InvalidTransition
  }

  function NullIfUnset(status: TerminationStatus): Option<TerminationStatus> {
    if status.Unset? then None else Some(status)
  }

  /** The UPDATE that a checked result runs, with its own guard on the current row. */
  function Finished(row: Row, result: ExecutionResult): Option<Row>
    requires CheckResult(result).Done?
  {
    var closed := row.(endedAt := result.endedAt, exitCode := Some(result.exitCode), stopReason := result.stopReason);
    if result.state.Blocked? then
      if row.state.Blocked? && row.termination.None? then Some(closed.(termination := Some(Succeeded))) else None
    else if result.state.TerminationFailed? then
      if (row.state.Starting? || row.state.Blocked? || row.state.Running?) && row.termination.None? then
        Some(closed.(state := TerminationFailed, termination := Some(NotStopped), code := result.code))
      else None
    else if row.state.Running? || (result.state.Failed? && row.state.Starting?) then
      Some(closed.(state := result.state, termination := NullIfUnset(result.termination), code := result.code))
    else None
  }

  /** How far a row has moved; every successful update raises it. */
  function Rank(row: Row): nat {
    if Closed(row) then 3
    else match row.state
      case Starting => 0
      case Running => 1
      case _ => 2
  }

  ghost predicate GoodRow(row: Row) {
    && !row.state.OtherState?
    && (row.endedAt.None?
        <==> row.state.Starting? || row.state.Running? || (row.state.Blocked? && row.termination.None?))
    && (row.state.Starting? || row.state.Running? ==> row.termination.None?)
    && (row.policy.Some? ==> row.state.Blocked? || row.state.TerminationFailed?)
    && (row.state.Blocked? ==> row.policy.Some? && row.termination in {None, Some(Succeeded)})
    && (row.termination == Some(NotStopped) <==> row.state.TerminationFailed?)
    && (row.code != "" <==> row.state.TerminationFailed?)
  }

  /** Each update keeps the row well formed, raises its rank and leaves an earlier policy decision alone. */
  lemma UpdatesRaiseRank(row: Row, notice: Notice, result: ExecutionResult, at: Time)
    requires GoodRow(row)
    ensures forall next :: Marked(row) == Some(next) || BlockedBy(row, notice) == Some(next)
                           || (CheckResult(result).Done? && Finished(row, result) == Some(next))
                           || (next == Recovered(row, at) && next != row)
                           ==> GoodRow(next) && Rank(row) < Rank(next)
                               && (row.policy.Some? ==> next.policy == row.policy)
  {
  }

  // ---------------------------------------------------------------- the tables

  datatype Origin = PolicyBlockOf(runId: string) | Ordinary

  /** An event passes `acceptable` when its identity checks and redaction succeed and the journal is open. */
  datatype Event = Event(id: string, acceptable: bool)

  datatype Tables = Tables(rows: map<string, Row>, events: map<string, Origin>)

  datatype Op =
    | Start(runId: string, at: Option<Time>)
    | Mark(runId: string)
    | Block(notice: Notice)
    | RecordBlock(event: Event, notice: Notice)
    | Finish(result: ExecutionResult)
    | Recover(at: Option<Time>)
    | Append(event: Event)

  predicate BlockNotice(notice: Notice) {
    notice.runId != "" && notice.policy != "" && notice.reason != "" && notice.occurredAt.Some?
  }

  predicate NonNegative(notice: Notice) { 0 <= notice.attempt && 0 <= notice.threshold }

  function Update(t: Tables, runId: string, next: Option<Row>): (Tables, Outcome) {
    match next
    case Some(row) => (t.(rows := t.rows[runId := row]), Done)
    case None => (t, InvalidTransition)
  }

  /** One transaction on the two tables. */
  function Apply(t: Tables, op: Op): (Tables, Outcome) {
    match op
    case Start(runId, at) =>
      if runId == "" || at.None? then (t, Rejected)
      else if runId in t.rows then (t, RunExists)
      else (t.(rows := t.rows[runId := NewRow(at.value)]), Done)
    case Mark(runId) =>
      Update(t, runId, if runId in t.rows then Marked(t.rows[runId]) else None)
    case Block(notice) =>
      if !BlockNotice(notice) || !NonNegative(notice) then (t, Rejected)
      else Update(t, notice.runId, if notice.runId in t.rows then BlockedBy(t.rows[notice.runId], notice) else None)
    case RecordBlock(event, notice) =>
      if !event.acceptable || event.id == "" || !BlockNotice(notice) then (t, Rejected)
      else if notice.runId !in t.rows then (t, InvalidTransition)
      else
        var row := t.rows[notice.runId];
        (match BlockedBy(row, notice)
         case None => (t, if row.state.Blocked? then PolicyBlockRecorded else InvalidTransition)
         case Some(next) =>
           if !NonNegative(notice) || event.id in t.events then (t, Rejected)
           else (Tables(t.rows[notice.runId := next], t.events[event.id := PolicyBlockOf(notice.runId)]), Done))
    case Finish(result) =>
      var checked := CheckResult(result);
      if !checked.Done? then (t, checked)
      else Update(t, result.runId, if result.runId in t.rows then Finished(t.rows[result.runId], result) else None)
    case Recover(at) =>
      if at.None? then (t, Rejected)
      else (t.(rows := map r | r in t.rows :: Recovered(t.rows[r], at.value)), Done)
    case Append(event) =>
      if !event.acceptable || event.id == "" || event.id in t.events then (t, Rejected)
      else (t.(events := t.events[event.id := Ordinary]), Done)
  }

  ghost function Run(t: Tables, ops: seq<Op>): Tables
    decreases |ops|
  {
    if ops == [] then t else Run(Apply(t, ops[0]).0, ops[1..])
  }

  ghost predicate GoodTables(t: Tables) { forall r :: r in t.rows ==> GoodRow(t.rows[r]) }

  ghost function BlockEvents(t: Tables, runId: string): set<string> {
    set e | e in t.events && t.events[e] == PolicyBlockOf(runId)
  }

  /** What one row may become: itself, or something of a higher rank that keeps a policy already written. */
  ghost predicate Advances(before: Row, after: Row) {
    after == before || (Rank(before) < Rank(after) && (before.policy.Some? ==> after.policy == before.policy))
  }

  lemma NewRowIsGood()
    ensures forall at :: GoodRow(NewRow(at))
  {
  }

  lemma StepAdvances(t: Tables, op: Op)
    requires GoodTables(t)
    ensures var (t', outcome) := Apply(t, op);
            && GoodTables(t')
            && (forall r :: r in t.rows ==> r in t'.rows && Advances(t.rows[r], t'.rows[r]))
            && (!outcome.Done? ==> t' == t)
  {
    hide Rank, Finished, CheckResult, GoodRow;
    NewRowIsGood();
    var t' := Apply(t, op).0;
    forall r | r in t'.rows
      ensures GoodRow(t'.rows[r]) && (r in t.rows ==> Advances(t.rows[r], t'.rows[r]))
    {
      if r in t.rows {
        match op
        case Block(notice) => UpdatesRaiseRank(t.rows[r], notice, AnyResult(), 0);
        case RecordBlock(_, notice) => UpdatesRaiseRank(t.rows[r], notice, AnyResult(), 0);
        case Finish(result) => UpdatesRaiseRank(t.rows[r], AnyNotice(), result, 0);
        case Recover(at) => UpdatesRaiseRank(t.rows[r], AnyNotice(), AnyResult(), if at.Some? then at.value else 0);
        case _ => UpdatesRaiseRank(t.rows[r], AnyNotice(), AnyResult(), 0);
      }
    }
  }

  /** What a transaction that neither finishes nor recovers run `id` does to its row. */
  lemma TransactionOnRow(t: Tables, op: Op, id: string)
    requires id in t.rows && !op.Recover? && (op.Finish? ==> op.result.runId != id)
    ensures var (t', outcome) := Apply(t, op);
            && id in t'.rows
            && (t'.rows[id] != t.rows[id] ==>
                  outcome.Done? && (op == Mark(id) || ((op.Block? || op.RecordBlock?) && op.notice.runId == id)))
            && (op == Mark(id) && outcome.Done? ==> Marked(t.rows[id]) == Some(t'.rows[id]))
            && ((op.Block? || op.RecordBlock?) && op.notice.runId == id && outcome.Done?
                ==> BlockedBy(t.rows[id], op.notice) == Some(t'.rows[id]))
  {
  }

  ghost function AnyNotice(): Notice { Notice("", "", "", 0, 0, "", None) }

  ghost function AnyResult(): ExecutionResult { ExecutionResult("", OtherState, None, 0, "", Unset, "") }

  /**
   Over any run of transactions from good tables: rows never disappear, a closed row never changes again, the first
   policy decision is never overwritten, and every row stays well formed (so a policy appears only on blocked or
   termination_failed rows and the "failed" termination exactly on termination_failed ones).
   */
  lemma {:induction false} RowsOnlyAdvance(t: Tables, ops: seq<Op>)
    requires GoodTables(t)
    ensures GoodTables(Run(t, ops))
    ensures forall r :: r in t.rows ==> r in Run(t, ops).rows && Advances(t.rows[r], Run(t, ops).rows[r])
    ensures forall r :: r in t.rows && Closed(t.rows[r]) ==> r in Run(t, ops).rows && Run(t, ops).rows[r] == t.rows[r]
    decreases |ops|
  {
    if ops == [] {
    } else {
      StepAdvances(t, ops[0]);
      RowsOnlyAdvance(Apply(t, ops[0]).0, ops[1..]);
    }
  }

  // ---------------------------------------------------------------- which updates happen

  /** Only the row of this run changes, from `before` to `after`. */
  ghost predicate Moves(t: Tables, t': Tables, runId: string, before: Row, after: Row) {
    runId in t.rows && t.rows[runId] == before && t' == t.(rows := t.rows[runId := after])
  }

  /** A run is started exactly if it has an id, a time and no row; its row is then starting, open and not blocked. */
  lemma StartedExactlyWhen(t: Tables, runId: string, at: Option<Time>)
    ensures var (t', outcome) := Apply(t, Start(runId, at));
            && (outcome.Done? <==> runId != "" && at.Some? && runId !in t.rows)
            && (outcome.RunExists? <==> runId != "" && at.Some? && runId in t.rows)
            && (outcome.Done? ==>
                  && t'.rows.Keys == t.rows.Keys + {runId} && t'.events == t.events
                  && (forall r :: r in t.rows ==> t'.rows[r] == t.rows[r])
                  && t'.rows[runId] == Row(Starting, at.value, None, None, "", None, None, ""))
  {
  }

  /** A row is marked running exactly if it is starting, and nothing else about it changes. */
  lemma MarkedExactlyWhen(t: Tables, runId: string)
    ensures var (t', outcome) := Apply(t, Mark(runId));
            && (outcome.Done? <==> runId in t.rows && t.rows[runId].state == Starting)
            && (outcome.Done? ==> Moves(t, t', runId, t.rows[runId], t.rows[runId].(state := Running)))
            && (!outcome.Done? ==> outcome == InvalidTransition)
  {
  }

  /** A block is stored exactly if its notice is complete and its row is running; the row then carries it. */
  lemma BlockedExactlyWhen(t: Tables, notice: Notice)
    ensures var (t', outcome) := Apply(t, Block(notice));
            && (outcome.Rejected? <==>
                || notice.runId == "" || notice.policy == "" || notice.reason == "" || notice.occurredAt == None
                || notice.attempt < 0 || notice.threshold < 0)
            && (outcome.Done? <==>
                  !outcome.Rejected? && notice.runId in t.rows && t.rows[notice.runId].state == Running)
            && (outcome.Done? ==>
                  Moves(t, t', notice.runId, t.rows[notice.runId],
                        t.rows[notice.runId].(state := Blocked, policy := Some(notice))))
            && (!outcome.Rejected? && !outcome.Done? ==> outcome == InvalidTransition)
  {
  }

  /**
   Recording a block with its event: when event and notice are complete, the row decides. A running row takes the block
   with the event, if that is new; a blocked row is told apart from one that cannot be blocked.
   */
  lemma RecordedExactlyWhen(t: Tables, event: Event, notice: Notice)
    requires event.acceptable && event.id != "" && notice.occurredAt.Some? && 0 <= notice.attempt
        && 0 <= notice.threshold
    requires notice.runId != "" && notice.policy != "" && notice.reason != ""
    ensures var (t', outcome) := Apply(t, RecordBlock(event, notice));
            var state := if notice.runId in t.rows then Some(t.rows[notice.runId].state) else None;
            && (outcome == PolicyBlockRecorded <==> state == Some(Blocked))
            && (outcome == InvalidTransition <==> state != Some(Blocked) && state != Some(Running))
            && (outcome == Rejected <==> state == Some(Running) && event.id in t.events)
            && (outcome == Done <==> state == Some(Running) && event.id !in t.events)
            && (outcome == Done ==>
                  && t'.events == t.events[event.id := PolicyBlockOf(notice.runId)]
                  && Moves(t, t'.(events := t.events), notice.runId, t.rows[notice.runId],
                           t.rows[notice.runId].(state := Blocked, policy := Some(notice))))
  {
  }

  /** An event or a notice with something missing is refused before the row is looked at. */
  lemma IncompleteBlocksAreRefused(t: Tables, event: Event, notice: Notice)
    requires || !event.acceptable || event.id == "" || notice.runId == "" || notice.policy == "" || notice.reason == ""
             || notice.occurredAt.None?
    ensures Apply(t, RecordBlock(event, notice)) == (t, Rejected)
  {
  }

  /** The row a result may close, by the state it reports. */
  ghost predicate CanClose(row: Row, result: ExecutionResult) {
    match result.state
    case Blocked => row.state == Blocked && row.termination == None
    case TerminationFailed =>
      (row.state == Starting || row.state == Running || row.state == Blocked) && row.termination == None
    case Failed => row.state == Starting || row.state == Running
    case _ => row.state == Running
  }

  /** What the closed row records of the result: a blocked row stays blocked unless its process could not be stopped. */
  ghost predicate ClosedAs(before: Row, after: Row, result: ExecutionResult) {
    && after.state == result.state && after.endedAt == result.endedAt && after.exitCode == Some(result.exitCode)
    && after.stopReason == result.stopReason && after.startedAt == before.startedAt && after.policy == before.policy
    && after.termination == (if result.termination == Unset then None else Some(result.termination))
    && after.code == (if result.state == Blocked then before.code else result.code)
  }

  /** The arguments a result must have: a code exactly with a failed termination, and no more than its state allows. */
  ghost predicate WellReported(result: ExecutionResult) {
    && result.runId != "" && result.endedAt != None && result.termination != OtherStatus
    && match result.state
       case Blocked => result.termination == Succeeded && result.code == ""
       case TerminationFailed => result.termination == NotStopped && NormalizedCode(result.code)
       case _ => result.termination != NotStopped && result.code == ""
  }

  /**
   A result is stored exactly if it is well reported, its state is one that ends a run, and the row can be closed by it;
   the row then records all of it.
   */
  lemma FinishedExactlyWhen(t: Tables, result: ExecutionResult)
    ensures var (t', outcome) := Apply(t, Finish(result));
            var ending := result.state !in {Starting, Running, OtherState};
            && (outcome.Done? <==>
                  && ending && WellReported(result)
                  && result.runId in t.rows && CanClose(t.rows[result.runId], result))
            && (outcome.Rejected? ==> !WellReported(result))
            && (ending && !WellReported(result) ==> outcome.Rejected?)
            && (outcome.Done? ==>
                  && result.runId in t'.rows
                  && Moves(t, t', result.runId, t.rows[result.runId], t'.rows[result.runId])
                  && ClosedAs(t.rows[result.runId], t'.rows[result.runId], result))
  {
  }

  /** An event of any other kind is stored exactly if it is complete and its identifier is new. */
  lemma AppendedExactlyWhen(t: Tables, event: Event)
    ensures var (t', outcome) := Apply(t, Append(event));
            && (outcome.Done? <==> event.acceptable && event.id != "" && event.id !in t.events)
            && (outcome.Done? ==> t'.events == t.events[event.id := Ordinary] && t'.rows == t.rows)
            && (!outcome.Done? ==> outcome == Rejected && t' == t)
  {
  }

  /** Recovery interrupts every run that was starting or running, at the given time, and no other row changes. */
  lemma RecoveredExactlyWhen(t: Tables, at: Option<Time>)
    ensures var (t', outcome) := Apply(t, Recover(at));
            && (outcome.Done? <==> at.Some?) && t'.rows.Keys == t.rows.Keys && t'.events == t.events
            && (outcome.Done? ==> forall r :: r in t.rows ==>
                  if t.rows[r].state == Starting || t.rows[r].state == Running then
                    t'.rows[r] == t.rows[r].(state := Interrupted, endedAt := at, stopReason := "virgil_restart")
                  else t'.rows[r] == t.rows[r])
  {
  }

  ghost predicate OneEventPerBlock(t: Tables) {
    forall r :: |BlockEvents(t, r)| == (if r in t.rows && t.rows[r].policy.Some? then 1 else 0)
  }

  lemma RecordedBlock(t: Tables, op: Op, r: string)
    requires GoodTables(t) && op.RecordBlock? && OneEventPerBlock(t)
    ensures var t' := Apply(t, op).0;
            |BlockEvents(t', r)| == (if r in t'.rows && t'.rows[r].policy.Some? then 1 else 0)
  {
    var t' := Apply(t, op).0;
    assert |BlockEvents(t, r)| == (if r in t.rows && t.rows[r].policy.Some? then 1 else 0);
    if op.notice.runId == r && t' != t {
      assert BlockEvents(t', r) == BlockEvents(t, r) + {op.event.id};
    } else {
      assert BlockEvents(t', r) == BlockEvents(t, r);
    }
  }

  lemma OtherOpsAddNoBlock(t: Tables, op: Op, r: string)
    requires GoodTables(t) && !op.Block? && !op.RecordBlock?
    ensures var t' := Apply(t, op).0;
            && BlockEvents(t', r) == BlockEvents(t, r)
            && ((r in t'.rows && t'.rows[r].policy.Some?) <==> (r in t.rows && t.rows[r].policy.Some?))
  {
  }

  lemma StepKeepsOneEvent(t: Tables, op: Op)
    requires GoodTables(t) && OneEventPerBlock(t) && !op.Block?
    ensures OneEventPerBlock(Apply(t, op).0)
  {
    var t' := Apply(t, op).0;
    forall r
      ensures |BlockEvents(t', r)| == (if r in t'.rows && t'.rows[r].policy.Some? then 1 else 0)
    {
      assert |BlockEvents(t, r)| == (if r in t.rows && t.rows[r].policy.Some? then 1 else 0);
      if op.RecordBlock? {
        RecordedBlock(t, op, r);
      } else {
        OtherOpsAddNoBlock(t, op, r);
      }
    }
  }

  /** When blocks are recorded through RecordPolicyBlock only, each blocked run has exactly one policy-block event. */
  lemma {:induction false} ExactlyOneBlockEvent(ops: seq<Op>, t: Tables)
    requires forall i :: 0 <= i < |ops| ==> !ops[i].Block?
    requires GoodTables(t) && OneEventPerBlock(t)
    ensures OneEventPerBlock(Run(t, ops))
    decreases |ops|
  {
    if ops == [] {
    } else {
      StepAdvances(t, ops[0]);
      StepKeepsOneEvent(t, ops[0]);
      ExactlyOneBlockEvent(ops[1..], Apply(t, ops[0]).0);
    }
  }

  /** The empty database satisfies both invariants. */
  lemma EmptyTablesAreGood()
    ensures GoodTables(Tables(map[], map[])) && OneEventPerBlock(Tables(map[], map[]))
  {
  }

  /** The storage object: each method is one SQL transaction. */
  class Journal {
    var rows: map<string, Row>
    var events: map<string, Origin>

    function View(): Tables reads this { Tables(rows, events) }

    constructor ()
      ensures View() == Tables(map[], map[])
    {
      rows, events := map[], map[];
    }

    method StartExecution(runId: string, at: Option<Time>) returns (outcome: Outcome)
      modifies this
      ensures (View(), outcome) == Apply(old(View()), Start(runId, at))
    {
      if runId == "" || at.None? {
        return Rejected;
      }
      if runId in rows {
        return RunExists;
      }
      rows := rows[runId := NewRow(at.value)];
      return Done;
    }

    method MarkExecutionRunning(runId: string) returns (outcome: Outcome)
      modifies this
      ensures (View(), outcome) == Apply(old(View()), Mark(runId))
    {
      if runId in rows && rows[runId].state.Starting? {
        rows := rows[runId := rows[runId].(state := Running)];
        return Done;
      }
      return InvalidTransition;
    }

    method BlockExecution(notice: Notice) returns (outcome: Outcome)
      modifies this
      ensures (View(), outcome) == Apply(old(View()), Block(notice))
    {
      if notice.runId == "" || notice.policy == "" || notice.reason == "" || notice.attempt < 0
         || notice.threshold < 0 || notice.occurredAt.None? {
        return Rejected;
      }
      if notice.runId in rows && rows[notice.runId].state.Running? {
        rows := rows[notice.runId := rows[notice.runId].(state := Blocked, policy := Some(notice))];
        return Done;
      }
      return InvalidTransition;
    }

    /** A later block of the same run rolls its event back. */
    method RecordPolicyBlock(event: Event, notice: Notice) returns (outcome: Outcome)
      modifies this
      ensures (View(), outcome) == Apply(old(View()), RecordBlock(event, notice))
    {
      if !event.acceptable || event.id == "" || notice.runId == "" || notice.policy == "" || notice.reason == ""
         || notice.occurredAt.None? {
        return Rejected;
      }
      var before := rows;
      if notice.runId in rows && rows[notice.runId].state.Running? {
        if notice.attempt < 0 || notice.threshold < 0 {
          return Rejected;
        }
        rows := rows[notice.runId := rows[notice.runId].(state := Blocked, policy := Some(notice))];
      } else {
        return if notice.runId in rows && rows[notice.runId].state.Blocked? then PolicyBlockRecorded
            else InvalidTransition;
      }
      if event.id in events {
        rows := before;
        return Rejected;
      }
      events := events[event.id := PolicyBlockOf(notice.runId)];
      return Done;
    }

    method FinishExecution(result: ExecutionResult) returns (outcome: Outcome)
      modifies this
      ensures (View(), outcome) == Apply(old(View()), Finish(result))
    {
      if result.runId == "" || result.endedAt.None? || !ValidStatus(result.termination) {
        return Rejected;
      }
      var present := result.runId in rows;
      var row := if present then rows[result.runId] else NewRow(0);
      var closed := row.(endedAt := result.endedAt, exitCode := Some(result.exitCode), stopReason := result.stopReason);
      match result.state {
        case Blocked =>
          if !result.termination.Succeeded? || result.code != "" {
            return Rejected;
          }
          if present && row.state.Blocked? && row.termination.None? {
            rows := rows[result.runId := closed.(termination := Some(Succeeded))];
            return Done;
          }
        case TerminationFailed =>
          if !result.termination.NotStopped? || !NormalizedCode(result.code) {
            return Rejected;
          }
          if present && (row.state.Starting? || row.state.Blocked? || row.state.Running?) && row.termination.None? {
            rows := rows[result.runId :=
                closed.(state := TerminationFailed, termination := Some(NotStopped), code := result.code)];
            return Done;
          }
        case Completed | Failed | Deadline | Interrupted | GatewayFailed =>
          if result.termination.NotStopped? || result.code != "" {
            return Rejected;
          }
          if present && (row.state.Running? || (result.state.Failed? && row.state.Starting?)) {
            rows := rows[result.runId :=
                closed.(state := result.state, termination := NullIfUnset(result.termination), code := result.code)];
            return Done;
          }
        case _ =>
      }
      return InvalidTransition;
    }

    /** An event of any other kind, with its duplicate check. */
    method AppendEvent(event: Event) returns (outcome: Outcome)
      modifies this
      ensures (View(), outcome) == Apply(old(View()), Append(event))
    {
      if !event.acceptable || event.id == "" || event.id in events {
        return Rejected;
      }
      events := events[event.id := Ordinary];
      return Done;
    }

    method RecoverExecutions(at: Option<Time>) returns (outcome: Outcome)
      modifies this
      ensures (View(), outcome) == Apply(old(View()), Recover(at))
    {
      if at.None? {
        return Rejected;
      }
      rows := map r | r in rows :: Recovered(rows[r], at.value);
      return Done;
    }
  }
}
