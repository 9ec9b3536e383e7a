/**
 The one transaction after a call: settle the reservation, count the day, insert the event and its outbox rows.

 The engine's own postflight does the first two in two transactions; what the single transaction adds is proved below.
 */
module Postflight {
  import opened Wrappers
  import opened PolicyLedger
  import DailyLimit
  import PolicyLimits

  type Day = DailyLimit.Day

  /** An event `prepares` when its redaction and its encoding succeed. */
  datatype Event = Event(id: string, contentCapture: bool, foreign: bool, prepares: bool)

  predicate Acceptable(e: Event) { !e.contentCapture && !e.foreign && e.id != "" && e.prepares }

  datatype OutboxKey = OutboxKey(destination: string, event: string)

  datatype Tables = Tables(ledger: Ledger, days: map<Day, DailyLimit.Counter>, events: set<string>,
      outbox: set<OutboxKey>)

  predicate ValidDestination(d: string) { 1 <= |d| <= 64 }

  function Rows(destinations: seq<string>, id: string): set<OutboxKey> {
    set i | 0 <= i < |destinations| :: OutboxKey(destinations[i], id)
  }

  /** Destinations are valid, listed once, and not there yet. */
  predicate Insertable(outbox: set<OutboxKey>, destinations: seq<string>, id: string) {
    && (forall i :: 0 <= i < |destinations| ==>
        ValidDestination(destinations[i]) && OutboxKey(destinations[i], id) !in outbox)
    && forall i, j :: 0 <= i < j < |destinations| ==> destinations[i] != destinations[j]
  }

  predicate Commits(t: Tables, o: PolicyOutcome, e: Event, destinations: seq<string>, cost: CostText) {
    && o.reservationId != "" && o.runId != "" && Acceptable(e)
    && Reconcile(t.ledger, o).1 && PolicyDecimal(cost).Some? && e.id !in t.events
        && Insertable(t.outbox, destinations, e.id)
  }

  function Committed(t: Tables, o: PolicyOutcome, e: Event, destinations: seq<string>, cost: CostText, day: Day): Tables
    requires PolicyDecimal(cost).Some?
  {
    Tables(Reconcile(t.ledger, o).0, DailyLimit.Increment(t.days, day, cost).value,
           t.events + {e.id}, t.outbox + Rows(destinations, e.id))
  }

  predicate Appends(t: Tables, e: Event, destinations: seq<string>) {
    Acceptable(e) && e.id !in t.events && Insertable(t.outbox, destinations, e.id)
  }

  function Appended(t: Tables, e: Event, destinations: seq<string>): Tables {
    t.(events := t.events + {e.id}, outbox := t.outbox + Rows(destinations, e.id))
  }

  class Journal {
    var ledger: Ledger
    var days: map<Day, DailyLimit.Counter>
    var events: set<string>
    var outbox: set<OutboxKey>

    function View(): Tables reads this { Tables(ledger, days, events, outbox) }

    constructor ()
      ensures View() == Tables(Ledger(map[], map[]), map[], {}, {})
    {
      ledger, days, events, outbox := Ledger(map[], map[]), map[], {}, {};
    }

    /** All or nothing: four tables change together, exactly when every part can. */
    method PostflightAndAppend(o: PolicyOutcome, e: Event, destinations: seq<string>, cost: CostText, day: Day)
        returns (ok: bool)
      modifies this
      ensures ok == Commits(old(View()), o, e, destinations, cost)
      ensures View() == if ok then Committed(old(View()), o, e, destinations, cost, day) else old(View())
    {
      hide Reconcile, PolicyDecimal;
      if o.reservationId == "" || o.runId == "" {
        return false;
      }
      if e.contentCapture || e.foreign || e.id == "" || !e.prepares {
        return false;
      }
      var (newLedger, settled) := Reconcile(ledger, o);
      if !settled {
        return false;
      }
      var newDays := DailyLimit.Increment(days, day, cost);
      if newDays.None? || e.id in events {
        return false;
      }
      var rows := InsertRows(outbox, destinations, e.id);
      if rows.None? {
        return false;
      }
      ledger, days, events, outbox := newLedger, newDays.value, events + {e.id}, rows.value;
      return true;
    }

    /** An event by itself, with its outbox rows. */
    method AppendTransaction(e: Event, destinations: seq<string>) returns (ok: bool)
      modifies this`events, this`outbox
      ensures ok == Appends(old(View()), e, destinations)
      ensures View() == if ok then Appended(old(View()), e, destinations) else old(View())
    {
      if e.contentCapture || e.foreign || e.id == "" || !e.prepares || e.id in events {
        return false;
      }
      var rows := InsertRows(outbox, destinations, e.id);
      if rows.None? {
        return false;
      }
      events, outbox := events + {e.id}, rows.value;
      return true;
    }
  }

  /** The loop over destinations, inside a transaction: one bad destination and none of the rows is there. */
  method InsertRows(outbox: set<OutboxKey>, destinations: seq<string>, id: string) returns (all: Option<set<OutboxKey>>)
    ensures all == if Insertable(outbox, destinations, id) then Some(outbox + Rows(destinations, id)) else None
  {
    var rows := outbox;
    for i := 0 to |destinations|
      invariant rows == outbox + Rows(destinations[..i], id) && Insertable(outbox, destinations[..i], id)
    {
      RowsGrow(destinations, i, id);
      var key := OutboxKey(destinations[i], id);
      assert destinations[..i + 1] == destinations[..i] + [destinations[i]];
      if !ValidDestination(destinations[i]) || key in rows {
        if key in rows && key !in outbox {
          var j :| 0 <= j < i && OutboxKey(destinations[..i][j], id) == key;
          assert destinations[j] == destinations[i];
        }
        return None;
      }
      assert forall j :: 0 <= j < i ==> OutboxKey(destinations[..i][j], id) in rows;
      rows := rows + {key};
    }
    assert destinations[..|destinations|] == destinations;
    return Some(rows);
  }

  lemma RowsGrow(destinations: seq<string>, i: nat, id: string)
    requires i < |destinations|
    ensures Rows(destinations[..i + 1], id) == Rows(destinations[..i], id) + {OutboxKey(destinations[i], id)}
  {
  }

  // ---------------------------------------------------------------- counting once

  /** A commit that is tried again, with any outcome, fails and changes nothing: the event is there. */
  lemma RetryChangesNothing(t: Tables, o: PolicyOutcome, e: Event, destinations: seq<string>, cost: CostText, day: Day,
                            o': PolicyOutcome, destinations': seq<string>, cost': CostText)
    requires Commits(t, o, e, destinations, cost)
    ensures !Commits(Committed(t, o, e, destinations, cost, day), o', e, destinations', cost')
  {
  }

  /**
   The engine's postflight, which reads a cost in the strict grammar only. It counts every time; the ledger part alone
   is idempotent.
   */
  function EnginePostflight(t: Tables, o: PolicyOutcome, day: Day): (Tables, bool) {
    var (ledger, ok) := Reconcile(t.ledger, o);
    if o.reservationId == "" || o.input < -1 || o.output < -1 || o.tools < -1
       || PolicyLimits.PlainDecimal(o.cost).None? || !ok then (t, false)
    else
      var days := DailyLimit.Increment(t.days, day, o.cost);
      if days.None? then (t.(ledger := ledger), false) else (t.(ledger := ledger, days := days.value), true)
  }

  /** It succeeds exactly on a plain outcome that can be settled, and then one call and its cost are on the day. */
  lemma EngineCountsExactlyWhen(t: Tables, o: PolicyOutcome, day: Day)
    ensures var (t', ok) := EnginePostflight(t, o, day);
            var settled := Reconcile(t.ledger, o);
            && (ok <==>
                && settled.1 && o.reservationId != "" && -1 <= o.input && -1 <= o.output && -1 <= o.tools
                && (o.cost.Unset? || (o.cost.Decimal? && o.cost.plain && 0.0 <= o.cost.value)))
            && (ok ==>
                  && t'.ledger == settled.0 && t'.events == t.events && t'.outbox == t.outbox
                  && DailyLimit.Read(t'.days, day).calls == DailyLimit.Read(t.days, day).calls + 1
                  && DailyLimit.Read(t'.days, day).cost == DailyLimit.Read(t.days, day).cost + CostOf(o.cost)
                  && forall d :: d != day ==> DailyLimit.Read(t'.days, d) == DailyLimit.Read(t.days, d))
            && (!ok ==> t' == t)
  {
    hide Reconcile;
  }

  /** Repeated, it settles nothing more, and counts the call and its cost again. */
  lemma EngineRepeatCountsTwice(t: Tables, o: PolicyOutcome, day: Day)
    requires EnginePostflight(t, o, day).1
    ensures var once := EnginePostflight(t, o, day).0;
            var twice := EnginePostflight(once, o, day).0;
            && twice.ledger == once.ledger
            && DailyLimit.Read(twice.days, day).calls == DailyLimit.Read(once.days, day).calls + 1
            && DailyLimit.Read(twice.days, day).cost == DailyLimit.Read(once.days, day).cost + CostOf(o.cost)
  {
    hide Reconcile, EnginePostflight;
    var once := EnginePostflight(t, o, day).0;
    EngineCountsExactlyWhen(t, o, day);
    ReconcileTwice(t.ledger, o, o);
    EngineCountsExactlyWhen(once, o, day);
  }

  datatype Op =
    | Admit(reserve: PolicyReserve)
    | After(outcome: PolicyOutcome, event: Event, destinations: seq<string>, cost: CostText, day: Day)
    | Append(event: Event, destinations: seq<string>)

  /** What was written with an event: the day it was counted on, if it ends a call, its cost, and where it is sent. */
  datatype Entry = Entry(day: Option<Day>, cost: real, destinations: seq<string>)

  /** The tables, and the log of the events in them. */
  datatype Logged = Logged(tables: Tables, log: map<string, Entry>)

  ghost function Apply(s: Logged, op: Op): Logged {
    match op
    case Admit(r) => s.(tables := s.tables.(ledger := Reserve(s.tables.ledger, r).0))
    case After(o, e, destinations, cost, day) =>
      if Commits(s.tables, o, e, destinations, cost) then
        Logged(Committed(s.tables, o, e, destinations, cost, day),
               s.log[e.id := Entry(Some(day), CostOf(cost), destinations)])
      else s
    case Append(e, destinations) =>
      if Appends(s.tables, e, destinations) then
        Logged(Appended(s.tables, e, destinations), s.log[e.id := Entry(None, 0.0, destinations)])
      else s
  }

  ghost function ApplyAll(s: Logged, ops: seq<Op>): Logged
    decreases |ops|
  {
    if ops == [] then s else ApplyAll(Apply(s, ops[0]), ops[1..])
  }

  /** The costs of the events that were counted on a day. */
  ghost function CountedOn(log: map<string, Entry>, day: Day): map<string, real> {
    map id | id in log && log[id].day == Some(day) :: log[id].cost
  }

  /** The outbox has a row for each event and each destination it was logged with, and no other. */
  ghost predicate RowsAgree(s: Logged) {
    forall key :: key in s.tables.outbox <==> key.event in s.log && key.destination in s.log[key.event].destinations
  }

  ghost predicate DaysAgree(s: Logged) {
    forall day :: var counter := DailyLimit.Read(s.tables.days, day);
      counter.calls == |CountedOn(s.log, day)| && counter.cost == Sum(CountedOn(s.log, day))
  }

  /**
   The ledger balances, the outbox holds exactly the rows of the logged events, and each day's counter is the number and
   the cost of the events counted on it.
   */
  ghost predicate Agrees(s: Logged) {
    Consistent(s.tables.ledger) && s.log.Keys == s.tables.events && RowsAgree(s) && DaysAgree(s)
  }

  lemma OneMoreCounted(log: map<string, Entry>, id: string, entry: Entry, d: Day)
    requires id !in log
    ensures |CountedOn(log[id := entry], d)| == |CountedOn(log, d)| + if entry.day == Some(d) then 1 else 0
    ensures Sum(CountedOn(log[id := entry], d))
            == Sum(CountedOn(log, d)) + if entry.day == Some(d) then entry.cost else 0.0
  {
    hide Sum;
    if entry.day == Some(d) {
      assert CountedOn(log[id := entry], d) == CountedOn(log, d)[id := entry.cost];
      SumInsert(CountedOn(log, d), id, entry.cost);
    } else {
      assert CountedOn(log[id := entry], d) == CountedOn(log, d);
    }
  }

  lemma InsertedRowsAgree(s: Logged, s': Logged, id: string, entry: Entry)
    requires RowsAgree(s) && id !in s.log && s'.log == s.log[id := entry]
    requires s'.tables.outbox == s.tables.outbox + Rows(entry.destinations, id)
    ensures RowsAgree(s')
  {
  }

  lemma CommitAgrees(s: Logged, o: PolicyOutcome, e: Event, destinations: seq<string>, cost: CostText, day: Day)
    requires Agrees(s) && Commits(s.tables, o, e, destinations, cost)
    ensures Agrees(Apply(s, After(o, e, destinations, cost, day)))
  {
    hide Consistent, Reconcile, CountedOn, RowsAgree, Rows, Sum;
    ReconcileIsConsistent(s.tables.ledger, o);
    var s' := Apply(s, After(o, e, destinations, cost, day));
    var entry := Entry(Some(day), CostOf(cost), destinations);
    InsertedRowsAgree(s, s', e.id, entry);
    forall d
      ensures DailyLimit.Read(s'.tables.days, d).calls == |CountedOn(s'.log, d)|
      ensures DailyLimit.Read(s'.tables.days, d).cost == Sum(CountedOn(s'.log, d))
    {
      OneMoreCounted(s.log, e.id, entry, d);
    }
  }

  lemma AppendAgrees(s: Logged, e: Event, destinations: seq<string>)
    requires Agrees(s) && Appends(s.tables, e, destinations)
    ensures Agrees(Apply(s, Append(e, destinations)))
  {
    hide Consistent, CountedOn, RowsAgree, Rows, Sum;
    var s' := Apply(s, Append(e, destinations));
    var entry := Entry(None, 0.0, destinations);
    InsertedRowsAgree(s, s', e.id, entry);
    forall d
      ensures DailyLimit.Read(s'.tables.days, d).calls == |CountedOn(s'.log, d)|
      ensures DailyLimit.Read(s'.tables.days, d).cost == Sum(CountedOn(s'.log, d))
    {
      OneMoreCounted(s.log, e.id, entry, d);
    }
  }

  /**
   Over any sequence of admissions, postflights and other events, retries included, every day's counter is the number
   and the cost of the events whose postflight committed on that day, and every event has its outbox rows: a call is
   counted, settled, logged and queued together or not at all.
   */
  lemma {:induction false} DaysCountEvents(s: Logged, ops: seq<Op>)
    requires Agrees(s)
    ensures Agrees(ApplyAll(s, ops))
    decreases |ops|
  {
    hide Consistent, Reconcile, Reserve, Commits, RowsAgree, DaysAgree;
    if ops == [] {
    } else {
      match ops[0] {
        case Admit(r) => AdmitAgrees(s, r);
        case After(o, e, destinations, cost, day) =>
          if Commits(s.tables, o, e, destinations, cost) {
            CommitAgrees(s, o, e, destinations, cost, day);
          }
        case Append(e, destinations) =>
          if Appends(s.tables, e, destinations) {
            AppendAgrees(s, e, destinations);
          }
      }
      DaysCountEvents(Apply(s, ops[0]), ops[1..]);
    }
  }

  lemma AdmitAgrees(s: Logged, r: PolicyReserve)
    requires Agrees(s)
    ensures Agrees(Apply(s, Admit(r)))
  {
    hide Consistent, Reserve, Sum, CountedOn;
    ReserveIsConsistent(s.tables.ledger, r);
  }

  /** An event that is new, belongs here, holds no content and can be written. */
  ghost predicate Writable(s: Logged, e: Event, destinations: seq<string>) {
    && e.id != "" && e.id !in s.log && !e.contentCapture && !e.foreign && e.prepares
    && (forall d :: d in destinations ==> 1 <= |d| <= 64)
    && (forall i, j :: 0 <= i < j < |destinations| ==> destinations[i] != destinations[j])
  }

  /**
   The one transaction commits exactly if the outcome settles, its cost can be read, and the event is one that can be
   written, with distinct, valid destinations; an event by itself needs only the last of these.
   */
  lemma CommitsExactlyWhen(s: Logged, o: PolicyOutcome, e: Event, destinations: seq<string>, cost: CostText)
    requires Agrees(s)
    ensures Commits(s.tables, o, e, destinations, cost) <==>
        Reconcile(s.tables.ledger, o).1 && Readable(cost) && Writable(s, e, destinations)
    ensures Appends(s.tables, e, destinations) <==> Writable(s, e, destinations)
  {
    hide Consistent, DaysAgree;
    assert forall i :: 0 <= i < |destinations| ==> destinations[i] in destinations;
  }
}
