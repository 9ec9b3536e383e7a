/**
 The outbox: rows leased for sending, then acknowledged, scheduled again or given up.

 Times are nanoseconds; the jitter of a retry is any number of seconds below 30. A drain is one leasing and the disposal
 of what it leased; it may break off anywhere, by a storage error or a crash, and leaves the rest to their leases.
 Several drainers at work on one row are a machine of single statements, in any interleaving.
 */
module Outbox {
  import opened Wrappers

  const MAX_ATTEMPTS := 10
  const SECOND := 1_000_000_000
  const LEASE_DURATION := 300 * SECOND

  datatype RowState = Pending | Sending | Retryable | Delivered | DeadLetter

  datatype Row = Row(state: RowState, attempts: nat, nextAttempt: int, leaseUntil: Option<int>,
      lastError: Option<string>)

  datatype Key = Key(destination: string, event: string)

  type Table = map<Key, Row>

  predicate Due(row: Row, now: int) {
    || ((row.state == Pending || row.state == Retryable) && row.nextAttempt <= now)
    || (row.state == Sending && row.leaseUntil.Some? && row.leaseUntil.value < now)
  }

  function DueEvents(t: Table, destination: string, now: int): set<string> {
    set k | k in t && k.destination == destination && Due(t[k], now) :: k.event
  }

  predicate ValidCode(code: string) { 1 <= |code| <= 64 }

  function Pow2(n: nat): nat { if n == 0 then 1 else 2 * Pow2(n - 1) }

  // ---------------------------------------------------------------- one row

  function Leased(row: Row, now: int): Row { row.(state := Sending, leaseUntil := Some(now + LEASE_DURATION)) }

  function Acked(row: Row): Row { if row.state == Sending then row.(state := Delivered, leaseUntil := None) else row }

  /** The update of a failure, with the attempts that an earlier statement read. */
  function Failed(row: Row, read: nat, code: string, now: int, jitter: nat): Row {
    var attempts := read + 1;
    if attempts >= MAX_ATTEMPTS then Row(DeadLetter, attempts, row.nextAttempt, None, Some(code))
    else Row(Retryable, attempts, now + (Pow2(attempts) + jitter) * SECOND, None, Some(code))
  }

  function GivenUp(row: Row, code: string): Row {
    if row.state == Sending then Row(DeadLetter, row.attempts + 1, row.nextAttempt, None, Some(code)) else row
  }

  // ---------------------------------------------------------------- what a drain must do

  /** What the control plane answered about a batch; when sending failed it answered nothing. */
  datatype Answer = Answered(accepted: set<string>, invalid: set<string>) | SendFailed

  predicate Accepts(answer: Answer, event: string) { answer.Answered? && event in answer.accepted }

  predicate Rejects(answer: Answer, event: string) { answer.Answered? && event in answer.invalid }

  /** What becomes of a leased row: `before` is the row as it was before the drain. */
  ghost predicate Settled(before: Row, after: Row, event: string, answer: Answer, now: int) {
    && (after.state == Delivered <==> Accepts(answer, event))
    && (after.state == Delivered ==> after.attempts == before.attempts)
    && (after.state != Delivered ==> after.attempts == before.attempts + 1)
    && (after.state == DeadLetter
        <==> !Accepts(answer, event) && (Rejects(answer, event) || before.attempts + 1 >= 10))
    && (after.state == Retryable
        <==> !Accepts(answer, event) && !Rejects(answer, event) && before.attempts + 1 < 10)
    && (after.state == Retryable ==>
          now + Pow2(after.attempts) * 1_000_000_000 <= after.nextAttempt
          < now + (Pow2(after.attempts) + 30) * 1_000_000_000)
    && after.lastError == (if Accepts(answer, event) then before.lastError
                           else if Rejects(answer, event) then Some("invalid_event")
                           else if answer.SendFailed? then Some("send_error") else Some("send_failed"))
    && after.leaseUntil == None
  }

  function NextAttempt(t: Table, destination: string, event: string): int {
    if Key(destination, event) in t then t[Key(destination, event)].nextAttempt else 0
  }

  ghost predicate Selects(ids: seq<string>, t: Table, destination: string, limit: int, now: int) {
    var due := DueEvents(t, destination, now);
    && (forall i, j :: 0 <= i < j < |ids| ==> ids[i] != ids[j])
    && (forall i :: 0 <= i < |ids| ==> ids[i] in due)
    && |ids| == (if 0 <= limit < |due| then limit else |due|)
    && (forall i, j :: 0 <= i < j < |ids| ==>
        NextAttempt(t, destination, ids[i]) <= NextAttempt(t, destination, ids[j]))
    && (forall i, e :: 0 <= i < |ids| && e in due && e !in ids ==>
          NextAttempt(t, destination, ids[i]) <= NextAttempt(t, destination, e))
  }

  function LeasedIn(t: Table, destination: string, ids: seq<string>, now: int): Table {
    map k | k in t :: if k.destination == destination && k.event in ids then Leased(t[k], now) else t[k]
  }

  lemma {:induction false} EarliestExists(t: Table, destination: string, events: set<string>)
    requires events != {}
    ensures exists e :: e in events && forall f :: f in events ==>
        NextAttempt(t, destination, e) <= NextAttempt(t, destination, f)
    decreases events
  {
    var e :| e in events;
    if events - {e} != {} {
      EarliestExists(t, destination, events - {e});
      var f :| f in events - {e} && forall g :: g in events - {e} ==>
          NextAttempt(t, destination, f) <= NextAttempt(t, destination, g);
      var first := if NextAttempt(t, destination, e) <= NextAttempt(t, destination, f) then e else f;
      assert first in events && forall g :: g in events ==>
          NextAttempt(t, destination, first) <= NextAttempt(t, destination, g);
    } else {
      assert events == {e};
    }
  }

  /** The state of the query: what was picked, and what is left to pick from. */
  ghost predicate Picked(ids: seq<string>, rest: set<string>, due: set<string>, t: Table, destination: string) {
    && rest <= due && |rest| + |ids| == |due|
    && (forall i, j :: 0 <= i < j < |ids| ==> ids[i] != ids[j])
    && (forall i :: 0 <= i < |ids| ==> ids[i] in due && ids[i] !in rest)
    && (forall e :: e in due && e !in ids ==> e in rest)
    && (forall i, e :: 0 <= i < |ids| && e in rest ==>
        NextAttempt(t, destination, ids[i]) <= NextAttempt(t, destination, e))
    && (forall i, j :: 0 <= i < j < |ids| ==>
        NextAttempt(t, destination, ids[i]) <= NextAttempt(t, destination, ids[j]))
  }

  lemma PickOne(ids: seq<string>, rest: set<string>, due: set<string>, t: Table, destination: string, e: string)
    requires Picked(ids, rest, due, t, destination) && e in rest
    requires forall f :: f in rest ==> NextAttempt(t, destination, e) <= NextAttempt(t, destination, f)
    ensures Picked(ids + [e], rest - {e}, due, t, destination)
  {
    hide NextAttempt;
    var more := ids + [e];
    assert forall i :: 0 <= i < |more| ==> more[i] == if i < |ids| then ids[i] else e;
  }

  /** The query of a leasing: the due rows of one destination, earliest first, in any order among equals. */
  method SelectDue(t: Table, destination: string, limit: int, now: int) returns (ids: seq<string>)
    ensures Selects(ids, t, destination, limit, now)
  {
    hide Due, NextAttempt;
    ids := [];
    var due := DueEvents(t, destination, now);
    var rest := due;
    while rest != {} && |ids| != limit
      invariant Picked(ids, rest, due, t, destination) && (limit >= 0 ==> |ids| <= limit)
      decreases |rest|
    {
      EarliestExists(t, destination, rest);
      var e :| e in rest && forall f :: f in rest ==> NextAttempt(t, destination, e) <= NextAttempt(t, destination, f);
      PickOne(ids, rest, due, t, destination, e);
      rest := rest - {e};
      ids := ids + [e];
    }
  }

  class Journal {
    var rows: Table
    /** How often each row was leased, and how often nobody settled it afterwards. */
    ghost var leases: map<Key, nat>
    ghost var broken: map<Key, nat>

    /** Between drains every row is sound, and its attempts, delivery and broken leases count its leases. */
    ghost predicate Valid()
      reads this
    {
      Counted(rows, leases, broken)
    }

    constructor ()
      ensures Valid() && rows == map[]
    {
      rows, leases, broken := map[], map[], map[];
    }

    /** A new row, as an appended event makes it; the primary key refuses a second one. */
    method Enqueue(destination: string, event: string, now: int) returns (ok: bool)
      requires Valid()
      modifies this
      ensures Valid() && ok == (1 <= |destination| <= 64 && Key(destination, event) !in old(rows))
      ensures rows == if ok then old(rows)[Key(destination, event) := Row(Pending, 0, now, None, None)] else old(rows)
    {
      var k := Key(destination, event);
      if destination == "" || |destination| > 64 || k in rows {
        return false;
      }
      rows, leases, broken := rows[k := Row(Pending, 0, now, None, None)], leases[k := 0], broken[k := 0];
      return true;
    }

    method Lease(destination: string, limit: int, now: int) returns (ids: seq<string>)
      modifies this`rows
      ensures Selects(ids, old(rows), destination, limit, now)
      ensures rows == LeasedIn(old(rows), destination, ids, now)
    {
      hide Selects, Leased;
      ids := SelectDue(rows, destination, limit, now);
      SelectedExist(ids, rows, destination, limit, now);
      for i := 0 to |ids|
        invariant rows == LeasedIn(old(rows), destination, ids[..i], now)
      {
        var k := Key(destination, ids[i]);
        assert ids[..i + 1] == ids[..i] + [ids[i]];
        assert ids[i] !in ids[..i];
        rows := rows[k := Leased(rows[k], now)];
      }
      assert ids[..|ids|] == ids;
    }

    method Ack(destination: string, events: seq<string>)
      modifies this`rows
      ensures rows == map k | k in old(rows) ::
                        if k.destination == destination && k.event in events then Acked(old(rows)[k]) else old(rows)[k]
    {
      for i := 0 to |events|
        invariant rows == map k | k in old(rows) ::
                            if k.destination == destination && k.event in events[..i] then Acked(old(rows)[k])
                                else old(rows)[k]
      {
        assert events[..i + 1] == events[..i] + [events[i]];
        var k := Key(destination, events[i]);
        if k in rows && rows[k].state == Sending {
          rows := rows[k := rows[k].(state := Delivered, leaseUntil := None)];
        }
      }
      assert events[..|events|] == events;
    }

    /** The first statement of a failure report. */
    method ReadAttempts(destination: string, event: string) returns (read: Option<nat>)
      ensures read == if Key(destination, event) in rows then Some(rows[Key(destination, event)].attempts) else None
    {
      var k := Key(destination, event);
      if k !in rows {
        return None;
      }
      return Some(rows[k].attempts);
    }

    /** Its second statement: there is no guard on the row's state, nor on the attempts it has by then. */
    method WriteFailure(destination: string, event: string, read: nat, code: string, now: int)
      modifies this`rows
      ensures Key(destination, event) !in old(rows) ==> rows == old(rows)
      ensures Key(destination, event) in old(rows) ==>
                exists jitter: nat ::
                  && jitter < 30
                  && var k := Key(destination, event);
                      rows == old(rows)[k := Failed(old(rows)[k], read, code, now, jitter)]
    {
      var k := Key(destination, event);
      if k !in rows {
        return;
      }
      var attempts := read + 1;
      var jitter: nat := 0;
      if attempts >= MAX_ATTEMPTS {
        rows := rows[k := rows[k].(state := DeadLetter, attempts := attempts, leaseUntil := None,
            lastError := Some(code))];
      } else {
        jitter := *;
        if jitter >= 30 {
          jitter := 0;
        }
        rows := rows[k := Row(Retryable, attempts, now + (Pow2(attempts) + jitter) * SECOND, None, Some(code))];
      }
      assert rows == old(rows)[k := Failed(old(rows)[k], read, code, now, jitter)];
    }

    /** Both statements, with nobody between them; a code has one to 64 characters. */
    method Fail(destination: string, event: string, code: string, now: int) returns (ok: bool)
      modifies this`rows
      ensures ok == (0 < |code| < 65 && Key(destination, event) in old(rows))
      ensures !ok ==> rows == old(rows)
      ensures ok ==> exists jitter: nat ::
                       && jitter < 30
                       && var k := Key(destination, event);
                          rows == old(rows)[k := Failed(old(rows)[k], old(rows)[k].attempts, code, now, jitter)]
    {
      if !ValidCode(code) {
        return false;
      }
      var read := ReadAttempts(destination, event);
      if read.None? {
        return false;
      }
      WriteFailure(destination, event, read.value, code, now);
      return true;
    }

    method GiveUp(destination: string, event: string, code: string) returns (ok: bool)
      modifies this`rows
      ensures ok == (0 < |code| < 65)
      ensures rows == if ok && Key(destination, event) in old(rows) then
                        old(rows)[Key(destination, event) := GivenUp(old(rows)[Key(destination, event)], code)]
                      else old(rows)
    {
      if !ValidCode(code) {
        return false;
      }
      var k := Key(destination, event);
      if k in rows && rows[k].state == Sending {
        rows := rows[k := rows[k].(state := DeadLetter, attempts := rows[k].attempts + 1, leaseUntil := None,
            lastError := Some(code))];
      }
      return true;
    }

    /** One leased row, after the answer. */
    method Settle(destination: string, event: string, answer: Answer, now: int) returns (delivered: bool)
      requires Key(destination, event) in rows && rows[Key(destination, event)].state == Sending
      modifies this`rows
      ensures delivered == Accepts(answer, event)
      ensures Key(destination, event) in rows
          && rows == old(rows)[Key(destination, event) := rows[Key(destination, event)]]
      ensures Settled(old(rows)[Key(destination, event)], rows[Key(destination, event)], event, answer, now)
    {
      hide Pow2;
      var k := Key(destination, event);
      ghost var before := rows;
      if Accepts(answer, event) {
        Ack(destination, [event]);
        assert rows == before[k := Acked(before[k])];
        return true;
      }
      var ok;
      if Rejects(answer, event) {
        ok := GiveUp(destination, event, "invalid_event");
      } else {
        ok := Fail(destination, event, if answer.SendFailed? then "send_error" else "send_failed", now);
      }
      return false;
    }

    /**
     The batch is the earliest due rows, unless there are no exportable fields or the leasing fails (`leasing`). The
     rows before the one at which the storage fails (`breaks`) are settled by the answer; the others are left to their
     leases, and are due again when these expire. Without a storage error every leased row is settled, also when
     sending failed, and none is left being sent. No row is created, lost or otherwise touched.
     */
    method Drain(destination: string, fields: seq<string>, limit: int, now: int, answer: Answer, leasing: bool,
                 breaks: Option<nat>)
      returns (delivered: nat, ok: bool, ids: seq<string>, settled: nat)
      requires Valid()
      modifies this
      ensures Valid() && rows.Keys == old(rows).Keys
      ensures if fields != [] && leasing then Selects(ids, old(rows), destination, limit, now) else ids == []
      ensures settled == if breaks.Some? && breaks.value < |ids| then breaks.value else |ids|
      ensures delivered == |AcceptedIn(ids[..settled], answer)|
      ensures ok <==> fields != [] && leasing && settled == |ids| && (ids == [] || answer.Answered?)
      ensures forall i :: 0 <= i < |ids| ==>
                var k := Key(destination, ids[i]);
                && k in rows && leases[k] == old(leases)[k] + 1
                && (i < settled ==> Settled(old(rows)[k], rows[k], ids[i], answer, now) && broken[k] == old(broken)[k])
                && (i >= settled ==> rows[k] == Leased(old(rows)[k], now) && broken[k] == old(broken)[k] + 1)
      ensures forall k :: k in rows && !(k.destination == destination && k.event in ids) ==>
                rows[k] == old(rows)[k] && leases[k] == old(leases)[k] && broken[k] == old(broken)[k]
      ensures breaks.None? ==> forall i :: 0 <= i < |ids| ==> rows[Key(destination, ids[i])].state != Sending
      ensures Step(old(rows), Round(rows, KeysOf(destination, ids[..settled]), KeysOf(destination, ids[settled..]),
                                    answer, now))
    {
      hide Selects, Settled, Due, Sound, AcceptedOf, Leased, LeasesOf, LeasedIn, Counted, Step;
      NothingAccepted(answer);
      if fields == [] || !leasing {
        NothingDrained(rows, destination, answer, now);
        return 0, false, [], 0;
      }
      ghost var before := rows;
      ids := Lease(destination, limit, now);
      SelectedExist(ids, before, destination, limit, now);
      LeasedAre(before, destination, ids, now);
      delivered, settled := SettleAll(destination, ids, answer, now, breaks);
      ok := settled == |ids| && (ids == [] || answer.Answered?);
      DrainCounts(before, rows, leases, broken, destination, ids, settled, answer, now);
      leases := Bumped(leases, destination, ids);
      broken := Bumped(broken, destination, ids[settled..]);
      DrainIsStep(before, rows, destination, ids, settled, answer, now);
      NoneSending(before, rows, destination, ids, settled, answer, now);
      AcceptedAre(ids[..settled], answer);
    }

    /** The batch, row by row; a storage error ends it early. */
    method SettleAll(destination: string, ids: seq<string>, answer: Answer, now: int, breaks: Option<nat>)
      returns (delivered: nat, settled: nat)
      requires forall i :: 0 <= i < |ids| ==>
                 Key(destination, ids[i]) in rows && rows[Key(destination, ids[i])].state == Sending
      requires forall i, j :: 0 <= i < j < |ids| ==> ids[i] != ids[j]
      modifies this`rows
      ensures settled == if breaks.Some? && breaks.value < |ids| then breaks.value else |ids|
      ensures delivered == AcceptedOf(ids[..settled], answer)
      ensures SettledUpTo(old(rows), rows, destination, ids, settled, answer, now)
    {
      hide Settled, Accepts, SettledUpTo;
      delivered, settled := 0, 0;
      NoneSettled(rows, destination, ids, answer, now);
      while settled < |ids|
        invariant settled <= |ids| && SettledUpTo(old(rows), rows, destination, ids, settled, answer, now)
        invariant delivered == AcceptedOf(ids[..settled], answer)
        invariant breaks.Some? ==> settled <= breaks.value
      {
        if breaks == Some(settled) {
          return;
        }
        NotYetSettled(old(rows), rows, destination, ids, settled, answer, now);
        ghost var before := rows;
        var accepted := Settle(destination, ids[settled], answer, now);
        OneMoreSettled(old(rows), before, rows, destination, ids, settled, answer, now);
        assert ids[..settled + 1][..settled] == ids[..settled];
        if accepted {
          delivered := delivered + 1;
        }
        settled := settled + 1;
      }
    }
  }

  /** The first `n` of a batch are settled, and no other row has changed. */
  ghost predicate SettledUpTo(before: Table, after: Table, destination: string, ids: seq<string>, n: nat,
                              answer: Answer, now: int)
    requires n <= |ids|
  {
    && after.Keys == before.Keys
    && (forall k :: k in after && !(k.destination == destination && k.event in ids[..n]) ==> after[k] == before[k])
    && (forall i :: 0 <= i < n ==>
          var k := Key(destination, ids[i]);
          k in before && k in after && Settled(before[k], after[k], ids[i], answer, now))
  }

  lemma NoneSettled(t: Table, destination: string, ids: seq<string>, answer: Answer, now: int)
    ensures SettledUpTo(t, t, destination, ids, 0, answer, now) && AcceptedOf(ids[..0], answer) == 0
  {
  }

  lemma NotYetSettled(before: Table, after: Table, destination: string, ids: seq<string>, n: nat, answer: Answer,
                      now: int)
    requires n < |ids| && SettledUpTo(before, after, destination, ids, n, answer, now)
    requires Key(destination, ids[n]) in before && forall i, j :: 0 <= i < j < |ids| ==> ids[i] != ids[j]
    ensures Key(destination, ids[n]) in after && after[Key(destination, ids[n])] == before[Key(destination, ids[n])]
  {
  }

  lemma OneMoreSettled(before: Table, middle: Table, after: Table, destination: string, ids: seq<string>, n: nat,
                       answer: Answer, now: int)
    requires n < |ids| && SettledUpTo(before, middle, destination, ids, n, answer, now)
    requires forall i, j :: 0 <= i < j < |ids| ==> ids[i] != ids[j]
    requires var k := Key(destination, ids[n]);
             && k in before && k in middle && k in after && middle[k] == before[k] && after == middle[k := after[k]]
             && Settled(before[k], after[k], ids[n], answer, now)
    ensures SettledUpTo(before, after, destination, ids, n + 1, answer, now)
  {
    hide Settled;
    var last := Key(destination, ids[n]);
    forall k | k in after && !(k.destination == destination && k.event in ids[..n + 1])
      ensures after[k] == before[k]
    {
      InOneMore(ids, n, k.event);
      assert k != last;
      assert after[k] == middle[k];
    }
    forall i | 0 <= i < n + 1
      ensures var k := Key(destination, ids[i]);
              k in before && k in after && Settled(before[k], after[k], ids[i], answer, now)
    {
      if i < n {
        var k := Key(destination, ids[i]);
        assert k != last && after[k] == middle[k];
      }
    }
  }

  lemma InOneMore(ids: seq<string>, n: nat, e: string)
    requires n < |ids|
    ensures e in ids[..n + 1] <==> e in ids[..n] || e == ids[n]
  {
    assert ids[..n + 1] == ids[..n] + [ids[n]];
  }

  ghost function Bumped(counts: map<Key, nat>, destination: string, ids: seq<string>): map<Key, nat> {
    map k | k in counts :: if k.destination == destination && k.event in ids then counts[k] + 1 else counts[k]
  }

  ghost predicate Counted(rows: Table, leases: map<Key, nat>, broken: map<Key, nat>) {
    && leases.Keys == rows.Keys == broken.Keys
    && forall k :: k in rows ==> Sound(rows[k]) && leases[k] == LeasesOf(rows[k]) + broken[k]
  }

  lemma LeasedAre(before: Table, destination: string, ids: seq<string>, now: int)
    requires forall i :: 0 <= i < |ids| ==> Key(destination, ids[i]) in before
    ensures forall i :: 0 <= i < |ids| ==>
              var k := Key(destination, ids[i]); var t := LeasedIn(before, destination, ids, now);
              k in t && t[k] == Leased(before[k], now) && t[k].state == Sending
    ensures LeasedIn(before, destination, ids, now).Keys == before.Keys
    ensures forall k :: k in before && !(k.destination == destination && k.event in ids) ==>
              LeasedIn(before, destination, ids, now)[k] == before[k]
  {
    assert forall i :: 0 <= i < |ids| ==> ids[i] in ids;
  }

  /** Leasing a batch of due rows and settling its beginning leaves all rows sound and all counts right. */
  lemma DrainCounts(before: Table, after: Table, leases: map<Key, nat>, broken: map<Key, nat>, destination: string,
                    ids: seq<string>, settled: nat, answer: Answer, now: int)
    requires Counted(before, leases, broken) && after.Keys == before.Keys && settled <= |ids|
    requires forall i, j :: 0 <= i < j < |ids| ==> ids[i] != ids[j]
    requires forall k :: k in after && !(k.destination == destination && k.event in ids) ==> after[k] == before[k]
    requires forall i :: 0 <= i < |ids| ==>
               var k := Key(destination, ids[i]);
               && k in before && Due(before[k], now)
               && if i < settled then Settled(Leased(before[k], now), after[k], ids[i], answer, now)
                   else after[k] == Leased(before[k], now)
    ensures Counted(after, Bumped(leases, destination, ids), Bumped(broken, destination, ids[settled..]))
    ensures forall i :: 0 <= i < settled ==> var k := Key(destination, ids[i]);
        Settled(before[k], after[k], ids[i], answer, now)
    ensures forall i :: 0 <= i < |ids| ==> (ids[i] in ids[settled..] <==> settled <= i)
  {
    hide Sound, Settled, Due, Leased, LeasesOf;
    forall i | 0 <= i < |ids|
      ensures ids[i] in ids[settled..] <==> settled <= i
    {
      assert settled <= i ==> ids[settled..][i - settled] == ids[i];
    }
    forall i | 0 <= i < |ids|
      ensures var k := Key(destination, ids[i]);
              && Sound(after[k]) && (i < settled ==> Settled(before[k], after[k], ids[i], answer, now))
              && LeasesOf(after[k]) == LeasesOf(before[k]) + if i < settled then 1 else 0
    {
      OneDrained(before[Key(destination, ids[i])], after[Key(destination, ids[i])], ids[i], answer, now, i < settled);
    }
    forall k | k in after
      ensures Sound(after[k])
      ensures Bumped(leases, destination, ids)[k] == LeasesOf(after[k]) + Bumped(broken, destination, ids[settled..])[k]
    {
      if k.destination == destination && k.event in ids {
        var i :| 0 <= i < |ids| && ids[i] == k.event;
        assert k == Key(destination, ids[i]);
      }
    }
  }

  function AcceptedOf(ids: seq<string>, answer: Answer): nat {
    if ids == [] then 0
    else AcceptedOf(ids[..|ids| - 1], answer) + if Accepts(answer, ids[|ids| - 1]) then 1 else 0
  }

  ghost function AcceptedIn(ids: seq<string>, answer: Answer): set<string> {
    set e | e in ids && Accepts(answer, e)
  }

  /** In a batch without repeats the count is the number of accepted events. */
  lemma {:induction false} AcceptedAre(ids: seq<string>, answer: Answer)
    requires forall i, j :: 0 <= i < j < |ids| ==> ids[i] != ids[j]
    ensures AcceptedOf(ids, answer) == |AcceptedIn(ids, answer)|
    decreases |ids|
  {
    hide Accepts;
    if ids == [] {
    } else {
      var init, last := ids[..|ids| - 1], ids[|ids| - 1];
      assert ids == init + [last] && last !in init;
      AcceptedAre(init, answer);
      if Accepts(answer, last) {
        assert AcceptedIn(ids, answer) == AcceptedIn(init, answer) + {last};
      } else {
        assert AcceptedIn(ids, answer) == AcceptedIn(init, answer);
      }
    }
  }

  lemma NothingAccepted(answer: Answer)
    ensures AcceptedOf([], answer) == 0
  {
  }

  lemma SelectedExist(ids: seq<string>, t: Table, destination: string, limit: int, now: int)
    requires Selects(ids, t, destination, limit, now)
    ensures forall i :: 0 <= i < |ids| ==> Key(destination, ids[i]) in t && Due(t[Key(destination, ids[i])], now)
    ensures forall i, j :: 0 <= i < j < |ids| ==> ids[i] != ids[j]
  {
  }

  // ---------------------------------------------------------------- every run of drains

  predicate Live(row: Row) { row.state == Pending || row.state == Retryable || row.state == Sending }

  /** Live rows have attempts left, and a row that is being sent has a lease that ends. */
  predicate Sound(row: Row) {
    && (Live(row) || row.state == Delivered ==> row.attempts < MAX_ATTEMPTS)
    && row.attempts <= MAX_ATTEMPTS
    && (row.state == Sending ==> row.leaseUntil.Some?)
  }

  /** The leases that were settled. */
  function LeasesOf(row: Row): nat { row.attempts + if row.state == Delivered then 1 else 0 }

  function Budget(row: Row): int { if Live(row) then MAX_ATTEMPTS - row.attempts else 0 }

  lemma OneDrained(before: Row, after: Row, event: string, answer: Answer, now: int, settled: bool)
    requires Sound(before) && Due(before, now)
    requires if settled then Settled(Leased(before, now), after, event, answer, now) else after == Leased(before, now)
    ensures Sound(after) && (settled ==> Settled(before, after, event, answer, now))
    ensures LeasesOf(after) == LeasesOf(before) + if settled then 1 else 0
  {
  }

  /** A settlement uses up some of what a due row has left, and leaves live rows below ten attempts. */
  lemma SettlingEndsRows(before: Row, after: Row, event: string, answer: Answer, now: int)
    requires Sound(before) && Due(before, now) && Settled(before, after, event, answer, now)
    ensures Sound(after) && after.state != Sending && 0 <= Budget(after) < Budget(before)
    ensures LeasesOf(after) == LeasesOf(before) + 1
  {
  }

  /** Nothing is stuck: a live row is due once its backoff, or the lease somebody left it with, is over. */
  lemma LiveRowsComeBack(row: Row, now: int)
    requires Sound(row) && Live(row)
    requires now > if row.state == Sending then row.leaseUntil.value else row.nextAttempt
    ensures Due(row, now)
  {
  }

  /** A row is leased only when its turn has come: never while its backoff or somebody's lease of it lasts. */
  lemma DueExactlyWhen(row: Row, now: int)
    ensures Due(row, now) <==>
        match row.state
        case Pending => row.nextAttempt <= now
        case Retryable => row.nextAttempt <= now
        case Sending => row.leaseUntil != None && row.leaseUntil.value < now
        case _ => false
  {
  }

  /** One drain of a run: some due rows are settled, some are left to their leases, others stay, new ones may appear. */
  datatype Round = Round(after: Table, batch: set<Key>, dropped: set<Key>, answer: Answer, now: int)

  ghost predicate Step(before: Table, d: Round) {
    && (forall k :: k in before ==> k in d.after) && d.batch !! d.dropped
    && (forall k :: k in d.batch ==>
        k in before && Due(before[k], d.now) && Settled(before[k], d.after[k], k.event, d.answer, d.now))
    && (forall k :: k in d.dropped ==> k in before && Due(before[k], d.now) && d.after[k] == Leased(before[k], d.now))
    && (forall k :: k in before && k !in d.batch && k !in d.dropped ==> d.after[k] == before[k])
    && (forall k :: k in d.after && k !in before ==> d.after[k].state == Pending && d.after[k].attempts == 0)
  }

  function KeysOf(destination: string, ids: seq<string>): set<Key> { set e | e in ids :: Key(destination, e) }

  lemma NothingDrained(t: Table, destination: string, answer: Answer, now: int)
    ensures Step(t, Round(t, KeysOf(destination, []), KeysOf(destination, []), answer, now))
  {
  }

  lemma DrainIsStep(before: Table, after: Table, destination: string, ids: seq<string>, settled: nat, answer: Answer,
                    now: int)
    requires settled <= |ids| && after.Keys == before.Keys
    requires forall i :: 0 <= i < |ids| ==>
               var k := Key(destination, ids[i]);
               && k in before && Due(before[k], now)
               && (i < settled ==> Settled(before[k], after[k], ids[i], answer, now))
               && (i >= settled ==> after[k] == Leased(before[k], now))
    requires forall k :: k in after && !(k.destination == destination && k.event in ids) ==> after[k] == before[k]
    requires forall i :: 0 <= i < |ids| ==> (ids[i] in ids[settled..] <==> settled <= i)
    ensures Step(before, Round(after, KeysOf(destination, ids[..settled]), KeysOf(destination, ids[settled..]), answer,
                               now))
  {
    hide Due, Settled, Leased;
    forall e | e in ids[..settled]
      ensures exists i :: 0 <= i < settled && ids[i] == e && e !in ids[settled..]
    {
      var i :| 0 <= i < settled && ids[..settled][i] == e;
      assert ids[i] == e;
    }
    forall e | e in ids[settled..]
      ensures exists i :: settled <= i < |ids| && ids[i] == e
    {
      var i :| 0 <= i < |ids| - settled && ids[settled..][i] == e;
      assert ids[settled + i] == e;
    }
    assert ids == ids[..settled] + ids[settled..];
  }

  /** A settled row is not being sent. */
  lemma NoneSending(before: Table, after: Table, destination: string, ids: seq<string>, settled: nat, answer: Answer,
                    now: int)
    requires forall i :: 0 <= i < settled <= |ids| ==>
               var k := Key(destination, ids[i]);
               k in before && k in after && Settled(before[k], after[k], ids[i], answer, now)
    ensures forall i :: 0 <= i < settled <= |ids| ==> after[Key(destination, ids[i])].state != Sending
  {
  }

  ghost predicate Run(start: Table, drains: seq<Round>)
    decreases |drains|
  {
    drains == [] || (Step(start, drains[0]) && Run(drains[0].after, drains[1..]))
  }

  function End(start: Table, drains: seq<Round>): Table { if drains == [] then start else drains[|drains| - 1].after }

  function TimesSettled(drains: seq<Round>, k: Key): nat {
    if drains == [] then 0 else (if k in drains[0].batch then 1 else 0) + TimesSettled(drains[1..], k)
  }

  function TimesDropped(drains: seq<Round>, k: Key): nat {
    if drains == [] then 0 else (if k in drains[0].dropped then 1 else 0) + TimesDropped(drains[1..], k)
  }

  /** Each drain of the run leased the row at most once. */
  function TimesLeased(drains: seq<Round>, k: Key): nat { TimesSettled(drains, k) + TimesDropped(drains, k) }

  ghost predicate AllSound(t: Table) { forall k :: k in t ==> Sound(t[k]) }

  lemma StepIsSound(before: Table, d: Round)
    requires AllSound(before) && Step(before, d)
    ensures AllSound(d.after)
    ensures forall k :: k in d.after ==>
              LeasesOf(d.after[k]) == (if k in before then LeasesOf(before[k]) else 0) + if k in d.batch then 1 else 0
  {
    hide Settled, Due, Sound, LeasesOf;
    forall k | k in d.after
      ensures Sound(d.after[k])
      ensures LeasesOf(d.after[k]) == (if k in before then LeasesOf(before[k]) else 0) + if k in d.batch then 1 else 0
    {
      if k in d.batch {
        SettlingEndsRows(before[k], d.after[k], k.event, d.answer, d.now);
      } else if k in d.dropped {
        OneDrained(before[k], d.after[k], k.event, d.answer, d.now, false);
      } else if k !in before {
        NewRowIsSound(d.after[k]);
      }
    }
  }

  lemma NewRowIsSound(row: Row)
    requires row.state == Pending && row.attempts == 0
    ensures Sound(row) && LeasesOf(row) == 0
  {
  }

  lemma SoundIsBounded(t: Table, k: Key)
    requires AllSound(t) && k in t
    ensures LeasesOf(t[k]) <= MAX_ATTEMPTS
  {
  }

  /**
   Over any run, however long, the settled leases of a row are its attempts plus its delivery; so it is leased at most
   ten times more often than drains broke off before they got to it.
   */
  lemma {:induction false} LeasedAtMostTenTimes(start: Table, drains: seq<Round>, k: Key)
    requires AllSound(start) && Run(start, drains)
    ensures AllSound(End(start, drains))
    ensures k in start ==>
        k in End(start, drains) && TimesSettled(drains, k) == LeasesOf(End(start, drains)[k]) - LeasesOf(start[k])
    ensures k !in start && k in End(start, drains) ==> TimesSettled(drains, k) == LeasesOf(End(start, drains)[k])
    ensures k !in End(start, drains) ==> TimesLeased(drains, k) == 0
    ensures TimesLeased(drains, k) <= 10 + TimesDropped(drains, k)
    ensures (forall i :: 0 <= i < |drains| ==> drains[i].dropped == {}) ==> TimesDropped(drains, k) == 0
    decreases |drains|
  {
    hide AllSound, LeasesOf;
    if drains == [] {
    } else {
      StepIsSound(start, drains[0]);
      LeasedAtMostTenTimes(drains[0].after, drains[1..], k);
      assert forall i :: 0 <= i < |drains| - 1 ==> drains[1..][i] == drains[i + 1];
      assert End(start, drains) == End(drains[0].after, drains[1..]);
      if k in End(start, drains) {
        SoundIsBounded(End(start, drains), k);
      }
    }
  }

  /** Between two drains of a run nobody leased the row. */
  ghost predicate LeftAlone(drains: seq<Round>, k: Key) {
    forall i :: 0 <= i < |drains| ==> k !in drains[i].batch && k !in drains[i].dropped
  }

  lemma {:induction false} LeftAloneStays(start: Table, drains: seq<Round>, k: Key)
    requires Run(start, drains) && k in start && LeftAlone(drains, k)
    ensures k in End(start, drains) && End(start, drains)[k] == start[k]
    decreases |drains|
  {
    if drains == [] {
    } else {
      assert forall i :: 0 <= i < |drains| - 1 ==> drains[1..][i] == drains[i + 1];
      LeftAloneStays(drains[0].after, drains[1..], k);
      assert End(start, drains) == End(drains[0].after, drains[1..]);
    }
  }

  /**
   However many drains come between: a row whose sending failed is not leased again before 2^attempts seconds are over,
   and one that a broken drain left behind not before its five minutes are.
   */
  lemma NextLeaseWaits(before: Table, first: Round, between: seq<Round>, next: Round, k: Key)
    requires Step(before, first) && Run(first.after, between) && Step(End(first.after, between), next)
    requires (k in first.batch || k in first.dropped) && LeftAlone(between, k)
    requires k in next.batch || k in next.dropped
    ensures k in before && k in first.after
    ensures k in first.batch ==>
              && first.after[k].state == Retryable && first.after[k].attempts == before[k].attempts + 1
              && next.now >= first.now + Pow2(first.after[k].attempts) * 1_000_000_000
    ensures k in first.dropped ==> next.now > first.now + 300_000_000_000
  {
    LeftAloneStays(first.after, between, k);
    hide Pow2;
    var row := End(first.after, between)[k];
    DueExactlyWhen(row, next.now);
    assert row == first.after[k];
  }

  /** The backoff doubles with every attempt. */
  lemma BackoffDoubles(n: nat)
    ensures Pow2(0) == 1 && Pow2(n + 1) == 2 * Pow2(n)
  {
  }

  /** What is delivered or given up stays so over any run of drains. */
  lemma {:induction false} SettledForGood(start: Table, drains: seq<Round>, k: Key)
    requires Run(start, drains) && k in start && !Live(start[k])
    ensures k in End(start, drains) && End(start, drains)[k] == start[k] && TimesLeased(drains, k) == 0
    decreases |drains|
  {
    if drains == [] {
    } else {
      SettledForGood(drains[0].after, drains[1..], k);
      assert End(start, drains) == End(drains[0].after, drains[1..]);
    }
  }

  // ---------------------------------------------------------------- several drainers

  /** What a failure report read in its first statement. */
  datatype Report = Report(read: nat, code: string)

  /**
   One row and the drainers at work on it: the failure reports that have read and not yet written, which of them were
   overtaken since by a write of attempts, and when the lease ends on which a drainer has the row.
   */
  datatype Shared = Shared(row: Row, reports: map<nat, Report>, overtaken: set<nat>, held: map<nat, int>)

  /** What a drainer does to the row, at some time; a failure report is two statements. */
  datatype Operation =
    | LeaseIt(drainer: nat, at: int, now: int)
    | AckIt(drainer: nat, at: int)
    | ReadIt(drainer: nat, at: int, code: string)
    | WriteIt(drainer: nat, at: int, now: int, jitter: nat)
    | GiveUpOn(drainer: nat, at: int, code: string)

  function Applied(s: Shared, op: Operation): Shared {
    var d := op.drainer;
    match op
    case LeaseIt(_, _, now) =>
      if Due(s.row, now) then
        Shared(Leased(s.row, now), s.reports - {d}, s.overtaken, s.held[d := now + LEASE_DURATION])
      else s
    case AckIt(_, _) => s.(row := Acked(s.row), held := s.held - {d})
    case ReadIt(_, _, code) =>
      if ValidCode(code) then
        s.(reports := s.reports[d := Report(s.row.attempts, code)], overtaken := s.overtaken - {d})
      else s
    case WriteIt(_, _, now, jitter) =>
      if d in s.reports then
        Shared(Failed(s.row, s.reports[d].read, s.reports[d].code, now, jitter), s.reports - {d}, s.reports.Keys,
               s.held - {d})
      else s
    case GiveUpOn(_, _, code) =>
      if ValidCode(code) && s.row.state == Sending then
        Shared(GivenUp(s.row, code), s.reports, s.reports.Keys, s.held - {d})
      else s
  }

  function AppliedAll(s: Shared, ops: seq<Operation>): Shared
    decreases |ops|
  {
    if ops == [] then s else AppliedAll(Applied(s, ops[0]), ops[1..])
  }

  /** The row is as it was after every one of the operations. */
  ghost predicate Untouched(s: Shared, ops: seq<Operation>)
    decreases |ops|
  {
    ops == [] || (Applied(s, ops[0]).row == s.row && Untouched(Applied(s, ops[0]), ops[1..]))
  }

  /** A failure report comes to its second statement. */
  predicate Reports(s: Shared, op: Operation) { op.WriteIt? && op.drainer in s.reports }

  ghost predicate NoneReports(s: Shared, ops: seq<Operation>)
    decreases |ops|
  {
    ops == [] || (!Reports(s, ops[0]) && NoneReports(Applied(s, ops[0]), ops[1..]))
  }

  /** In any interleaving a delivered row is never touched again exactly when nobody reports its failure. */
  lemma {:induction false} DeliveredIsFinalExactlyWhen(s: Shared, ops: seq<Operation>)
    requires s.row.state == Delivered
    ensures Untouched(s, ops) <==> NoneReports(s, ops)
    decreases |ops|
  {
    if ops == [] {
    } else if !Reports(s, ops[0]) {
      DeliveredIsFinalExactlyWhen(Applied(s, ops[0]), ops[1..]);
    }
  }

  /** The settlements among the operations that cost the row an attempt: its failure reports, and giving it up. */
  function Disposals(s: Shared, ops: seq<Operation>): nat
    decreases |ops|
  {
    if ops == [] then 0
    else
      var costs := Reports(s, ops[0]) || (ops[0].GiveUpOn? && ValidCode(ops[0].code) && s.row.state == Sending);
      (if costs then 1 else 0) + Disposals(Applied(s, ops[0]), ops[1..])
  }

  /** Nobody wrote attempts between the two statements of a report, for any of the reports. */
  ghost predicate NoneOvertaken(s: Shared, ops: seq<Operation>)
    decreases |ops|
  {
    ops == []
    || ((Reports(s, ops[0]) ==> ops[0].drainer !in s.overtaken) && NoneOvertaken(Applied(s, ops[0]), ops[1..]))
  }

  /** What a report read is what the row has, or less if it was overtaken. */
  ghost predicate ReadsAreKnown(s: Shared) {
    forall d :: d in s.reports ==>
      if d in s.overtaken then s.reports[d].read < s.row.attempts else s.reports[d].read == s.row.attempts
  }

  ghost predicate Below(s: Shared, bound: nat) {
    s.row.attempts <= bound && forall d :: d in s.reports ==> s.reports[d].read <= bound
  }

  /** No settlement ever costs more than one attempt. */
  lemma {:induction false} AttemptsStayBelow(s: Shared, ops: seq<Operation>, bound: nat)
    requires Below(s, bound)
    ensures AppliedAll(s, ops).row.attempts <= bound + Disposals(s, ops)
    decreases |ops|
  {
    if ops == [] {
    } else {
      var after := Applied(s, ops[0]);
      var more := Disposals(s, ops) - Disposals(after, ops[1..]);
      assert Below(after, bound + more);
      AttemptsStayBelow(after, ops[1..], bound + more);
    }
  }

  /**
   In any interleaving the row ends with at most one attempt more for each settlement that failed or gave it up, and
   with exactly that many exactly if no report was overtaken between its two statements.
   */
  lemma {:induction false} AttemptsCountExactlyWhen(s: Shared, ops: seq<Operation>)
    requires ReadsAreKnown(s)
    ensures AppliedAll(s, ops).row.attempts <= s.row.attempts + Disposals(s, ops)
    ensures AppliedAll(s, ops).row.attempts == s.row.attempts + Disposals(s, ops) <==> NoneOvertaken(s, ops)
    decreases |ops|
  {
    if ops == [] {
    } else {
      var after := Applied(s, ops[0]);
      if Reports(s, ops[0]) && ops[0].drainer in s.overtaken {
        assert Below(after, s.row.attempts);
        AttemptsStayBelow(after, ops[1..], s.row.attempts);
      } else {
        AttemptsCountExactlyWhen(after, ops[1..]);
      }
    }
  }

  // ---------------------------------------------------------------- what leases are for

  /** The drainer leases the row now, or settles it while its lease of it lasts. */
  predicate InTime(s: Shared, op: Operation) {
    if op.LeaseIt? then op.now <= op.at else op.drainer in s.held && op.at <= s.held[op.drainer]
  }

  /** One clock orders the operations, and every drainer settles the row within its own lease, once. */
  ghost predicate Timely(s: Shared, ops: seq<Operation>, clock: int)
    decreases |ops|
  {
    ops == []
    || (clock <= ops[0].at && InTime(s, ops[0]) && Timely(Applied(s, ops[0]), ops[1..], ops[0].at))
  }

  /** One drainer at most has a lease that lasts; the row is being sent on it, and its report was not overtaken. */
  ghost predicate OneHolder(s: Shared, clock: int) {
    && (forall d :: d in s.held && clock <= s.held[d] ==>
          s.row.state == Sending && s.row.leaseUntil == Some(s.held[d]) && !(d in s.reports && d in s.overtaken))
    && (forall d, e :: d in s.held && e in s.held && clock <= s.held[d] && clock <= s.held[e] ==> d == e)
  }

  lemma OneHolderStays(s: Shared, op: Operation, clock: int)
    requires OneHolder(s, clock) && clock <= op.at && InTime(s, op)
    ensures OneHolder(Applied(s, op), op.at)
    ensures Reports(s, op) ==> op.drainer !in s.overtaken
    ensures !op.LeaseIt? ==> s.row.state == Sending
  {
  }

  /**
   While every drainer settles within its own lease, no report is overtaken, so each costs exactly one attempt, and what
   is delivered or given up is never touched again.
   */
  lemma {:induction false} LeasesKeepDrainersApart(s: Shared, ops: seq<Operation>, clock: int)
    requires OneHolder(s, clock) && ReadsAreKnown(s) && Timely(s, ops, clock)
    ensures NoneOvertaken(s, ops)
    ensures AppliedAll(s, ops).row.attempts == s.row.attempts + Disposals(s, ops)
    ensures s.row.state == Delivered || s.row.state == DeadLetter ==> Untouched(s, ops)
    decreases |ops|
  {
    hide OneHolder, ReadsAreKnown;
    NobodyOvertaken(s, ops, clock);
    AttemptsCountExactlyWhen(s, ops);
    if ops == [] {
    } else {
      OneHolderStays(s, ops[0], clock);
      KnownStays(s, ops[0]);
      LeasesKeepDrainersApart(Applied(s, ops[0]), ops[1..], ops[0].at);
    }
  }

  lemma {:induction false} NobodyOvertaken(s: Shared, ops: seq<Operation>, clock: int)
    requires OneHolder(s, clock) && Timely(s, ops, clock)
    ensures NoneOvertaken(s, ops)
    decreases |ops|
  {
    hide OneHolder;
    if ops == [] {
    } else {
      OneHolderStays(s, ops[0], clock);
      NobodyOvertaken(Applied(s, ops[0]), ops[1..], ops[0].at);
    }
  }

  lemma KnownStays(s: Shared, op: Operation)
    requires ReadsAreKnown(s) && (Reports(s, op) ==> op.drainer !in s.overtaken)
    ensures ReadsAreKnown(Applied(s, op))
  {
  }

  // ---------------------------------------------------------------- what happens without them

  /** A row nobody is at work on. */
  function Alone(row: Row): Shared { Shared(row, map[], {}, map[]) }

  /** Two drainers lease a row one after the other, and the first one's lease is over when the second one has it. */
  function LeasedTwice(row: Row, now: int): Shared {
    Applied(Applied(Alone(row), LeaseIt(0, now, now)),
            LeaseIt(1, now + LEASE_DURATION + 1, now + LEASE_DURATION + 1))
  }

  /** The interleaving that reopens a delivered row: the second drainer delivers it, and the first one reports late. */
  lemma LateFailureReopens(row: Row, now: int)
    requires row.state == Pending && row.nextAttempt <= now && row.attempts + 1 < MAX_ATTEMPTS
    ensures var late := now + LEASE_DURATION + 1;
            var delivered := Applied(LeasedTwice(row, now), AckIt(1, late));
            var reported := Applied(Applied(delivered, ReadIt(0, late, "send_error")), WriteIt(0, late, late, 0));
            delivered.row.state == Delivered && reported.row.state == Retryable
  {
  }

  /** Two failure reports that both read before either wrote cost one attempt together. */
  lemma InterleavedFailuresLoseAnAttempt(row: Row, now: int)
    requires row.state == Pending && row.nextAttempt <= now && row.attempts + 1 < MAX_ATTEMPTS
    ensures var late := now + LEASE_DURATION + 1;
            var both := Applied(Applied(LeasedTwice(row, now), ReadIt(0, late, "send_error")),
                                ReadIt(1, late, "send_error"));
            Applied(Applied(both, WriteIt(0, late, late, 0)), WriteIt(1, late, late, 0)).row.attempts
            == row.attempts + 1
  {
  }
}
