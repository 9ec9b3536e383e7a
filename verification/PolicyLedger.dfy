/**
 The reserve/settle ledger of policy runs.

 `policy_runs` keeps one row of running totals per run, `policy_reservations` one row per admitted call. A call is
 reserved with its estimate and later settled with what it used. Money is a real number; int64 sums are checked.
 */
module PolicyLedger {
  import opened Wrappers

  const MAX_INT64: int := 0x7fff_ffff_ffff_ffff
  const NANOS_PER_SECOND: int := 1_000_000_000

  /**
   A cost column or argument: empty, a text that is no rational number, or the number it spells. `plain` texts match the
   decimal grammar of limits and estimates; others, such as "1/3", only the more liberal parser of stored costs reads.
   */
  datatype CostText = Unset | Malformed | Decimal(value: real, plain: bool)

  function PolicyDecimal(text: CostText): Option<real> {
    match text
    case Unset => Some(0.0)
    case Malformed => None
    case Decimal(value, _) => if value < 0.0 then None else Some(value)
  }

  datatype Usage = Usage(input: int, output: int, tools: int, cost: real)

  const ZERO := Usage(0, 0, 0, 0.0)

  /** Zero means no cap, and so does an unset cost. */
  datatype Caps = Caps(calls: int, input: int, output: int, total: int, tools: int, seconds: int, cost: CostText)

  datatype RunTotals = RunTotals(startedAt: int, calls: int, usage: Usage)

  datatype Reservation = Reservation(runId: string, usage: Usage, reconciled: bool)

  datatype Ledger = Ledger(runs: map<string, RunTotals>, reservations: map<string, Reservation>)

  datatype PolicyReserve = PolicyReserve(runId: string, reservationId: string, startedAt: int, now: int,
                                         input: int, output: int, tools: int, cost: CostText, caps: Caps)

  /** -1 tokens and an unset cost mean unavailable: the reserved estimate stays. */
  datatype PolicyOutcome = PolicyOutcome(runId: string, reservationId: string,
                                         input: int, output: int, tools: int, cost: CostText)

  datatype Limit = DurationLimit | CallLimit | InputLimit | OutputLimit | TotalLimit | ToolLimit | CostLimit

  datatype ReserveReply = Allowed(attempt: int) | Blocked(limit: Limit, attempt: int, threshold: int) | Failed

  function Total(values: seq<int>): int {
    if values == [] then 0 else values[0] + Total(values[1..])
  }

  /** The sum, when no term is negative and it fits in an int64. */
  function SumWithin(values: seq<int>): Option<int> {
    if (forall i :: 0 <= i < |values| ==> 0 <= values[i]) && Total(values) <= MAX_INT64 then Some(Total(values))
        else None
  }

  lemma {:induction false} TotalAppend(values: seq<int>, k: nat)
    requires k < |values|
    ensures Total(values[..k + 1]) == Total(values[..k]) + values[k]
  {
    if k == 0 {
    } else {
      TotalAppend(values[1..], k - 1);
      assert values[..k + 1][1..] == values[1..][..k] && values[..k][1..] == values[1..][..k - 1];
    }
  }

  lemma {:induction false} TotalPrefix(values: seq<int>, k: nat)
    requires k <= |values| && forall i :: 0 <= i < |values| ==> 0 <= values[i]
    ensures 0 <= Total(values[..k]) <= Total(values)
    decreases |values|, k
  {
    if values == [] {
    } else if k == 0 {
      TotalPrefix(values[1..], 0);
    } else {
      TotalPrefix(values[1..], k - 1);
      assert values[..k][1..] == values[1..][..k - 1];
    }
  }

  /** The accumulating loop: it rejects exactly the sums that are negative somewhere or leave int64. */
  method CheckedAdd(values: seq<int>) returns (total: Option<int>)
    ensures total == SumWithin(values)
  {
    var sum := 0;
    for i := 0 to |values|
      invariant sum == Total(values[..i]) && 0 <= sum <= MAX_INT64
      invariant forall k :: 0 <= k < i ==> 0 <= values[k]
    {
      TotalAppend(values, i);
      if values[i] < 0 {
        return None;
      }
      if sum > MAX_INT64 - values[i] {
        if forall k :: 0 <= k < |values| ==> 0 <= values[k] {
          TotalPrefix(values, i + 1);
        }
        return None;
      }
      sum := sum + values[i];
    }
    assert values[..|values|] == values;
    return Some(sum);
  }

  /** The two-term case, in closed form. */
  function Added(a: int, b: int): Option<int> {
    if 0 <= a && 0 <= b && a + b <= MAX_INT64 then Some(a + b) else None
  }

  lemma AddedIsSumWithin(a: int, b: int)
    ensures Added(a, b) == SumWithin([a, b])
  {
    assert [a, b][1..] == [b] && [b][1..] == [];
    assert Total([a, b]) == a + (b + Total([]));
    assert [a, b][0] == a && [a, b][1] == b;
  }

  method CheckedSum(a: int, b: int) returns (total: Option<int>)
    ensures total == Added(a, b)
  {
    total := CheckedAdd([a, b]);
    AddedIsSumWithin(a, b);
  }

  /** int64 multiplication by one second, with wrap-around, against `time.Since`, which saturates. */
  function Wrap64(x: int): int { (x + MAX_INT64 + 1) % (2 * (MAX_INT64 + 1)) - (MAX_INT64 + 1) }

  function Saturate64(x: int): int {
    if x > MAX_INT64 then MAX_INT64 else if x < -MAX_INT64 - 1 then -MAX_INT64 - 1 else x
  }

  predicate TooLong(caps: Caps, startedAt: int, now: int) {
    caps.seconds > 0 && Saturate64(now - startedAt) > Wrap64(caps.seconds * NANOS_PER_SECOND)
  }

  /** The run's totals once the reservation is added; `None` on overflow. */
  function NextUsage(usage: Usage, r: PolicyReserve, cost: real): Option<Usage> {
    var input, output, tools := Added(usage.input, r.input), Added(usage.output, r.output), Added(usage.tools, r.tools);
    if input.None? || output.None? || tools.None? || Added(input.value, output.value).None? then None
    else Some(Usage(input.value, output.value, tools.value, usage.cost + cost))
  }

  /** The first cap, in the order they are tried, that the call would pass. */
  function FirstLimit(caps: Caps, run: RunTotals, next: Usage, now: int): Option<(Limit, int)> {
    if TooLong(caps, run.startedAt, now) then Some((DurationLimit, caps.seconds))
    else if caps.calls > 0 && run.calls >= caps.calls then Some((CallLimit, caps.calls))
    else if caps.input > 0 && next.input > caps.input then Some((InputLimit, caps.input))
    else if caps.output > 0 && next.output > caps.output then Some((OutputLimit, caps.output))
    else if caps.total > 0 && next.input + next.output > caps.total then Some((TotalLimit, caps.total))
    else if caps.tools > 0 && next.tools > caps.tools then Some((ToolLimit, caps.tools))
    else if caps.cost.Decimal? && next.cost > caps.cost.value then Some((CostLimit, 0))
    else None
  }

  function RunOf(l: Ledger, r: PolicyReserve): RunTotals {
    if r.runId in l.runs then l.runs[r.runId] else RunTotals(r.startedAt, 0, ZERO)
  }

  function Reserve(l: Ledger, r: PolicyReserve): (Ledger, ReserveReply) {
    if r.runId == "" || r.reservationId == "" || Added(r.input, r.output).None? || r.tools < 0
       || PolicyDecimal(r.cost).None? || PolicyDecimal(r.caps.cost).None? then (l, Failed)
    else
      var run := RunOf(l, r);
      var cost := PolicyDecimal(r.cost).value;
      var next := NextUsage(run.usage, r, cost);
      if next.None? || run.calls == MAX_INT64 then (l, Failed)
      else
        var limit := FirstLimit(r.caps, run, next.value, r.now);
        if limit.Some? then (l, Blocked(limit.value.0, run.calls + 1, limit.value.1))
        else if r.reservationId in l.reservations then (l, Failed)
        else
          (Ledger(l.runs[r.runId := RunTotals(run.startedAt, run.calls + 1, next.value)],
                  l.reservations[r.reservationId := Reservation(r.runId, Usage(r.input, r.output, r.tools, cost),
                      false)]),
           Allowed(run.calls + 1))
  }

  function OrKeep(actual: int, reserved: int): int { if actual >= 0 then actual else reserved }

  /** What the reservation becomes when the outcome is settled. */
  function Actual(held: Usage, o: PolicyOutcome): Option<Usage> {
    var cost := if o.cost.Unset? then Some(held.cost) else PolicyDecimal(o.cost);
    if cost.None? then None
    else Some(Usage(OrKeep(o.input, held.input), OrKeep(o.output, held.output), OrKeep(o.tools, held.tools),
        cost.value))
  }

  /** The run's totals with one reservation's old usage replaced; `None` on overflow or underflow. */
  function Resettled(usage: Usage, held: Usage, actual: Usage): Option<Usage> {
    if usage.input < held.input || usage.output < held.output || usage.tools < held.tools then None
    else
      var input := Added(usage.input - held.input, actual.input);
      var output := Added(usage.output - held.output, actual.output);
      var tools := Added(usage.tools - held.tools, actual.tools);
      if input.None? || output.None? || tools.None? || Added(input.value, output.value).None? then None
      else Some(Usage(input.value, output.value, tools.value, usage.cost - held.cost + actual.cost))
  }

  function Reconcile(l: Ledger, o: PolicyOutcome): (Ledger, bool) {
    if o.reservationId == "" || o.runId == "" || o.reservationId !in l.reservations
       || l.reservations[o.reservationId].runId != o.runId then (l, false)
    else
      var reservation := l.reservations[o.reservationId];
      if reservation.reconciled then (l, true)
      else if o.runId !in l.runs then (l, false)
      else
        var run := l.runs[o.runId];
        var actual := Actual(reservation.usage, o);
        if actual.None? || Added(actual.value.input, actual.value.output).None? || actual.value.tools < 0 then
            (l, false)
        else
          var next := Resettled(run.usage, reservation.usage, actual.value);
          if next.None? then (l, false)
          else (Ledger(l.runs[o.runId := run.(usage := next.value)],
                       l.reservations[o.reservationId := Reservation(o.runId, actual.value, true)]), true)
  }

  // ---------------------------------------------------------------- sums over a table

  ghost function Sum(m: map<string, real>): real {
    if m == map[] then 0.0
    else
      var k :| k in m;
      m[k] + Sum(m - {k})
  }

  /** The order in which a table is summed does not matter. */
  lemma {:induction false} SumInsert(m: map<string, real>, k: string, v: real)
    requires k !in m
    ensures Sum(m[k := v]) == v + Sum(m)
    decreases |m|
  {
    var m' := m[k := v];
    var j :| j in m' && Sum(m') == m'[j] + Sum(m' - {j});
    if j == k {
      assert m' - {k} == m;
    } else {
      assert m' - {j} == (m - {j})[k := v];
      assert (m - {j})[j := m[j]] == m;
      SumInsert(m - {j}, k, v);
      SumInsert(m - {j}, j, m[j]);
    }
  }

  lemma SumReplace(m: map<string, real>, k: string, v: real)
    requires k in m
    ensures Sum(m[k := v]) == Sum(m) - m[k] + v
  {
    assert (m - {k})[k := m[k]] == m && (m - {k})[k := v] == m[k := v];
    SumInsert(m - {k}, k, m[k]);
    SumInsert(m - {k}, k, v);
  }

  lemma {:induction false} SumCovers(m: map<string, real>)
    requires forall k :: k in m ==> 0.0 <= m[k]
    ensures 0.0 <= Sum(m) && forall k :: k in m ==> m[k] <= Sum(m)
    decreases |m|
  {
    forall k | k in m
      ensures 0.0 <= Sum(m) && m[k] <= Sum(m)
    {
      assert (m - {k})[k := m[k]] == m;
      SumInsert(m - {k}, k, m[k]);
      SumCovers(m - {k});
    }
  }

  /** The five quantities a cap can bound. */
  datatype Measure = Input | Output | Tokens | Tools | Cost

  function Of(u: Usage, m: Measure): real {
    match m
    case Input => u.input as real
    case Output => u.output as real
    case Tokens => (u.input + u.output) as real
    case Tools => u.tools as real
    case Cost => u.cost
  }

  ghost function IdsOf(l: Ledger, runId: string): set<string> {
    set id | id in l.reservations && l.reservations[id].runId == runId
  }

  ghost function Amounts(l: Ledger, runId: string, m: Measure): map<string, real> {
    map id | id in l.reservations && l.reservations[id].runId == runId :: Of(l.reservations[id].usage, m)
  }

  ghost predicate NonNegative(u: Usage) { 0 <= u.input && 0 <= u.output && 0 <= u.tools && 0.0 <= u.cost }

  /** The run's totals are the number and the sums of its reservations. */
  ghost predicate Balanced(l: Ledger, runId: string)
    requires runId in l.runs
  {
    && l.runs[runId].calls == |IdsOf(l, runId)| > 0
    && forall m :: Of(l.runs[runId].usage, m) == Sum(Amounts(l, runId, m))
  }

  ghost predicate Fits(u: Usage) {
    NonNegative(u) && u.input + u.output <= MAX_INT64 && u.tools <= MAX_INT64
  }

  /** Every run's totals balance, and they fit. */
  ghost predicate Consistent(l: Ledger) {
    && (forall id :: id in l.reservations ==>
        l.reservations[id].runId in l.runs && NonNegative(l.reservations[id].usage))
    && (forall r :: r in l.runs ==> Balanced(l, r) && Fits(l.runs[r].usage))
  }

  /** Adding one reservation with its usage keeps the run in balance. */
  lemma ReservedBalances(l: Ledger, id: string, reservation: Reservation, run: RunTotals)
    requires Consistent(l) && id !in l.reservations
    requires var r, before := reservation.runId, if reservation.runId in l.runs then l.runs[reservation.runId]
        else RunTotals(0, 0, ZERO);
             && run.calls == before.calls + 1
             && forall m :: Of(run.usage, m) == Of(before.usage, m) + Of(reservation.usage, m)
    ensures Balanced(Ledger(l.runs[reservation.runId := run], l.reservations[id := reservation]), reservation.runId)
  {
    var r := reservation.runId;
    var l' := Ledger(l.runs[r := run], l.reservations[id := reservation]);
    assert IdsOf(l', r) == IdsOf(l, r) + {id};
    if r !in l.runs {
      assert IdsOf(l, r) == {};
    }
    forall m
      ensures Of(run.usage, m) == Sum(Amounts(l', r, m))
    {
      var v := Of(reservation.usage, m);
      assert Amounts(l', r, m) == Amounts(l, r, m)[id := v];
      SumInsert(Amounts(l, r, m), id, v);
      if r !in l.runs {
        assert Amounts(l, r, m) == map[];
      } else {
        assert Balanced(l, r);
      }
    }
  }

  /** Runs without a changed reservation stay as they were. */
  lemma OthersBalance(l: Ledger, l': Ledger, k: string)
    requires k in l.runs && Balanced(l, k) && k in l'.runs && l'.runs[k] == l.runs[k]
    requires forall id :: id in l.reservations && l.reservations[id].runId == k ==>
               id in l'.reservations && l'.reservations[id] == l.reservations[id]
    requires forall id :: id in l'.reservations && l'.reservations[id].runId == k ==> id in l.reservations
    requires forall id :: id in l.reservations && id in l'.reservations ==>
        l.reservations[id].runId == l'.reservations[id].runId
    ensures Balanced(l', k)
  {
    hide Sum;
    assert IdsOf(l', k) == IdsOf(l, k);
    forall m
      ensures Of(l'.runs[k].usage, m) == Sum(Amounts(l', k, m))
    {
      assert Amounts(l', k, m) == Amounts(l, k, m);
    }
  }

  lemma ReserveIsConsistent(l: Ledger, r: PolicyReserve)
    requires Consistent(l)
    ensures Consistent(Reserve(l, r).0)
  {
    hide Balanced;
    var l' := Reserve(l, r).0;
    if l' != l {
      ReservedBalances(l, r.reservationId, l'.reservations[r.reservationId], l'.runs[r.runId]);
      forall k | k in l.runs && k != r.runId
        ensures Balanced(l', k)
      {
        OthersBalance(l, l', k);
      }
    }
  }

  /** A run holds at least what each of its reservations holds. */
  lemma TotalsCover(l: Ledger, id: string, m: Measure)
    requires Consistent(l) && id in l.reservations
    ensures Of(l.reservations[id].usage, m) <= Of(l.runs[l.reservations[id].runId].usage, m)
  {
    var r := l.reservations[id].runId;
    assert Balanced(l, r);
    SumCovers(Amounts(l, r, m));
    assert Amounts(l, r, m)[id] == Of(l.reservations[id].usage, m);
  }

  /** In a consistent ledger the "policy counter underflow" branch cannot be taken. */
  lemma NoUnderflow(l: Ledger, id: string)
    requires Consistent(l) && id in l.reservations
    ensures var total, part := l.runs[l.reservations[id].runId].usage, l.reservations[id].usage;
            part.input <= total.input && part.output <= total.output && part.tools <= total.tools
                && part.cost <= total.cost
  {
    TotalsCover(l, id, Input);
    TotalsCover(l, id, Output);
    TotalsCover(l, id, Tools);
    TotalsCover(l, id, Cost);
  }

  /** Replacing one reservation's usage keeps its run in balance. */
  lemma SettledBalances(l: Ledger, id: string, actual: Usage, run: RunTotals)
    requires Consistent(l) && id in l.reservations
    requires var reservation := l.reservations[id];
             && run.calls == l.runs[reservation.runId].calls
             && forall m :: Of(run.usage, m)
                 == Of(l.runs[reservation.runId].usage, m) - Of(reservation.usage, m) + Of(actual, m)
    ensures var r := l.reservations[id].runId;
            Balanced(Ledger(l.runs[r := run], l.reservations[id := Reservation(r, actual, true)]), r)
  {
    hide Sum;
    var r := l.reservations[id].runId;
    var l' := Ledger(l.runs[r := run], l.reservations[id := Reservation(r, actual, true)]);
    assert Balanced(l, r);
    assert IdsOf(l', r) == IdsOf(l, r);
    forall m
      ensures Of(run.usage, m) == Sum(Amounts(l', r, m))
    {
      assert Amounts(l', r, m) == Amounts(l, r, m)[id := Of(actual, m)];
      SumReplace(Amounts(l, r, m), id, Of(actual, m));
    }
  }

  lemma ReconcileIsConsistent(l: Ledger, o: PolicyOutcome)
    requires Consistent(l)
    ensures Consistent(Reconcile(l, o).0)
  {
    hide Balanced;
    var l' := Reconcile(l, o).0;
    if l' != l {
      NoUnderflow(l, o.reservationId);
      SettledBalances(l, o.reservationId, l'.reservations[o.reservationId].usage, l'.runs[o.runId]);
      forall k | k in l.runs && k != o.runId
        ensures Balanced(l', k)
      {
        OthersBalance(l, l', k);
      }
    }
  }

  // ---------------------------------------------------------------- runs of operations

  datatype Op = ReserveOp(reserve: PolicyReserve) | ReconcileOp(outcome: PolicyOutcome)

  function Apply(l: Ledger, op: Op): Ledger {
    match op
    case ReserveOp(r) => Reserve(l, r).0
    case ReconcileOp(o) => Reconcile(l, o).0
  }

  ghost function Run(l: Ledger, ops: seq<Op>): Ledger
    decreases |ops|
  {
    if ops == [] then l else Run(Apply(l, ops[0]), ops[1..])
  }

  /**
   Conservation over any sequence of reserves and reconciles: each run's calls are the number of its reservations, its
   four totals are the sums of their current values, nothing is negative, and input plus output stays an int64.
   */
  lemma {:induction false} Conservation(l: Ledger, ops: seq<Op>)
    requires Consistent(l)
    ensures Consistent(Run(l, ops))
    decreases |ops|
  {
    if ops == [] {
    } else {
      match ops[0] {
        case ReserveOp(r) => ReserveIsConsistent(l, r);
        case ReconcileOp(o) => ReconcileIsConsistent(l, o);
      }
      Conservation(Apply(l, ops[0]), ops[1..]);
    }
  }

  /** The k-th call a run is allowed carries Attempt k; a reserve that is not allowed changes no table. */
  lemma AttemptCountsReservations(l: Ledger, r: PolicyReserve)
    requires Consistent(l)
    ensures var (l', reply) := Reserve(l, r);
            && (reply.Allowed? ==> reply.attempt == |IdsOf(l, r.runId)| + 1 == |IdsOf(l', r.runId)|
                                   && r.reservationId !in l.reservations
                                       && !l'.reservations[r.reservationId].reconciled)
            && (reply.Blocked? ==> reply.attempt == |IdsOf(l, r.runId)| + 1)
            && (!reply.Allowed? ==> l' == l)
  {
    hide FirstLimit, NextUsage;
    CallsAreReservations(l, r.runId);
    hide Consistent;
    var (l', reply) := Reserve(l, r);
    if reply.Allowed? {
      assert IdsOf(l', r.runId) == IdsOf(l, r.runId) + {r.reservationId};
    }
  }

  lemma CallsAreReservations(l: Ledger, runId: string)
    requires Consistent(l)
    ensures |IdsOf(l, runId)| == if runId in l.runs then l.runs[runId].calls else 0
  {
    if runId in l.runs {
      assert Balanced(l, runId);
    } else {
      assert IdsOf(l, runId) == {};
    }
  }

  /** What it means that a call would pass a cap, and the threshold that is reported for it. */
  ghost predicate Passes(caps: Caps, run: RunTotals, next: Usage, now: int, limit: Limit) {
    match limit
    case DurationLimit => TooLong(caps, run.startedAt, now)
    case CallLimit => 0 < caps.calls < run.calls + 1
    case InputLimit => CapOf(caps, Input).Some? && Of(next, Input) > CapOf(caps, Input).value
    case OutputLimit => CapOf(caps, Output).Some? && Of(next, Output) > CapOf(caps, Output).value
    case TotalLimit => CapOf(caps, Tokens).Some? && Of(next, Tokens) > CapOf(caps, Tokens).value
    case ToolLimit => CapOf(caps, Tools).Some? && Of(next, Tools) > CapOf(caps, Tools).value
    case CostLimit => CapOf(caps, Cost).Some? && Of(next, Cost) > CapOf(caps, Cost).value
  }

  /** The value of a cost text that has one. */
  ghost function CostOf(text: CostText): real { if text.Decimal? then text.value else 0.0 }

  ghost predicate Readable(text: CostText) { text.Unset? || (text.Decimal? && 0.0 <= text.value) }

  /** The run as a call finds it: its row, or a new one that the call starts. */
  ghost predicate Finds(l: Ledger, r: PolicyReserve, run: RunTotals) {
    if r.runId in l.runs then run == l.runs[r.runId]
    else run.startedAt == r.startedAt && run.calls == 0 && run.usage == Usage(0, 0, 0, 0.0)
  }

  /** The totals the run would have with this call: the sums. */
  ghost predicate SumsTo(run: RunTotals, r: PolicyReserve, next: Usage) {
    next == Usage(run.usage.input + r.input, run.usage.output + r.output, run.usage.tools + r.tools,
                  run.usage.cost + CostOf(r.cost))
  }

  /** The order in which limits are reported, and the threshold each reports. */
  ghost function OrderOf(limit: Limit): nat {
    match limit
    case DurationLimit => 0
    case CallLimit => 1
    case InputLimit => 2
    case OutputLimit => 3
    case TotalLimit => 4
    case ToolLimit => 5
    case CostLimit => 6
  }

  ghost function ThresholdOf(caps: Caps, limit: Limit): int {
    match limit
    case DurationLimit => caps.seconds
    case CallLimit => caps.calls
    case InputLimit => caps.input
    case OutputLimit => caps.output
    case TotalLimit => caps.total
    case ToolLimit => caps.tools
    case CostLimit => 0
  }

  /**
   A reserve with valid arguments is blocked exactly if the call would pass some cap; the block names the first one it
   would pass, with its threshold and the attempt that was refused.
   */
  lemma BlockedExactlyWhenACapIsPassed(l: Ledger, r: PolicyReserve, run: RunTotals, next: Usage)
    requires Reserve(l, r).1 != Failed && Finds(l, r, run) && SumsTo(run, r, next)
    ensures var reply := Reserve(l, r).1;
            && (reply.Blocked? <==> exists limit :: Passes(r.caps, run, next, r.now, limit))
            && (reply.Blocked? ==>
                  && Passes(r.caps, run, next, r.now, reply.limit)
                  && (forall other :: OrderOf(other) < OrderOf(reply.limit) ==>
                        !Passes(r.caps, run, next, r.now, other))
                  && reply.attempt == run.calls + 1 && reply.threshold == ThresholdOf(r.caps, reply.limit))
            && (reply.Blocked? && !reply.limit.DurationLimit? && !reply.limit.CostLimit? ==> reply.threshold > 0)
  {
    if Reserve(l, r).1.Blocked? {
      assert Passes(r.caps, run, next, r.now, Reserve(l, r).1.limit);
    }
  }

  /**
   A reserve fails exactly if an identifier is missing, an estimate or a cost is no quantity, a sum leaves int64, or the
   call would be allowed and its reservation id is taken.
   */
  lemma FailsExactlyWhen(l: Ledger, r: PolicyReserve, run: RunTotals, next: Usage)
    requires Consistent(l) && Finds(l, r, run) && SumsTo(run, r, next)
    ensures Reserve(l, r).1 == Failed <==>
        || r.runId == "" || r.reservationId == "" || r.input < 0 || r.output < 0 || r.tools < 0
        || !Readable(r.cost) || !Readable(r.caps.cost)
        || next.input + next.output > 0x7fff_ffff_ffff_ffff || next.tools > 0x7fff_ffff_ffff_ffff
        || run.calls == 0x7fff_ffff_ffff_ffff
        || (r.reservationId in l.reservations && forall limit :: !Passes(r.caps, run, next, r.now, limit))
  {
    hide Balanced;
    if FirstLimit(r.caps, run, next, r.now).Some? {
      assert Passes(r.caps, run, next, r.now, FirstLimit(r.caps, run, next, r.now).value.0);
    }
  }

  /** What an allowed call writes: its estimates under its reservation id, and the sums and the start of its run. */
  lemma AllowedRecords(l: Ledger, r: PolicyReserve, run: RunTotals, next: Usage)
    requires Reserve(l, r).1.Allowed? && Finds(l, r, run) && SumsTo(run, r, next)
    ensures var (l', reply) := Reserve(l, r);
            && reply.attempt == run.calls + 1
            && l'.reservations == l.reservations[r.reservationId :=
                 Reservation(r.runId, Usage(r.input, r.output, r.tools, CostOf(r.cost)), false)]
            && l'.runs == l.runs[r.runId := RunTotals(run.startedAt, run.calls + 1, next)]
  {
  }

  // ---------------------------------------------------------------- when a run started

  /** No operation moves the start of a run. */
  lemma {:induction false} RunsKeepTheirStart(l: Ledger, ops: seq<Op>, runId: string)
    requires runId in l.runs
    ensures runId in Run(l, ops).runs && Run(l, ops).runs[runId].startedAt == l.runs[runId].startedAt
    decreases |ops|
  {
    if ops == [] {
    } else {
      OneStepKeepsTheStart(l, ops[0], runId);
      RunsKeepTheirStart(Apply(l, ops[0]), ops[1..], runId);
    }
  }

  lemma OneStepKeepsTheStart(l: Ledger, op: Op, runId: string)
    requires runId in l.runs
    ensures runId in Apply(l, op).runs && Apply(l, op).runs[runId].startedAt == l.runs[runId].startedAt
  {
  }

  ghost predicate IsInt64(x: int) { -MAX_INT64 - 1 <= x <= MAX_INT64 }

  /** The int64 that is left of a product, and the one nearest to a difference. */
  ghost predicate Wraps(x: int, wrapped: int) { IsInt64(wrapped) && (wrapped - x) % (2 * (MAX_INT64 + 1)) == 0 }

  ghost predicate Clamps(x: int, clamped: int) {
    if IsInt64(x) then clamped == x else clamped == if x < 0 then -MAX_INT64 - 1 else MAX_INT64
  }

  /** The guard on the duration: a cap that is set, in wrapped nanoseconds, against the time that passed, clamped. */
  lemma TooLongExactlyWhen(caps: Caps, startedAt: int, now: int, cap: int, passed: int)
    requires Wraps(caps.seconds * NANOS_PER_SECOND, cap) && Clamps(now - startedAt, passed)
    ensures TooLong(caps, startedAt, now) <==> caps.seconds > 0 && passed > cap
  {
  }

  /**
   The first admitted call starts its run. Whatever is reserved and settled after it, by this run and others: a later
   call of the run is blocked for its duration exactly if it comes more than the cap after that start, and so no call is
   allowed later than that.
   */
  lemma DurationCountsFromTheFirstCall(l: Ledger, first: PolicyReserve, ops: seq<Op>, r: PolicyReserve)
    requires first.runId !in l.runs && Reserve(l, first).1.Allowed? && r.runId == first.runId
    requires 0 < r.caps.seconds && IsInt64(r.caps.seconds * 1_000_000_000)
    ensures var reply := Reserve(Run(Reserve(l, first).0, ops), r).1;
            var late := r.now - first.startedAt > r.caps.seconds * 1_000_000_000;
            && (reply.Allowed? ==> !late)
            && (reply != Failed ==> (reply.Blocked? && reply.limit.DurationLimit? <==> late))
  {
    RunsKeepTheirStart(Reserve(l, first).0, ops, first.runId);
    var now := Run(Reserve(l, first).0, ops);
    var start, cap := now.runs[r.runId].startedAt, r.caps.seconds * NANOS_PER_SECOND;
    TooLongExactlyWhen(r.caps, start, r.now, cap, Saturate64(r.now - start));
    hide TooLong, NextUsage;
  }

  // ---------------------------------------------------------------- what a settlement writes

  /** The usage that counts after a settlement: what the outcome reports, and the estimate where it reports nothing. */
  ghost predicate Reported(held: Usage, o: PolicyOutcome, actual: Usage) {
    && actual.input == (if o.input < 0 then held.input else o.input)
    && actual.output == (if o.output < 0 then held.output else o.output)
    && actual.tools == (if o.tools < 0 then held.tools else o.tools)
    && actual.cost == (if o.cost.Unset? then held.cost else CostOf(o.cost))
  }

  /** The outcome names a reservation of its run. */
  ghost predicate Names(l: Ledger, o: PolicyOutcome) {
    && o.runId != "" && o.reservationId != "" && o.reservationId in l.reservations
    && l.reservations[o.reservationId].runId == o.runId
  }

  /**
   A settlement succeeds exactly if it names a reservation of its run, and this was settled before or the outcome's cost
   can be read and the sums stay in int64; only an unsettled one is changed.
   */
  lemma SettlesExactlyWhen(l: Ledger, o: PolicyOutcome, actual: Usage)
    requires Consistent(l)
    requires Names(l, o) ==> Reported(l.reservations[o.reservationId].usage, o, actual)
    ensures Reconcile(l, o).1 <==>
            && Names(l, o)
            && (|| l.reservations[o.reservationId].reconciled
                || var held, total := l.reservations[o.reservationId].usage, l.runs[o.runId].usage;
                   && Readable(o.cost) && actual.input + actual.output <= MAX_INT64
                   && total.input - held.input + actual.input + total.output - held.output + actual.output <= MAX_INT64
                   && total.tools - held.tools + actual.tools <= MAX_INT64)
  {
    hide Balanced;
    if Names(l, o) {
      NoUnderflow(l, o.reservationId);
    }
  }

  /** What it writes: the reported usage under the reservation, and the run's sums with it in place of the estimate. */
  lemma SettledRecords(l: Ledger, o: PolicyOutcome, actual: Usage)
    requires Reconcile(l, o).1 && Names(l, o) && !l.reservations[o.reservationId].reconciled
    requires Reported(l.reservations[o.reservationId].usage, o, actual) && o.runId in l.runs
    ensures var l' := Reconcile(l, o).0;
            var held, run := l.reservations[o.reservationId].usage, l.runs[o.runId];
            && l'.reservations == l.reservations[o.reservationId := Reservation(o.runId, actual, true)]
            && l'.runs == l.runs[o.runId := run.(usage :=
                 Usage(run.usage.input - held.input + actual.input, run.usage.output - held.output + actual.output,
                       run.usage.tools - held.tools + actual.tools, run.usage.cost - held.cost + actual.cost))]
  {
  }

  /** Settling a reservation again, with any outcome, succeeds and changes nothing. */
  lemma ReconcileTwice(l: Ledger, first: PolicyOutcome, second: PolicyOutcome)
    requires Reconcile(l, first).1
    requires second.runId == first.runId && second.reservationId == first.reservationId
    ensures Reconcile(Reconcile(l, first).0, second) == (Reconcile(l, first).0, true)
  {
  }

  /** The ledger with the estimate each reservation started from. */
  datatype Traced = Traced(ledger: Ledger, reserved: map<string, Usage>)

  ghost function Trace(t: Traced, op: Op): Traced {
    match op
    case ReserveOp(r) =>
      var (l', reply) := Reserve(t.ledger, r);
      Traced(l', if reply.Allowed? then t.reserved[r.reservationId := l'.reservations[r.reservationId].usage]
          else t.reserved)
    case ReconcileOp(o) => Traced(Reconcile(t.ledger, o).0, t.reserved)
  }

  ghost function TraceAll(t: Traced, ops: seq<Op>): Traced
    decreases |ops|
  {
    if ops == [] then t else TraceAll(Trace(t, ops[0]), ops[1..])
  }

  /** Every reservation has its estimate, and still holds it until it is settled. */
  ghost predicate Paired(t: Traced) {
    && t.reserved.Keys == t.ledger.reservations.Keys
    && forall id :: id in t.reserved && !t.ledger.reservations[id].reconciled ==>
        t.ledger.reservations[id].usage == t.reserved[id]
  }

  ghost predicate Tracked(t: Traced) { Consistent(t.ledger) && Paired(t) }

  /** max(0, actual - reserved) */
  function Excess(actual: Usage, reserved: Usage, m: Measure): real {
    if Of(actual, m) > Of(reserved, m) then Of(actual, m) - Of(reserved, m) else 0.0
  }

  /** How far each reservation of the run ended above its estimate. */
  ghost function Excesses(t: Traced, runId: string, m: Measure): map<string, real>
    requires t.reserved.Keys == t.ledger.reservations.Keys
  {
    map id | id in t.ledger.reservations && t.ledger.reservations[id].runId == runId ::
      Excess(t.ledger.reservations[id].usage, t.reserved[id], m)
  }

  function CapOf(caps: Caps, m: Measure): Option<real> {
    match m
    case Input => if caps.input > 0 then Some(caps.input as real) else None
    case Output => if caps.output > 0 then Some(caps.output as real) else None
    case Tokens => if caps.total > 0 then Some(caps.total as real) else None
    case Tools => if caps.tools > 0 then Some(caps.tools as real) else None
    case Cost => if caps.cost.Decimal? then Some(caps.cost.value) else None
  }

  /** Calls never pass their cap; a total passes its cap by no more than the run's excesses. */
  ghost predicate Bounded(t: Traced, runId: string, caps: Caps)
    requires t.reserved.Keys == t.ledger.reservations.Keys
  {
    runId in t.ledger.runs ==>
      && (caps.calls > 0 ==> t.ledger.runs[runId].calls <= caps.calls)
      && forall m :: CapOf(caps, m).Some? ==>
           Of(t.ledger.runs[runId].usage, m) <= CapOf(caps, m).value + Sum(Excesses(t, runId, m))
  }

  ghost predicate SameCaps(op: Op, runId: string, caps: Caps) {
    op.ReserveOp? && op.reserve.runId == runId ==> op.reserve.caps == caps
  }

  lemma NoExcessIsNegative(t: Traced, runId: string, m: Measure)
    requires t.reserved.Keys == t.ledger.reservations.Keys
    ensures 0.0 <= Sum(Excesses(t, runId, m))
  {
    SumCovers(Excesses(t, runId, m));
  }

  /** An allowed call leaves its run within every cap it was checked against. */
  lemma AllowedWithinCaps(l: Ledger, r: PolicyReserve, m: Measure)
    requires Reserve(l, r).1.Allowed? && CapOf(r.caps, m).Some?
    ensures Of(Reserve(l, r).0.runs[r.runId].usage, m) <= CapOf(r.caps, m).value
  {
  }

  /** Excesses depend on the run's own reservations only. */
  lemma SameExcesses(t: Traced, t': Traced, runId: string, m: Measure)
    requires t.reserved.Keys == t.ledger.reservations.Keys && t'.reserved.Keys == t'.ledger.reservations.Keys
    requires forall id :: id in t.reserved && t.ledger.reservations[id].runId == runId
                          ==> && id in t'.reserved && t'.ledger.reservations[id] == t.ledger.reservations[id]
                              && t'.reserved[id] == t.reserved[id]
    requires forall id :: id in t'.reserved && t'.ledger.reservations[id].runId == runId ==>
               id in t.reserved && t.ledger.reservations[id].runId == runId
    ensures Excesses(t', runId, m) == Excesses(t, runId, m)
  {
  }

  lemma ReserveIsBounded(t: Traced, r: PolicyReserve, runId: string, caps: Caps)
    requires Tracked(t) && Bounded(t, runId, caps) && (r.runId == runId ==> r.caps == caps)
    requires Tracked(Trace(t, ReserveOp(r))) && Reserve(t.ledger, r).1.Allowed?
    ensures Bounded(Trace(t, ReserveOp(r)), runId, caps)
  {
    hide Sum;
    var t' := Trace(t, ReserveOp(r));
    forall m | CapOf(caps, m).Some? && runId in t'.ledger.runs
      ensures Of(t'.ledger.runs[runId].usage, m) <= CapOf(caps, m).value + Sum(Excesses(t', runId, m))
    {
      if r.runId == runId {
        AllowedWithinCaps(t.ledger, r, m);
        NoExcessIsNegative(t', runId, m);
      } else {
        SameExcesses(t, t', runId, m);
      }
    }
  }

  lemma OneExcessChanges(t: Traced, t': Traced, id: string, r: string, m: Measure)
    requires t.reserved.Keys == t.ledger.reservations.Keys && t'.reserved == t.reserved
    requires id in t.reserved && t.ledger.reservations[id].usage == t.reserved[id]
    requires t'.ledger.reservations.Keys == t.ledger.reservations.Keys
    requires t.ledger.reservations[id].runId == r == t'.ledger.reservations[id].runId
    requires forall k :: k in t.reserved && k != id ==> t'.ledger.reservations[k] == t.ledger.reservations[k]
    ensures id in Excesses(t, r, m) && Excesses(t, r, m)[id] == 0.0
    ensures Excesses(t', r, m)
            == Excesses(t, r, m)[id := Excess(t'.ledger.reservations[id].usage, t.ledger.reservations[id].usage, m)]
  {
    hide Of, Excess;
    NoExcess(t.reserved[id], m);
  }

  lemma NoExcess(u: Usage, m: Measure)
    ensures Excess(u, u, m) == 0.0
  {
  }

  /** Settling a reservation moves its run's total by no more than it moves the run's excesses. */
  lemma SettledExcess(t: Traced, t': Traced, id: string, r: string, m: Measure)
    requires t.reserved.Keys == t.ledger.reservations.Keys && t'.reserved == t.reserved
    requires id in t.reserved && t.ledger.reservations[id].usage == t.reserved[id]
    requires t'.ledger.reservations.Keys == t.ledger.reservations.Keys
    requires t.ledger.reservations[id].runId == r == t'.ledger.reservations[id].runId
    requires forall k :: k in t.reserved && k != id ==> t'.ledger.reservations[k] == t.ledger.reservations[k]
    ensures Of(t'.ledger.reservations[id].usage, m) - Of(t.ledger.reservations[id].usage, m)
            <= Sum(Excesses(t', r, m)) - Sum(Excesses(t, r, m))
  {
    hide Sum;
    OneExcessChanges(t, t', id, r, m);
    SumReplace(Excesses(t, r, m), id, Excess(t'.ledger.reservations[id].usage, t.ledger.reservations[id].usage, m));
  }

  /** What a settlement that changes the ledger changes. */
  lemma Settlement(l: Ledger, o: PolicyOutcome, m: Measure)
    requires Reconcile(l, o).0 != l
    ensures var l', id := Reconcile(l, o).0, o.reservationId;
            && id in l.reservations && l.reservations[id].runId == o.runId && !l.reservations[id].reconciled
                && id in l'.reservations
            && l'.reservations == l.reservations[id := Reservation(o.runId, l'.reservations[id].usage, true)]
            && o.runId in l.runs && o.runId in l'.runs && l'.runs == l.runs[o.runId := l'.runs[o.runId]]
            && l'.runs[o.runId].calls == l.runs[o.runId].calls
            && Of(l'.runs[o.runId].usage, m)
               == Of(l.runs[o.runId].usage, m) - Of(l.reservations[id].usage, m) + Of(l'.reservations[id].usage, m)
  {
  }

  lemma ReconcileKeepsExcess(t: Traced, t': Traced, o: PolicyOutcome, runId: string, m: Measure)
    requires Paired(t) && Paired(t') && t'.reserved == t.reserved && t'.ledger == Reconcile(t.ledger, o).0
    ensures runId in t.ledger.runs ==>
              && runId in t'.ledger.runs && t'.ledger.runs[runId].calls == t.ledger.runs[runId].calls
              && Of(t'.ledger.runs[runId].usage, m) - Of(t.ledger.runs[runId].usage, m)
                 <= Sum(Excesses(t', runId, m)) - Sum(Excesses(t, runId, m))
  {
    hide Sum;
    if t' != t {
      Settlement(t.ledger, o, m);
      if o.runId == runId {
        SettledExcess(t, t', o.reservationId, runId, m);
      } else {
        SameExcesses(t, t', runId, m);
      }
    }
  }

  lemma ReconcileIsBounded(t: Traced, t': Traced, o: PolicyOutcome, runId: string, caps: Caps)
    requires Paired(t) && Paired(t') && t'.reserved == t.reserved && t'.ledger == Reconcile(t.ledger, o).0
    requires Bounded(t, runId, caps)
    ensures Bounded(t', runId, caps)
  {
    hide Sum;
    if t' != t {
      Settlement(t.ledger, o, Input);
      if runId in t.ledger.runs {
        forall m
          ensures Of(t'.ledger.runs[runId].usage, m) - Of(t.ledger.runs[runId].usage, m)
                  <= Sum(Excesses(t', runId, m)) - Sum(Excesses(t, runId, m))
        {
          ReconcileKeepsExcess(t, t', o, runId, m);
        }
        ReconcileKeepsExcess(t, t', o, runId, Input);
      }
    }
  }

  lemma TraceIsTracked(t: Traced, op: Op)
    requires Tracked(t)
    ensures Tracked(Trace(t, op))
  {
    hide Consistent;
    match op
    case ReserveOp(r) => ReserveIsConsistent(t.ledger, r);
    case ReconcileOp(o) => ReconcileIsConsistent(t.ledger, o);
  }

  lemma TrackedIsPaired(t: Traced)
    requires Tracked(t)
    ensures Paired(t)
  {
  }

  /**
   With fixed caps for a run, in any interleaving with other runs: never more than MaxCalls allowed calls, and every
   other capped total at most its cap plus the sum over the run's reservations of max(0, actual - reserved).
   */
  lemma {:induction false} OvershootBound(t: Traced, ops: seq<Op>, runId: string, caps: Caps)
    requires Tracked(t) && Bounded(t, runId, caps)
    requires forall i :: 0 <= i < |ops| ==> SameCaps(ops[i], runId, caps)
    ensures Tracked(TraceAll(t, ops)) && Bounded(TraceAll(t, ops), runId, caps)
    decreases |ops|
  {
    hide Tracked, Consistent;
    if ops == [] {
    } else {
      TraceIsTracked(t, ops[0]);
      assert SameCaps(ops[0], runId, caps);
      match ops[0] {
        case ReserveOp(r) =>
          if Reserve(t.ledger, r).1.Allowed? {
            ReserveIsBounded(t, r, runId, caps);
          }
        case ReconcileOp(o) =>
          TrackedIsPaired(t);
          TrackedIsPaired(Trace(t, ops[0]));
          ReconcileIsBounded(t, Trace(t, ops[0]), o, runId, caps);
      }
      OvershootBound(Trace(t, ops[0]), ops[1..], runId, caps);
    }
  }

  /** Where no reservation ended above its estimate, the cap is never passed. */
  lemma HonestEstimatesKeepTheCap(t: Traced, runId: string, caps: Caps, m: Measure)
    requires Tracked(t) && Bounded(t, runId, caps) && runId in t.ledger.runs && CapOf(caps, m).Some?
    requires forall id :: id in t.reserved && t.ledger.reservations[id].runId == runId
                          ==> Of(t.ledger.reservations[id].usage, m) <= Of(t.reserved[id], m)
    ensures Of(t.ledger.runs[runId].usage, m) <= CapOf(caps, m).value
  {
    SumOfZeros(Excesses(t, runId, m));
  }

  lemma {:induction false} SumOfZeros(m: map<string, real>)
    requires forall k :: k in m ==> m[k] == 0.0
    ensures Sum(m) == 0.0
    decreases |m|
  {
    if m == map[] {
    } else {
      var k :| k in m;
      assert (m - {k})[k := m[k]] == m;
      SumInsert(m - {k}, k, m[k]);
      SumOfZeros(m - {k});
    }
  }

  /** The two tables; each method is one transaction and leaves them alone when it does not commit. */
  class PolicyStore {
    var runs: map<string, RunTotals>
    var reservations: map<string, Reservation>

    function View(): Ledger reads this { Ledger(runs, reservations) }

    constructor ()
      ensures View() == Ledger(map[], map[]) && Consistent(View())
    {
      runs, reservations := map[], map[];
    }

    static method CheckCaps(caps: Caps, run: RunTotals, next: Usage, total: int, now: int)
        returns (limit: Option<(Limit, int)>)
      requires total == next.input + next.output && PolicyDecimal(caps.cost).Some?
      ensures limit == FirstLimit(caps, run, next, now)
    {
      if TooLong(caps, run.startedAt, now) {
        return Some((DurationLimit, caps.seconds));
      }
      if caps.calls > 0 && run.calls >= caps.calls {
        return Some((CallLimit, caps.calls));
      }
      if caps.input > 0 && next.input > caps.input {
        return Some((InputLimit, caps.input));
      }
      if caps.output > 0 && next.output > caps.output {
        return Some((OutputLimit, caps.output));
      }
      if caps.total > 0 && total > caps.total {
        return Some((TotalLimit, caps.total));
      }
      if caps.tools > 0 && next.tools > caps.tools {
        return Some((ToolLimit, caps.tools));
      }
      if !caps.cost.Unset? && next.cost > PolicyDecimal(caps.cost).value {
        return Some((CostLimit, 0));
      }
      return None;
    }

    method ReservePolicy(r: PolicyReserve) returns (reply: ReserveReply)
      modifies this
      ensures (View(), reply) == Reserve(old(View()), r)
    {
      if r.runId == "" || r.reservationId == "" {
        return Failed;
      }
      var estimate := CheckedSum(r.input, r.output);
      if estimate.None? || r.tools < 0 || PolicyDecimal(r.cost).None? || PolicyDecimal(r.caps.cost).None? {
        return Failed;
      }
      var run := if r.runId in runs then runs[r.runId] else RunTotals(r.startedAt, 0, ZERO);
      var input := CheckedSum(run.usage.input, r.input);
      var output := CheckedSum(run.usage.output, r.output);
      var tools := CheckedSum(run.usage.tools, r.tools);
      if input.None? || output.None? || tools.None? {
        return Failed;
      }
      var total := CheckedSum(input.value, output.value);
      if total.None? || run.calls == MAX_INT64 {
        return Failed;
      }
      var caps, attempt, cost := r.caps, run.calls + 1, PolicyDecimal(r.cost).value;
      var limit := CheckCaps(caps, run, Usage(input.value, output.value, tools.value, run.usage.cost + cost),
          total.value, r.now);
      if limit.Some? {
        return Blocked(limit.value.0, attempt, limit.value.1);
      }
      if r.reservationId in reservations {
        return Failed;
      }
      runs := runs[r.runId := RunTotals(run.startedAt, attempt,
          Usage(input.value, output.value, tools.value, run.usage.cost + cost))];
      reservations := reservations[r.reservationId := Reservation(r.runId, Usage(r.input, r.output, r.tools, cost),
          false)];
      return Allowed(attempt);
    }

    method ReconcilePolicy(o: PolicyOutcome) returns (ok: bool)
      modifies this
      ensures (View(), ok) == Reconcile(old(View()), o)
    {
      if o.reservationId == "" || o.runId == "" || o.reservationId !in reservations
         || reservations[o.reservationId].runId != o.runId {
        return false;
      }
      var held := reservations[o.reservationId].usage;
      if reservations[o.reservationId].reconciled {
        return true;
      }
      if o.runId !in runs {
        return false;
      }
      var current := runs[o.runId].usage;
      var cost := held.cost;
      if !o.cost.Unset? {
        if PolicyDecimal(o.cost).None? {
          return false;
        }
        cost := PolicyDecimal(o.cost).value;
      }
      var input, output, tools := OrKeep(o.input, held.input), OrKeep(o.output, held.output),
          OrKeep(o.tools, held.tools);
      if Added(input, output).None? || tools < 0 {
        return false;
      }
      if current.input < held.input || current.output < held.output || current.tools < held.tools {
        return false;
      }
      var nextInput := Added(current.input - held.input, input);
      var nextOutput := Added(current.output - held.output, output);
      var nextTools := Added(current.tools - held.tools, tools);
      if nextInput.None? || nextOutput.None? || nextTools.None? || Added(nextInput.value, nextOutput.value).None? {
        return false;
      }
      var usage := Usage(nextInput.value, nextOutput.value, nextTools.value, current.cost - held.cost + cost);
      runs := runs[o.runId := runs[o.runId].(usage := usage)];
      reservations := reservations[o.reservationId := Reservation(o.runId, Usage(input, output, tools, cost), true)];
      return true;
    }
  }
}
