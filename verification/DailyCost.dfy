/**
 The daily cost limit. A call is checked with its estimate and counted with its cost in another transaction, so a day
 can pass the limit by what was in flight when calls were checked, and by what calls cost more than was estimated.
 */
module DailyCost {
  import opened Wrappers
  import opened PolicyLedger
  import opened DailyLimit

  /**
   The counters, the current date and the estimates of the calls between check and postflight, oldest first. `peak` is
   the largest total of estimates that were in flight when one more call passed its check, `excess` by how much the
   calls counted on a day cost more than they were estimated.
   */
  datatype Spending = Spending(days: map<Day, Counter>, today: Day, flights: seq<real>, peak: real,
      excess: map<Day, real>)

  datatype SpendingStep = Admit(estimate: real) | Settle(i: nat, cost: CostText) | Drop(i: nat) | NextDay

  /** Estimates are not negative; a call has one postflight, or none when it is dropped after the check. */
  predicate CanHappen(s: Spending, step: SpendingStep) {
    match step
    case Admit(estimate) => estimate >= 0.0
    case Settle(i, _) => i < |s.flights|
    case Drop(i) => i < |s.flights|
    case NextDay => true
  }

  function Total(estimates: seq<real>): real {
    if estimates == [] then 0.0 else Total(estimates[..|estimates| - 1]) + estimates[|estimates| - 1]
  }

  function Without(estimates: seq<real>, i: nat): seq<real>
    requires i < |estimates|
  {
    estimates[..i] + estimates[i + 1..]
  }

  function ExcessOn(excess: map<Day, real>, day: Day): real { if day in excess then excess[day] else 0.0 }

  function Positive(x: real): real { if x > 0.0 then x else 0.0 }

  function Happened(s: Spending, step: SpendingStep, cap: real): Spending
    requires CanHappen(s, step)
  {
    match step
    case Admit(estimate) =>
      if CostRefused(Read(s.days, s.today).cost, estimate, cap) then s
      else s.(flights := s.flights + [estimate], peak := if Total(s.flights) > s.peak then Total(s.flights) else s.peak)
    case Settle(i, cost) =>
      var rest := s.(flights := Without(s.flights, i));
      (match Increment(s.days, s.today, cost)
       case None => rest
       case Some(days) =>
         var over := Positive(PolicyDecimal(cost).value - s.flights[i]);
         rest.(days := days, excess := s.excess[s.today := ExcessOn(s.excess, s.today) + over]))
    case Drop(i) => s.(flights := Without(s.flights, i))
    case NextDay => s.(today := s.today + 1)
  }

  predicate CanRun(s: Spending, steps: seq<SpendingStep>, cap: real)
    decreases |steps|
  {
    steps == [] || (CanHappen(s, steps[0]) && CanRun(Happened(s, steps[0], cap), steps[1..], cap))
  }

  function AfterAll(s: Spending, steps: seq<SpendingStep>, cap: real): Spending
    requires CanRun(s, steps, cap)
    decreases |steps|
  {
    if steps == [] then s else AfterAll(Happened(s, steps[0], cap), steps[1..], cap)
  }

  /** What the postflights on a day cost, when days pass from `today` on. */
  ghost function SpentOn(today: Day, steps: seq<SpendingStep>, day: Day): real
    decreases |steps|
  {
    if steps == [] then 0.0
    else match steps[0]
      case NextDay => SpentOn(today + 1, steps[1..], day)
      case Settle(_, cost) =>
        (if today == day && Readable(cost) then CostOf(cost) else 0.0) + SpentOn(today, steps[1..], day)
      case _ => SpentOn(today, steps[1..], day)
  }

  /** Each day's cost is exactly what the postflights on it cost. */
  lemma {:induction false} CostsAreExact(s: Spending, steps: seq<SpendingStep>, cap: real, day: Day)
    requires CanRun(s, steps, cap)
    ensures Read(AfterAll(s, steps, cap).days, day).cost == Read(s.days, day).cost + SpentOn(s.today, steps, day)
    decreases |steps|
  {
    if steps == [] {
    } else {
      CostsAreExact(Happened(s, steps[0], cap), steps[1..], cap, day);
    }
  }

  lemma {:induction false} TotalWithout(estimates: seq<real>, i: nat)
    requires i < |estimates|
    ensures Total(Without(estimates, i)) == Total(estimates) - estimates[i]
    decreases |estimates|
  {
    var n := |estimates| - 1;
    if i == n {
      assert Without(estimates, i) == estimates[..n];
    } else {
      TotalWithout(estimates[..n], i);
      assert Without(estimates, i)[..n - 1] == Without(estimates[..n], i);
    }
  }

  /** The calls that were in flight with the newest one were below the peak when it was checked. */
  ghost predicate Flying(flights: seq<real>, peak: real, cap: real) {
    && (forall i :: 0 <= i < |flights| ==> 0.0 <= flights[i] <= cap)
    && (flights != [] ==> Total(flights[..|flights| - 1]) <= peak)
    && peak >= 0.0
  }

  ghost predicate WithinLimit(s: Spending, cap: real) {
    && Flying(s.flights, s.peak, cap)
    && (forall d :: ExcessOn(s.excess, d) >= 0.0 && Read(s.days, d).cost >= 0.0)
    && (forall d :: d in s.days ==> d <= s.today)
    && (forall d :: Read(s.days, d).cost <= cap + s.peak + ExcessOn(s.excess, d))
    && Read(s.days, s.today).cost + Total(s.flights) <= cap + s.peak + ExcessOn(s.excess, s.today)
  }

  lemma {:induction false} TotalIsPositive(estimates: seq<real>)
    requires forall i :: 0 <= i < |estimates| ==> estimates[i] >= 0.0
    ensures Total(estimates) >= 0.0
    decreases |estimates|
  {
    if estimates == [] {
    } else {
      TotalIsPositive(estimates[..|estimates| - 1]);
    }
  }

  lemma WithoutKeepsEstimates(flights: seq<real>, i: nat, cap: real)
    requires i < |flights| && forall j :: 0 <= j < |flights| ==> 0.0 <= flights[j] <= cap
    ensures var rest := Without(flights, i);
            |rest| == |flights| - 1 && forall j :: 0 <= j < |rest| ==> 0.0 <= rest[j] <= cap
  {
    var rest := Without(flights, i);
    assert forall j :: 0 <= j < |rest| ==> rest[j] == if j < i then flights[j] else flights[j + 1];
  }

  /** The total before the newest one does not rise when a call lands. */
  lemma EarlierFalls(flights: seq<real>, i: nat)
    requires i < |flights| && |flights| > 1 && forall j :: 0 <= j < |flights| ==> 0.0 <= flights[j]
    ensures |Without(flights, i)| == |flights| - 1
    ensures Total(Without(flights, i)[..|flights| - 2]) <= Total(flights[..|flights| - 1])
  {
    var n := |flights| - 1;
    var earlier, rest := flights[..n], Without(flights, i);
    if i == n {
      assert rest == earlier;
      assert Total(earlier) == Total(earlier[..n - 1]) + earlier[n - 1];
    } else {
      TotalWithout(earlier, i);
      assert rest[..n - 1] == Without(earlier, i);
    }
  }

  lemma LandingKeepsFlying(flights: seq<real>, peak: real, cap: real, i: nat)
    requires Flying(flights, peak, cap) && i < |flights|
    ensures Flying(Without(flights, i), peak, cap) && Total(Without(flights, i)) == Total(flights) - flights[i] >= 0.0
    ensures 0.0 <= flights[i]
  {
    hide Total, Without;
    WithoutKeepsEstimates(flights, i, cap);
    TotalWithout(flights, i);
    TotalIsPositive(Without(flights, i));
    if |flights| > 1 {
      EarlierFalls(flights, i);
    }
  }

  lemma TakeoffKeepsFlying(flights: seq<real>, peak: real, cap: real, estimate: real)
    requires Flying(flights, peak, cap) && 0.0 <= estimate <= cap
    ensures var higher := if Total(flights) > peak then Total(flights) else peak;
            Flying(flights + [estimate], higher, cap)
    ensures Total(flights + [estimate]) == Total(flights) + estimate && Total(flights) >= 0.0
  {
    var more := flights + [estimate];
    assert more[..|flights|] == flights;
    assert forall i :: 0 <= i < |more| ==> more[i] == if i < |flights| then flights[i] else estimate;
    TotalIsPositive(flights);
  }

  lemma AdmitKeepsLimit(s: Spending, estimate: real, cap: real)
    requires cap > 0.0 && WithinLimit(s, cap) && estimate >= 0.0
    ensures WithinLimit(Happened(s, Admit(estimate), cap), cap)
  {
    hide Flying, Total, Increment;
    assert Read(s.days, s.today).cost >= 0.0;
    if !CostRefused(Read(s.days, s.today).cost, estimate, cap) {
      TakeoffKeepsFlying(s.flights, s.peak, cap, estimate);
    }
  }

  lemma DropKeepsLimit(s: Spending, i: nat, cap: real)
    requires cap > 0.0 && WithinLimit(s, cap) && i < |s.flights|
    ensures WithinLimit(Happened(s, Drop(i), cap), cap)
  {
    hide Flying, Total, Without;
    EstimatesFit(s.flights, s.peak, cap);
    LandingKeepsFlying(s.flights, s.peak, cap, i);
  }

  lemma EstimatesFit(flights: seq<real>, peak: real, cap: real)
    requires Flying(flights, peak, cap)
    ensures forall i :: 0 <= i < |flights| ==> 0.0 <= flights[i] <= cap
  {
  }

  lemma SettleKeepsLimit(s: Spending, i: nat, cost: CostText, cap: real)
    requires cap > 0.0 && WithinLimit(s, cap) && i < |s.flights|
    ensures WithinLimit(Happened(s, Settle(i, cost), cap), cap)
  {
    hide Flying, Total, Without;
    EstimatesFit(s.flights, s.peak, cap);
    LandingKeepsFlying(s.flights, s.peak, cap, i);
    var next := Happened(s, Settle(i, cost), cap);
    forall d
      ensures ExcessOn(next.excess, d) >= 0.0 && Read(next.days, d).cost >= 0.0
      ensures Read(next.days, d).cost <= cap + next.peak + ExcessOn(next.excess, d)
    {
      if d != s.today {
        assert Read(next.days, d) == Read(s.days, d) && ExcessOn(next.excess, d) == ExcessOn(s.excess, d);
      }
    }
  }

  lemma NextDayKeepsLimit(s: Spending, cap: real)
    requires cap > 0.0 && WithinLimit(s, cap)
    ensures WithinLimit(Happened(s, NextDay, cap), cap)
  {
    TotalIsPositive(s.flights);
  }

  /**
   Over any run, midnights included, a day costs at most the limit, plus the largest total of estimates in flight when
   one more call was checked, plus what the day's calls cost above their estimates. One call at a time, with honest
   estimates, never passes the limit.
   */
  lemma {:induction false} DailyCostOvershoot(s: Spending, steps: seq<SpendingStep>, cap: real)
    requires cap > 0.0 && WithinLimit(s, cap) && CanRun(s, steps, cap)
    ensures WithinLimit(AfterAll(s, steps, cap), cap)
    ensures var last := AfterAll(s, steps, cap);
            forall d :: Read(last.days, d).cost <= cap + last.peak + ExcessOn(last.excess, d)
    decreases |steps|
  {
    if steps == [] {
    } else {
      match steps[0] {
        case Admit(estimate) => AdmitKeepsLimit(s, estimate, cap);
        case Settle(i, cost) => SettleKeepsLimit(s, i, cost, cap);
        case Drop(i) => DropKeepsLimit(s, i, cap);
        case NextDay => NextDayKeepsLimit(s, cap);
      }
      DailyCostOvershoot(Happened(s, steps[0], cap), steps[1..], cap);
    }
  }

  /** No peak without two calls in flight at once. */
  lemma {:induction false} OneAtATimeHasNoPeak(s: Spending, steps: seq<SpendingStep>, cap: real)
    requires CanRun(s, steps, cap) && s.peak == 0.0
    requires forall n :: 0 <= n < |steps| && steps[n].Admit? ==>
        CanRun(s, steps[..n], cap) && AfterAll(s, steps[..n], cap).flights == []
    ensures AfterAll(s, steps, cap).peak == 0.0
    decreases |steps|
  {
    if steps == [] {
    } else {
      var next := Happened(s, steps[0], cap);
      assert steps[..0] == [];
      forall n | 0 <= n < |steps| - 1 && steps[1..][n].Admit?
        ensures CanRun(next, steps[1..][..n], cap) && AfterAll(next, steps[1..][..n], cap).flights == []
      {
        assert steps[..n + 1][0] == steps[0] && steps[..n + 1][1..] == steps[1..][..n] && steps[n + 1] == steps[1..][n];
      }
      OneAtATimeHasNoPeak(next, steps[1..], cap);
    }
  }

  lemma TwoAdmitted(cap: real, estimate: real)
    requires cap > 0.0 && 0.0 <= estimate <= cap
    ensures var one := Happened(Spending(map[], 0, [], 0.0, map[]), Admit(estimate), cap);
            && one == Spending(map[], 0, [estimate], 0.0, map[])
            && Happened(one, Admit(cap), cap) == Spending(map[], 0, [estimate, cap], estimate, map[])
  {
    assert [] + [estimate] == [estimate] && [estimate] + [cap] == [estimate, cap];
    assert [estimate][..0] == [] && Total([estimate]) == Total([]) + estimate;
  }

  lemma TwoSettled(cap: real, estimate: real)
    requires cap > 0.0 && 0.0 <= estimate <= cap
    ensures var s := Spending(map[], 0, [estimate, cap], estimate, map[]);
            var one := Happened(s, Settle(0, Decimal(estimate, true)), cap);
            var two := Spending(map[0 := Counter(2, estimate + cap)], 0, [], estimate, map[0 := 0.0]);
            && one == Spending(map[0 := Counter(1, estimate)], 0, [cap], estimate, map[0 := 0.0])
            && Happened(one, Settle(0, Decimal(cap, true)), cap) == two
  {
    assert Without([estimate, cap], 0) == [cap] && Without([cap], 0) == [];
  }

  /**
   The bound is reached: two calls checked before either is counted, the second with an estimate of the whole limit.
   */
  lemma DailyCostOvershootIsTight(cap: real, estimate: real) returns (steps: seq<SpendingStep>)
    requires cap > 0.0 && 0.0 <= estimate <= cap
    ensures var start := Spending(map[], 0, [], 0.0, map[]);
            && WithinLimit(start, cap) && CanRun(start, steps, cap)
            && var last := AfterAll(start, steps, cap);
               Read(last.days, 0).cost == cap + last.peak && last.peak == estimate && ExcessOn(last.excess, 0) == 0.0
  {
    TwoAdmitted(cap, estimate);
    TwoSettled(cap, estimate);
    var a, b := Settle(0, Decimal(estimate, true)), Settle(0, Decimal(cap, true));
    var s0 := Spending(map[], 0, [], 0.0, map[]);
    var s1 := Spending(map[], 0, [estimate], 0.0, map[]);
    var s2 := Spending(map[], 0, [estimate, cap], estimate, map[]);
    var s3 := Spending(map[0 := Counter(1, estimate)], 0, [cap], estimate, map[0 := 0.0]);
    hide Happened;
    Unrolled(s3, b, [], cap);
    Unrolled(s2, a, [b], cap);
    Unrolled(s1, Admit(cap), [a] + [b], cap);
    Unrolled(s0, Admit(estimate), [Admit(cap)] + ([a] + [b]), cap);
    assert [b] + [] == [b];
    steps := [Admit(estimate)] + ([Admit(cap)] + ([a] + [b]));
  }

  lemma Unrolled(s: Spending, step: SpendingStep, rest: seq<SpendingStep>, cap: real)
    requires CanHappen(s, step)
    ensures CanRun(Happened(s, step, cap), rest, cap) ==>
              CanRun(s, [step] + rest, cap)
                  && AfterAll(s, [step] + rest, cap) == AfterAll(Happened(s, step, cap), rest, cap)
  {
    assert ([step] + rest)[1..] == rest;
  }
}
