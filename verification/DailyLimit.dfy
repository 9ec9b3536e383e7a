/**
 Installation-wide daily counters. The admission check and the increment after the call are two transactions, so the
 counter can pass the limit by the calls that are between the two.
 */
module DailyLimit {
  import opened Wrappers
  import opened PolicyLedger

  /** A UTC date, as a day number. */
  type Day = int

  datatype Counter = Counter(calls: nat, cost: real)

  function Read(days: map<Day, Counter>, day: Day): Counter {
    if day in days then days[day] else Counter(0, 0.0)
  }

  function Increment(days: map<Day, Counter>, day: Day, cost: CostText): Option<map<Day, Counter>> {
    match PolicyDecimal(cost)
    case None => None
    case Some(amount) => Some(days[day := Counter(Read(days, day).calls + 1, Read(days, day).cost + amount)])
  }

  /** A readable cost counts one call and itself on its day, and no other day changes. */
  lemma IncrementedExactlyWhen(days: map<Day, Counter>, day: Day, cost: CostText)
    ensures Increment(days, day, cost).Some? <==> Readable(cost)
    ensures Increment(days, day, cost).Some? ==>
              var after := Increment(days, day, cost).value;
              && Read(after, day).calls == Read(days, day).calls + 1
              && Read(after, day).cost == Read(days, day).cost + CostOf(cost)
              && forall d :: d != day ==> Read(after, d) == Read(days, d)
  {
  }

  /** The daily cost check; a limit of zero refuses nothing. */
  predicate CostRefused(spent: real, estimate: real, cap: real) { cap > 0.0 && spent + estimate > cap }

  class DailyStore {
    var days: map<Day, Counter>

    constructor ()
      ensures days == map[]
    {
      days := map[];
    }

    method ReadDailyCounters(day: Day) returns (counter: Counter)
      ensures counter == Read(days, day)
    {
      if day !in days {
        return Counter(0, 0.0);
      }
      return days[day];
    }

    method IncrementDailyCounters(day: Day, cost: CostText) returns (ok: bool)
      modifies this
      ensures ok == Increment(old(days), day, cost).Some?
      ensures days == if ok then Increment(old(days), day, cost).value else old(days)
    {
      var amount := PolicyDecimal(cost);
      if amount.None? {
        return false;
      }
      if day !in days {
        days := days[day := Counter(1, 0.0 + amount.value)];
      } else {
        days := days[day := Counter(days[day].calls + 1, days[day].cost + amount.value)];
      }
      return true;
    }
  }

  /** The counters, the current date and the calls that passed the check and have not had their postflight yet. */
  datatype State = State(days: map<Day, Counter>, today: Day, inFlight: nat)

  datatype Step = Check | Postflight(cost: CostText) | Abandon | Midnight

  /** At most `k` calls may be in flight; a call has one postflight, or none when it is dropped after the check. */
  predicate Possible(s: State, step: Step, k: nat) {
    match step
    case Check => s.inFlight < k
    case Postflight(_) => s.inFlight > 0
    case Abandon => s.inFlight > 0
    case Midnight => true
  }

  function Next(s: State, step: Step, max: nat): State {
    match step
    case Check => if Read(s.days, s.today).calls >= max then s else s.(inFlight := s.inFlight + 1)
    case Postflight(cost) =>
      var days := Increment(s.days, s.today, cost);
      State(if days.Some? then days.value else s.days, s.today, if s.inFlight > 0 then s.inFlight - 1 else 0)
    case Abandon => s.(inFlight := if s.inFlight > 0 then s.inFlight - 1 else 0)
    case Midnight => s.(today := s.today + 1)
  }

  predicate PossibleRun(s: State, steps: seq<Step>, max: nat, k: nat)
    decreases |steps|
  {
    steps == [] || (Possible(s, steps[0], k) && PossibleRun(Next(s, steps[0], max), steps[1..], max, k))
  }

  function After(s: State, steps: seq<Step>, max: nat): State
    decreases |steps|
  {
    if steps == [] then s else After(Next(s, steps[0], max), steps[1..], max)
  }

  ghost predicate Inv(s: State, max: nat, k: nat) {
    && s.inFlight <= k
    && (forall d :: d in s.days ==> d <= s.today && s.days[d].calls <= max + k - 1)
    && Read(s.days, s.today).calls + s.inFlight <= max + k - 1
  }

  /** With at most k calls between check and postflight no day counts more than max + k - 1, midnights included. */
  lemma {:induction false} DailyOvershoot(s: State, steps: seq<Step>, max: nat, k: nat)
    requires max > 0 && Inv(s, max, k) && PossibleRun(s, steps, max, k)
    ensures Inv(After(s, steps, max), max, k)
    ensures forall d :: Read(After(s, steps, max).days, d).calls <= max + k - 1
    decreases |steps|
  {
    if steps == [] {
    } else {
      DailyOvershoot(Next(s, steps[0], max), steps[1..], max, k);
    }
  }

  /** The postflights on a day, when midnights pass from `today` on. */
  ghost function CountedOn(today: Day, steps: seq<Step>, day: Day): nat
    decreases |steps|
  {
    if steps == [] then 0
    else match steps[0]
      case Midnight => CountedOn(today + 1, steps[1..], day)
      case Postflight(cost) =>
        (if today == day && Readable(cost) then 1 else 0) + CountedOn(today, steps[1..], day)
      case _ => CountedOn(today, steps[1..], day)
  }

  /** Each day counts exactly the postflights on it that report a readable cost. */
  lemma {:induction false} DaysAreExact(s: State, steps: seq<Step>, max: nat, day: Day)
    ensures Read(After(s, steps, max).days, day).calls == Read(s.days, day).calls + CountedOn(s.today, steps, day)
    decreases |steps|
  {
    if steps == [] {
    } else {
      DaysAreExact(Next(s, steps[0], max), steps[1..], max, day);
    }
  }

  function Repeat(step: Step, n: nat): seq<Step> {
    if n == 0 then [] else [step] + Repeat(step, n - 1)
  }

  lemma {:induction false} RunAppend(s: State, a: seq<Step>, b: seq<Step>, max: nat, k: nat)
    requires PossibleRun(s, a, max, k) && PossibleRun(After(s, a, max), b, max, k)
    ensures PossibleRun(s, a + b, max, k) && After(s, a + b, max) == After(After(s, a, max), b, max)
    decreases |a|
  {
    if a == [] {
      assert a + b == b;
    } else {
      assert (a + b)[1..] == a[1..] + b;
      RunAppend(Next(s, a[0], max), a[1..], b, max, k);
    }
  }

  lemma {:induction false} ChecksPass(s: State, n: nat, max: nat, k: nat)
    requires Read(s.days, s.today).calls < max && s.inFlight + n <= k
    ensures PossibleRun(s, Repeat(Check, n), max, k)
    ensures After(s, Repeat(Check, n), max) == s.(inFlight := s.inFlight + n)
    decreases n
  {
    if n == 0 {
    } else {
      assert Repeat(Check, n)[1..] == Repeat(Check, n - 1);
      ChecksPass(Next(s, Check, max), n - 1, max, k);
    }
  }

  lemma {:induction false} PostflightsCount(s: State, n: nat, max: nat, k: nat)
    requires n <= s.inFlight
    ensures PossibleRun(s, Repeat(Postflight(Unset), n), max, k)
    ensures var s' := After(s, Repeat(Postflight(Unset), n), max);
            Read(s'.days, s'.today).calls == Read(s.days, s.today).calls + n && s'.today == s.today
                && s'.inFlight == s.inFlight - n
    decreases n
  {
    if n == 0 {
    } else {
      assert Repeat(Postflight(Unset), n)[1..] == Repeat(Postflight(Unset), n - 1);
      PostflightsCount(Next(s, Postflight(Unset), max), n - 1, max, k);
    }
  }

  /** One call at a time brings the counter to any value up to the limit. */
  lemma {:induction false} CallsOneByOne(s: State, n: nat, max: nat, k: nat) returns (steps: seq<Step>)
    requires k > 0 && s.inFlight == 0 && Read(s.days, s.today).calls + n <= max
    ensures PossibleRun(s, steps, max, k)
    ensures var s' := After(s, steps, max);
            Read(s'.days, s'.today).calls == Read(s.days, s.today).calls + n && s'.today == s.today && s'.inFlight == 0
    decreases n
  {
    if n == 0 {
      steps := [];
    } else {
      var s' := Next(Next(s, Check, max), Postflight(Unset), max);
      var rest := CallsOneByOne(s', n - 1, max, k);
      steps := [Check, Postflight(Unset)] + rest;
      assert steps[1..] == [Postflight(Unset)] + rest && steps[1..][1..] == rest;
    }
  }

  /** The bound is exact: some run from empty counters reaches max + k - 1 on one day. */
  lemma DailyOvershootIsTight(max: nat, k: nat) returns (steps: seq<Step>)
    requires max > 0 && k > 0
    ensures var start := State(map[], 0, 0);
            && Inv(start, max, k) && PossibleRun(start, steps, max, k)
            && Read(After(start, steps, max).days, 0).calls == max + k - 1
  {
    var start := State(map[], 0, 0);
    var first := CallsOneByOne(start, max - 1, max, k);
    var s1 := After(start, first, max);
    ChecksPass(s1, k, max, k);
    var s2 := s1.(inFlight := k);
    PostflightsCount(s2, k, max, k);
    RunAppend(s1, Repeat(Check, k), Repeat(Postflight(Unset), k), max, k);
    RunAppend(start, first, Repeat(Check, k) + Repeat(Postflight(Unset), k), max, k);
    steps := first + (Repeat(Check, k) + Repeat(Postflight(Unset), k));
  }
}
