/**
 Limits, their merge with a remote policy, and the admission decision they lead to.

 `Preflight` is the decision as a function of the limits and of everything else it reads: the repetition answers, the
 daily counter and the ledger. The main result is that merging two sets of limits admits exactly what both admit.
 */
module PolicyLimits {
  import opened Wrappers
  import opened PolicyLedger
  import DailyLimit

  /** An empty list allows everything, unless its `deny` flag says that an intersection came out empty. */
  datatype Limits = Limits(caps: Caps, providers: seq<string>, models: seq<string>, tools: seq<string>,
                           denyProviders: bool, denyModels: bool, denyTools: bool,
                           callsPerDay: int, costPerDay: CostText)

  /** The fields a remote policy may set, with its version. */
  datatype RemotePolicy = RemotePolicy(version: int, caps: Caps, providers: seq<string>, models: seq<string>,
      tools: seq<string>)

  datatype RequestFacts = RequestFacts(runId: Option<string>, provider: string, model: string, toolNames: seq<string>,
                                       startedAt: Option<int>, cost: CostText, input: Option<int>, output: Option<int>)

  datatype BlockReason =
    | RepeatedToolError | RepeatedProviderError | RepeatedToolCall
    | ProviderNotAllowed | ModelNotAllowed | ToolNotAllowed | CostUnavailable
    | DailyCallLimit | DailyCostLimit | RunLimit(limit: Limit)

  /** A block names the attempt it refused and the threshold that attempt met, where its reason has them. */
  datatype Decision =
    | Allow(attempt: int, reservationId: string) | Block(reason: BlockReason, attempt: int, threshold: int) | Error

  /** Everything but the limits and the request that an admission depends on. */
  datatype Surroundings = Surroundings(repeatedToolError: bool, repeatedProviderError: bool, repeatedToolCall: bool,
                                       daily: DailyLimit.Counter, ledger: Ledger, now: int, reservationId: string)

  /** The value of a text in the strict grammar of configured and estimated costs. */
  function PlainDecimal(text: CostText): Option<real> {
    match text
    case Unset => Some(0.0)
    case Malformed => None
    case Decimal(value, plain) => if plain && value >= 0.0 then Some(value) else None
  }

  predicate Allowed(list: seq<string>, value: string) { list == [] || value in list }

  /** The search loop. */
  method IsAllowed(list: seq<string>, value: string) returns (ok: bool)
    ensures ok == Allowed(list, value)
  {
    if list == [] {
      return true;
    }
    for i := 0 to |list|
      invariant value !in list[..i]
    {
      if list[i] == value {
        return true;
      }
    }
    return false;
  }

  // ---------------------------------------------------------------- merging

  function StricterInt(a: int, b: int): int {
    if a == 0 then b else if b == 0 then a else if a < b then a else b
  }

  function StricterCost(a: CostText, b: CostText): Option<CostText> {
    if a.Unset? then Some(b)
    else if b.Unset? then Some(a)
    else if a.Malformed? || b.Malformed? then None
    else Some(if a.value <= b.value then a else b)
  }

  /** The elements of `local` that are also in `remote`, in order. */
  function Common(local: seq<string>, remote: seq<string>): (common: seq<string>)
    ensures forall v :: v in common <==> v in local && v in remote
  {
    if local == [] then []
    else
      var init, last := local[..|local| - 1], local[|local| - 1];
      assert local == init + [last];
      Common(init, remote) + if last in remote then [last] else []
  }

  function StricterList(local: seq<string>, remote: seq<string>): (seq<string>, bool) {
    if local == [] then (remote, false)
    else if remote == [] then (local, false)
    else (Common(local, remote), Common(local, remote) == [])
  }

  lemma CommonAppend(local: seq<string>, remote: seq<string>, k: nat)
    requires k < |local|
    ensures Common(local[..k + 1], remote)
            == Common(local[..k], remote) + (if local[k] in remote then [local[k]] else [])
  {
    assert local[..k + 1][..k] == local[..k];
  }

  /** The intersection loop over a set of the remote names. */
  method IntersectLists(local: seq<string>, remote: seq<string>) returns (result: (seq<string>, bool))
    ensures result == StricterList(local, remote)
  {
    if local == [] {
      return (remote, false);
    }
    if remote == [] {
      return (local, false);
    }
    var remoteSet := set v | v in remote;
    var out := [];
    for i := 0 to |local|
      invariant out == Common(local[..i], remote)
    {
      CommonAppend(local, remote, i);
      if local[i] in remoteSet {
        out := out + [local[i]];
      }
    }
    assert local[..|local|] == local;
    return (out, out == []);
  }

  function MergeCaps(a: Caps, b: Caps, cost: CostText): Caps {
    Caps(StricterInt(a.calls, b.calls), StricterInt(a.input, b.input), StricterInt(a.output, b.output),
         StricterInt(a.total, b.total), StricterInt(a.tools, b.tools), StricterInt(a.seconds, b.seconds), cost)
  }

  predicate NoneNegative(caps: Caps) {
    0 <= caps.calls && 0 <= caps.input && 0 <= caps.output && 0 <= caps.total && 0 <= caps.tools && 0 <= caps.seconds
  }

  /** `None` for a version that is not positive or not newer, and for limits that are no limits. */
  function Merge(local: Limits, remote: RemotePolicy, lastVersion: int): Option<Limits> {
    if remote.version <= 0 || (lastVersion > 0 && remote.version <= lastVersion)
       || !NoneNegative(remote.caps) || PlainDecimal(remote.caps.cost).None? then None
    else
      var cost := StricterCost(local.caps.cost, remote.caps.cost);
      if cost.None? then None
      else
        var (providers, noProvider) := StricterList(local.providers, remote.providers);
        var (models, noModel) := StricterList(local.models, remote.models);
        var (tools, noTool) := StricterList(local.tools, remote.tools);
        Some(Limits(MergeCaps(local.caps, remote.caps, cost.value), providers, models, tools,
                    local.denyProviders || noProvider, local.denyModels || noModel, local.denyTools || noTool,
                    local.callsPerDay, local.costPerDay))
  }

  /** Caps that are quantities: none is negative, and the cost is unset or a plain decimal. */
  ghost predicate AreLimits(caps: Caps) {
    && (forall cap :: cap in [caps.calls, caps.input, caps.output, caps.total, caps.tools, caps.seconds] ==> cap >= 0)
    && (caps.cost.Unset? || (caps.cost.Decimal? && caps.cost.plain && 0.0 <= caps.cost.value))
  }

  lemma AreLimitsExactlyWhen(caps: Caps)
    ensures AreLimits(caps) <==> NoneNegative(caps) && PlainDecimal(caps.cost).Some?
  {
    var all := [caps.calls, caps.input, caps.output, caps.total, caps.tools, caps.seconds];
    assert all[0] in all && all[1] in all && all[2] in all && all[3] in all && all[4] in all && all[5] in all;
  }

  /** A remote policy is merged exactly if its version is positive and new and its caps are quantities. */
  lemma MergesExactlyWhen(local: Limits, remote: RemotePolicy, lastVersion: int)
    requires !local.caps.cost.Malformed?
    ensures Merge(local, remote, lastVersion).Some? <==>
        remote.version > 0 && (lastVersion > 0 ==> remote.version > lastVersion) && AreLimits(remote.caps)
  {
    AreLimitsExactlyWhen(remote.caps);
  }

  /** The remote policy as limits of its own: it has no daily limits and denies nothing outright. */
  function RemoteLimits(remote: RemotePolicy): Limits {
    Limits(remote.caps, remote.providers, remote.models, remote.tools, false, false, false, 0, Unset)
  }

  /** What NewEngine accepts. */
  predicate ValidLimits(limits: Limits) {
    NoneNegative(limits.caps) && 0 <= limits.callsPerDay
    && PlainDecimal(limits.caps.cost).Some? && PlainDecimal(limits.costPerDay).Some?
  }

  // ---------------------------------------------------------------- admission

  predicate ToolAllowed(limits: Limits, name: string) { !limits.denyTools && Allowed(limits.tools, name) }

  predicate ToolsRefused(limits: Limits, names: seq<string>) {
    exists i :: 0 <= i < |names| && !ToolAllowed(limits, names[i])
  }

  function DailyDecision(limits: Limits, facts: RequestFacts, daily: DailyLimit.Counter): Option<Decision> {
    if limits.callsPerDay > 0 && daily.calls >= limits.callsPerDay then
      Some(Block(DailyCallLimit, daily.calls + 1, limits.callsPerDay))
    else if limits.costPerDay.Unset? then None
    else if PlainDecimal(limits.costPerDay).None? || PlainDecimal(facts.cost).None? then Some(Error)
    else if DailyLimit.CostRefused(daily.cost, PlainDecimal(facts.cost).value,
        PlainDecimal(limits.costPerDay).value) then
      Some(Block(DailyCostLimit, 0, 0))
    else None
  }

  function Tokens(estimate: Option<int>): int { if estimate.Some? then estimate.value else 0 }

  function ReserveRequest(limits: Limits, facts: RequestFacts, w: Surroundings): PolicyReserve
    requires facts.runId.Some?
  {
    PolicyReserve(facts.runId.value, w.reservationId, if facts.startedAt.Some? then facts.startedAt.value else w.now,
                  w.now, Tokens(facts.input), Tokens(facts.output),
                  if facts.toolNames == [] then 0 else 1, facts.cost, limits.caps)
  }

  /** Every guard before the ledger, in order; `None` when the request may try to reserve. */
  function EarlyDecision(limits: Limits, facts: RequestFacts, w: Surroundings): Option<Decision> {
    if facts.runId.None? then Some(Error)
    else if w.repeatedToolError then Some(Block(RepeatedToolError, 4, 3))
    else if w.repeatedProviderError then Some(Block(RepeatedProviderError, 4, 3))
    else if w.repeatedToolCall then Some(Block(RepeatedToolCall, 4, 3))
    else if limits.denyProviders || !Allowed(limits.providers, facts.provider) then
      Some(Block(ProviderNotAllowed, 0, 0))
    else if limits.denyModels || !Allowed(limits.models, facts.model) then Some(Block(ModelNotAllowed, 0, 0))
    else if ToolsRefused(limits, facts.toolNames) then Some(Block(ToolNotAllowed, 0, 0))
    else if !limits.caps.cost.Unset? && facts.cost.Unset? then Some(Block(CostUnavailable, 0, 0))
    else if PlainDecimal(facts.cost).None? then Some(Error)
    else if DailyDecision(limits, facts, w.daily).Some? then DailyDecision(limits, facts, w.daily)
    else if Tokens(facts.input) < 0 || Tokens(facts.output) < 0 then Some(Error)
    else None
  }

  function Preflight(limits: Limits, facts: RequestFacts, w: Surroundings): (Ledger, Decision) {
    var early := EarlyDecision(limits, facts, w);
    if early.Some? then (w.ledger, early.value)
    else
      var (ledger, reply) := Reserve(w.ledger, ReserveRequest(limits, facts, w));
      (ledger, match reply
               case Allowed(attempt) => Allow(attempt, w.reservationId)
               case Blocked(limit, attempt, threshold) => Block(RunLimit(limit), attempt, threshold)
               case Failed => Error)
  }

  // ---------------------------------------------------------------- what a decision says and does

  /** An estimate in a request; one that is not given counts nothing. */
  ghost predicate Estimates(facts: RequestFacts, call: Usage) {
    && call.input == (match facts.input case Some(n) => n case None => 0)
    && call.output == (match facts.output case Some(n) => n case None => 0)
    && call.tools == (if |facts.toolNames| > 0 then 1 else 0)
    && call.cost == (match facts.cost case Decimal(value, _) => value case _ => 0.0)
  }

  /** The run's row as the request finds it; a run without one starts with it, at the time given or else now. */
  ghost predicate Stands(facts: RequestFacts, w: Surroundings, run: RunTotals)
    requires facts.runId.Some?
  {
    if facts.runId.value in w.ledger.runs then run == w.ledger.runs[facts.runId.value]
    else
      && run.calls == 0 && run.usage == Usage(0, 0, 0, 0.0)
      && run.startedAt == (match facts.startedAt case Some(at) => at case None => w.now)
  }

  /** One more call that uses this much. */
  ghost predicate Adds(before: RunTotals, call: Usage, after: RunTotals) {
    && after.startedAt == before.startedAt && after.calls == before.calls + 1
    && after.usage.input == before.usage.input + call.input && after.usage.output == before.usage.output + call.output
    && after.usage.tools == before.usage.tools + call.tools && after.usage.cost == before.usage.cost + call.cost
  }

  /** The run would pass this limit with the call in it. */
  ghost predicate WouldPass(limits: Limits, limit: Limit, before: RunTotals, after: RunTotals, now: int) {
    var caps := limits.caps;
    match limit
    case DurationLimit => TooLong(caps, before.startedAt, now)
    case CallLimit => 0 < caps.calls < after.calls
    case InputLimit => 0 < caps.input < after.usage.input
    case OutputLimit => 0 < caps.output < after.usage.output
    case TotalLimit => 0 < caps.total < after.usage.input + after.usage.output
    case ToolLimit => 0 < caps.tools < after.usage.tools
    case CostLimit => caps.cost.Decimal? && caps.cost.value < after.usage.cost
  }

  /** The run and the call of a request, in the terms of the ledger. */
  lemma RequestIs(limits: Limits, facts: RequestFacts, w: Surroundings, call: Usage, before: RunTotals,
                  after: RunTotals)
    requires facts.runId.Some? && Estimates(facts, call) && Stands(facts, w, before) && Adds(before, call, after)
    ensures var r := ReserveRequest(limits, facts, w);
            && r.runId == facts.runId.value && r.reservationId == w.reservationId && r.now == w.now
            && r.caps == limits.caps && r.cost == facts.cost
            && Finds(w.ledger, r, before) && SumsTo(before, r, after.usage)
            && call == Usage(r.input, r.output, r.tools, CostOf(r.cost))
  {
  }

  /** What each reason says about the request. */
  ghost predicate IsTrue(reason: BlockReason, limits: Limits, facts: RequestFacts, w: Surroundings, before: RunTotals,
                         after: RunTotals)
  {
    match reason
    case RepeatedToolError => w.repeatedToolError
    case RepeatedProviderError => w.repeatedProviderError
    case RepeatedToolCall => w.repeatedToolCall
    case ProviderNotAllowed => limits.denyProviders || (limits.providers != [] && facts.provider !in limits.providers)
    case ModelNotAllowed => limits.denyModels || (limits.models != [] && facts.model !in limits.models)
    case ToolNotAllowed =>
      exists name :: name in facts.toolNames && (limits.denyTools || (limits.tools != [] && name !in limits.tools))
    case CostUnavailable => facts.cost.Unset? && !limits.caps.cost.Unset?
    case DailyCallLimit => 0 < limits.callsPerDay <= w.daily.calls
    case DailyCostLimit =>
      && limits.costPerDay.Decimal? && !facts.cost.Malformed?
      && 0.0 < limits.costPerDay.value < w.daily.cost + CostOf(facts.cost)
    case RunLimit(limit) => WouldPass(limits, limit, before, after, w.now)
  }

  /** The order in which reasons are looked for. */
  ghost function Precedence(reason: BlockReason): nat {
    match reason
    case RepeatedToolError => 0
    case RepeatedProviderError => 1
    case RepeatedToolCall => 2
    case ProviderNotAllowed => 3
    case ModelNotAllowed => 4
    case ToolNotAllowed => 5
    case CostUnavailable => 6
    case DailyCallLimit => 7
    case DailyCostLimit => 8
    case RunLimit(limit) => 9 + OrderOf(limit)
  }

  /** The numbers of a block: the attempt it refused, counted from one, and the threshold. */
  ghost predicate Counts(decision: Decision, limits: Limits, w: Surroundings, before: RunTotals)
    requires decision.Block?
  {
    match decision.reason
    case RepeatedToolError => decision.attempt == 4 && decision.threshold == 3
    case RepeatedProviderError => decision.attempt == 4 && decision.threshold == 3
    case RepeatedToolCall => decision.attempt == 4 && decision.threshold == 3
    case DailyCallLimit => decision.attempt == w.daily.calls + 1 && decision.threshold == limits.callsPerDay
    case RunLimit(limit) =>
      decision.attempt == before.calls + 1 && decision.threshold == ThresholdOf(limits.caps, limit)
    case _ => decision.attempt == 0 && decision.threshold == 0
  }

  lemma NamesAreRefused(limits: Limits, names: seq<string>)
    ensures ToolsRefused(limits, names) <==>
        exists name :: name in names && (limits.denyTools || (limits.tools != [] && name !in limits.tools))
  {
    if ToolsRefused(limits, names) {
      var i :| 0 <= i < |names| && !ToolAllowed(limits, names[i]);
      assert names[i] in names;
    }
  }

  /**
   A block tells the truth: the request violates the limit it names, and none that is looked at before; its numbers are
   the attempt and the threshold. An admitted request violates none at all. A daily cost limit of zero is no limit.
   */
  lemma ReasonsAreTrue(limits: Limits, facts: RequestFacts, w: Surroundings, call: Usage, before: RunTotals,
                       after: RunTotals, other: BlockReason)
    requires facts.runId.Some? && Estimates(facts, call) && Stands(facts, w, before) && Adds(before, call, after)
    ensures var decision := Preflight(limits, facts, w).1;
            && (decision.Block? ==>
                  && IsTrue(decision.reason, limits, facts, w, before, after) && Counts(decision, limits, w, before)
                  && (Precedence(other) < Precedence(decision.reason) ==>
                        !IsTrue(other, limits, facts, w, before, after)))
            && (decision.Allow? ==> !IsTrue(other, limits, facts, w, before, after))
  {
    hide Reserve, ReserveRequest, Finds, SumsTo, Adds, Stands, Estimates, TooLong;
    NamesAreRefused(limits, facts.toolNames);
    RequestIs(limits, facts, w, call, before, after);
    var r := ReserveRequest(limits, facts, w);
    if EarlyDecision(limits, facts, w).None? && Reserve(w.ledger, r).1 != Failed {
      BlockedExactlyWhenACapIsPassed(w.ledger, r, before, after.usage);
      PassesWould(limits, before, after, call, w.now);
    }
  }

  lemma PassesWould(limits: Limits, before: RunTotals, after: RunTotals, call: Usage, now: int)
    requires Adds(before, call, after)
    ensures forall limit :: Passes(limits.caps, before, after.usage, now, limit)
                            <==> WouldPass(limits, limit, before, after, now)
  {
  }

  /**
   What an admission does: under the reservation id the ledger holds the request's estimates, the run's totals grow by
   them, a run without a row is started, and the attempt is the number of its calls. Any other decision does nothing.
   */
  lemma AdmissionRecords(limits: Limits, facts: RequestFacts, w: Surroundings, call: Usage, before: RunTotals,
                         after: RunTotals)
    requires facts.runId.Some? && Estimates(facts, call) && Stands(facts, w, before) && Adds(before, call, after)
    ensures var (ledger, decision) := Preflight(limits, facts, w);
            && (decision.Allow? ==>
                  && decision.reservationId == w.reservationId && decision.attempt == after.calls
                  && ledger.reservations == w.ledger.reservations[w.reservationId :=
                       Reservation(facts.runId.value, call, false)]
                  && ledger.runs == w.ledger.runs[facts.runId.value := after])
            && (!decision.Allow? ==> ledger == w.ledger)
  {
    hide Reserve, ReserveRequest, Finds, SumsTo, Adds, Stands, Estimates;
    RequestIs(limits, facts, w, call, before, after);
    assert after == RunTotals(before.startedAt, before.calls + 1, after.usage) by { AddsUp(before, call, after); }
    var r := ReserveRequest(limits, facts, w);
    if Reserve(w.ledger, r).1.Allowed? {
      AllowedRecords(w.ledger, r, before, after.usage);
    }
    RefusedReservesNothing(w.ledger, r);
  }

  lemma AddsUp(before: RunTotals, call: Usage, after: RunTotals)
    requires Adds(before, call, after)
    ensures after == RunTotals(before.startedAt, before.calls + 1, after.usage)
  {
  }

  lemma RefusedReservesNothing(l: Ledger, r: PolicyReserve)
    ensures !Reserve(l, r).1.Allowed? ==> Reserve(l, r).0 == l
  {
  }

  /**
   A request with a run id and no violated limit is admitted, unless its cost or an estimate is no quantity, or the
   ledger cannot take it; then the decision is an error.
   */
  lemma AdmittedExactlyWhen(limits: Limits, facts: RequestFacts, w: Surroundings, call: Usage, before: RunTotals,
                            after: RunTotals)
    requires ValidLimits(limits) && Consistent(w.ledger)
    requires facts.runId.Some? && facts.runId.value != "" && w.reservationId != ""
        && w.reservationId !in w.ledger.reservations
    requires Estimates(facts, call) && Stands(facts, w, before) && Adds(before, call, after)
    ensures Preflight(limits, facts, w).1.Allow? <==>
        && (forall reason :: !IsTrue(reason, limits, facts, w, before, after))
        && (facts.cost.Unset? || (facts.cost.Decimal? && facts.cost.plain && 0.0 <= facts.cost.value))
        && 0 <= call.input && 0 <= call.output
        && after.usage.input + after.usage.output <= MAX_INT64 && after.usage.tools <= MAX_INT64
        && before.calls != MAX_INT64
  {
    hide Reserve, ReserveRequest, Finds, SumsTo, Adds, Stands, Consistent, TooLong, EarlyDecision, ValidLimits, IsTrue,
        WouldPass, Passes;
    EarlyExactlyWhen(limits, facts, w, call, before, after);
    RequestIs(limits, facts, w, call, before, after);
    var r := ReserveRequest(limits, facts, w);
    FailsExactlyWhen(w.ledger, r, before, after.usage);
    RunLimitsAre(limits, facts, w, call, before, after);
    ValidCaps(limits);
    AddsUp(before, call, after);
    assert (forall reason :: !IsTrue(reason, limits, facts, w, before, after)) <==>
        && (forall reason: BlockReason :: !reason.RunLimit? ==> !IsTrue(reason, limits, facts, w, before, after))
        && (forall limit :: !IsTrue(RunLimit(limit), limits, facts, w, before, after)) by {
      assert forall reason: BlockReason :: reason.RunLimit? ==> reason == RunLimit(reason.limit);
    }
    if EarlyDecision(limits, facts, w).None? {
      assert Preflight(limits, facts, w).1.Allow? <==> Reserve(w.ledger, r).1.Allowed?;
      if Reserve(w.ledger, r).1 != Failed {
        BlockedExactlyWhenACapIsPassed(w.ledger, r, before, after.usage);
      }
    } else {
      EarlyNeverAllows(limits, facts, w);
    }
  }

  lemma EarlyNeverAllows(limits: Limits, facts: RequestFacts, w: Surroundings)
    requires EarlyDecision(limits, facts, w).Some?
    ensures !Preflight(limits, facts, w).1.Allow?
  {
  }

  lemma ValidCaps(limits: Limits)
    requires ValidLimits(limits)
    ensures Readable(limits.caps.cost)
  {
  }

  lemma RunLimitsAre(limits: Limits, facts: RequestFacts, w: Surroundings, call: Usage, before: RunTotals,
                     after: RunTotals)
    requires Adds(before, call, after)
    ensures forall limit :: Passes(limits.caps, before, after.usage, w.now, limit)
                            <==> IsTrue(RunLimit(limit), limits, facts, w, before, after)
  {
    hide TooLong;
    PassesWould(limits, before, after, call, w.now);
  }

  lemma EarlyExactlyWhen(limits: Limits, facts: RequestFacts, w: Surroundings, call: Usage, before: RunTotals,
                         after: RunTotals)
    requires ValidLimits(limits) && facts.runId.Some? && Estimates(facts, call)
    ensures EarlyDecision(limits, facts, w).None? <==>
        && (forall reason: BlockReason :: !reason.RunLimit? ==> !IsTrue(reason, limits, facts, w, before, after))
        && (facts.cost.Unset? || (facts.cost.Decimal? && facts.cost.plain && 0.0 <= facts.cost.value))
        && 0 <= call.input && 0 <= call.output
  {
    hide TooLong, WouldPass;
    NamesAreRefused(limits, facts.toolNames);
    assert IsTrue(RepeatedToolError, limits, facts, w, before, after) == w.repeatedToolError;
    assert IsTrue(RepeatedProviderError, limits, facts, w, before, after) == w.repeatedProviderError;
    assert IsTrue(RepeatedToolCall, limits, facts, w, before, after) == w.repeatedToolCall;
    assert IsTrue(ProviderNotAllowed, limits, facts, w, before, after)
        == (limits.denyProviders || !Allowed(limits.providers, facts.provider));
    assert IsTrue(ModelNotAllowed, limits, facts, w, before, after)
        == (limits.denyModels || !Allowed(limits.models, facts.model));
    assert IsTrue(ToolNotAllowed, limits, facts, w, before, after) == ToolsRefused(limits, facts.toolNames);
    assert IsTrue(CostUnavailable, limits, facts, w, before, after)
        == (!limits.caps.cost.Unset? && facts.cost.Unset?);
    assert IsTrue(DailyCallLimit, limits, facts, w, before, after) == (0 < limits.callsPerDay <= w.daily.calls);
    if facts.cost.Unset? || (facts.cost.Decimal? && facts.cost.plain && 0.0 <= facts.cost.value) {
      assert IsTrue(DailyCostLimit, limits, facts, w, before, after)
          == (limits.costPerDay.Decimal?
              && DailyLimit.CostRefused(w.daily.cost, CostOf(facts.cost), limits.costPerDay.value));
    }
  }

  // ---------------------------------------------------------------- the meet of two policies

  ghost predicate Admits(limits: Limits, facts: RequestFacts, w: Surroundings) {
    Preflight(limits, facts, w).1.Allow?
  }

  lemma MergedIntMeets(a: int, b: int, x: int)
    requires 0 <= a && 0 <= b
    ensures (StricterInt(a, b) > 0 && x > StricterInt(a, b)) <==> (a > 0 && x > a) || (b > 0 && x > b)
    ensures (StricterInt(a, b) > 0 && x >= StricterInt(a, b)) <==> (a > 0 && x >= a) || (b > 0 && x >= b)
  {
  }

  /** Two lists merged allow what both allow; disjoint lists allow nothing, which the flag remembers. */
  lemma MergedListMeets(local: seq<string>, remote: seq<string>, value: string)
    ensures var (merged, none) := StricterList(local, remote);
            (!none && Allowed(merged, value)) <==> Allowed(local, value) && Allowed(remote, value)
  {
  }

  /** Both durations, in wrapped nanoseconds, are in the order of their seconds, or one is unlimited. */
  predicate DurationsOrdered(a: int, b: int) {
    a == 0 || b == 0
    || (Wrap64(StricterInt(a, b) * NANOS_PER_SECOND) <= Wrap64(a * NANOS_PER_SECOND)
        && Wrap64(StricterInt(a, b) * NANOS_PER_SECOND) <= Wrap64(b * NANOS_PER_SECOND))
  }

  predicate Expired(seconds: int, elapsed: int) {
    seconds > 0 && Saturate64(elapsed) > Wrap64(seconds * NANOS_PER_SECOND)
  }

  /** The duration guard of two limits is the meet of their guards exactly when their durations keep their order. */
  lemma MergedDurationMeets(a: int, b: int)
    requires 0 <= a && 0 <= b
    ensures (forall elapsed :: Expired(StricterInt(a, b), elapsed) <==> Expired(a, elapsed) || Expired(b, elapsed))
            <==> DurationsOrdered(a, b)
  {
    if a > 0 && b > 0 {
      var c := StricterInt(a, b);
      var elapsed := Wrap64(c * NANOS_PER_SECOND);
      assert Saturate64(elapsed) == elapsed;
      assert !Expired(c, elapsed);
      if !DurationsOrdered(a, b) {
        assert Expired(a, elapsed) || Expired(b, elapsed);
      }
    }
  }

  /** Durations below about 292 years do keep their order. */
  lemma SmallDurationsOrdered(a: int, b: int)
    requires 0 <= a <= MAX_INT64 / NANOS_PER_SECOND && 0 <= b <= MAX_INT64 / NANOS_PER_SECOND
    ensures DurationsOrdered(a, b)
  {
  }

  /** A remote duration that overflows blocks every call by itself, yet merging it with a small one does not. */
  lemma OverflowingDurationBreaksTheMeet()
    ensures !DurationsOrdered(10, 9_223_372_037)
    ensures Expired(9_223_372_037, 0) && !Expired(StricterInt(10, 9_223_372_037), 0)
  {
  }

  /** The ledger's part of an admission, with the caps apart from the rest. */
  ghost predicate FitsLedger(l: Ledger, r: PolicyReserve) {
    && r.runId != "" && r.reservationId != "" && Added(r.input, r.output).Some? && r.tools >= 0
        && PolicyDecimal(r.cost).Some?
    && NextUsage(RunOf(l, r).usage, r, PolicyDecimal(r.cost).value).Some? && RunOf(l, r).calls != MAX_INT64
    && r.reservationId !in l.reservations
  }

  ghost predicate WithinCaps(caps: Caps, run: RunTotals, next: Usage, now: int) {
    PolicyDecimal(caps.cost).Some? && FirstLimit(caps, run, next, now).None?
  }

  lemma MergedCapsMeet(a: Caps, b: Caps, cost: CostText, run: RunTotals, next: Usage, now: int)
    requires NoneNegative(a) && NoneNegative(b) && DurationsOrdered(a.seconds, b.seconds)
    requires PlainDecimal(a.cost).Some? && PlainDecimal(b.cost).Some? && StricterCost(a.cost, b.cost) == Some(cost)
    ensures WithinCaps(MergeCaps(a, b, cost), run, next, now)
            <==> WithinCaps(a, run, next, now) && WithinCaps(b, run, next, now)
  {
    MergedDurationMeets(a.seconds, b.seconds);
    assert TooLong(MergeCaps(a, b, cost), run.startedAt, now)
        == Expired(StricterInt(a.seconds, b.seconds), now - run.startedAt);
    assert TooLong(a, run.startedAt, now) == Expired(a.seconds, now - run.startedAt);
    assert TooLong(b, run.startedAt, now) == Expired(b.seconds, now - run.startedAt);
    MergedIntMeets(a.calls, b.calls, run.calls);
    MergedIntMeets(a.input, b.input, next.input);
    MergedIntMeets(a.output, b.output, next.output);
    MergedIntMeets(a.total, b.total, next.input + next.output);
    MergedIntMeets(a.tools, b.tools, next.tools);
  }

  lemma MergedToolsMeet(local: Limits, remote: RemotePolicy, merged: Limits, names: seq<string>)
    requires merged.tools == StricterList(local.tools, remote.tools).0
    requires merged.denyTools == (local.denyTools || StricterList(local.tools, remote.tools).1)
    ensures ToolsRefused(merged, names) <==> ToolsRefused(local, names) || ToolsRefused(RemoteLimits(remote), names)
  {
  }

  lemma MergedEarlyMeets(local: Limits, remote: RemotePolicy, lastVersion: int, facts: RequestFacts, w: Surroundings)
    requires ValidLimits(local) && Merge(local, remote, lastVersion).Some?
    ensures EarlyDecision(Merge(local, remote, lastVersion).value, facts, w).None?
            <==> EarlyDecision(local, facts, w).None? && EarlyDecision(RemoteLimits(remote), facts, w).None?
  {
    var merged := Merge(local, remote, lastVersion).value;
    MergedListMeets(local.providers, remote.providers, facts.provider);
    MergedListMeets(local.models, remote.models, facts.model);
    MergedToolsMeet(local, remote, merged, facts.toolNames);
  }

  lemma AdmitsWhen(limits: Limits, facts: RequestFacts, w: Surroundings)
    requires facts.runId.Some?
    ensures var r := ReserveRequest(limits, facts, w);
            Admits(limits, facts, w) <==>
            && EarlyDecision(limits, facts, w).None? && FitsLedger(w.ledger, r)
            && var next := NextUsage(RunOf(w.ledger, r).usage, r, PolicyDecimal(r.cost).value).value;
               WithinCaps(limits.caps, RunOf(w.ledger, r), next, w.now)
  {
  }

  /** Limits decide whether a request is admitted, never what its admission does. */
  lemma AdmissionIgnoresLimits(a: Limits, b: Limits, facts: RequestFacts, w: Surroundings)
    requires Admits(a, facts, w) && Admits(b, facts, w)
    ensures Preflight(a, facts, w) == Preflight(b, facts, w)
  {
  }

  lemma FitsLedgerIgnoresCaps(l: Ledger, r: PolicyReserve, caps: Caps)
    ensures FitsLedger(l, r) <==> FitsLedger(l, r.(caps := caps))
    ensures RunOf(l, r) == RunOf(l, r.(caps := caps))
    ensures PolicyDecimal(r.cost).Some? ==> NextUsage(RunOf(l, r).usage, r, PolicyDecimal(r.cost).value)
                                            == NextUsage(RunOf(l, r).usage, r.(caps := caps),
                                                PolicyDecimal(r.cost).value)
  {
  }

  /** The merged limits decide this request as both policies together do, and admit it as each of them would. */
  ghost predicate MeetsAt(local: Limits, remote: RemotePolicy, merged: Limits, facts: RequestFacts, w: Surroundings) {
    && (Admits(merged, facts, w) <==> Admits(local, facts, w) && Admits(RemoteLimits(remote), facts, w))
    && (Admits(merged, facts, w) ==>
          Preflight(merged, facts, w) == Preflight(local, facts, w) == Preflight(RemoteLimits(remote), facts, w))
  }

  lemma OrderedDurationsMeet(local: Limits, remote: RemotePolicy, lastVersion: int, facts: RequestFacts,
      w: Surroundings)
    requires ValidLimits(local) && Merge(local, remote, lastVersion).Some?
    requires DurationsOrdered(local.caps.seconds, remote.caps.seconds)
    ensures MeetsAt(local, remote, Merge(local, remote, lastVersion).value, facts, w)
  {
    hide Admits, Preflight, EarlyDecision, FitsLedger, WithinCaps, NextUsage;
    var merged := Merge(local, remote, lastVersion).value;
    MergedEarlyMeets(local, remote, lastVersion, facts, w);
    if facts.runId.None? {
      NoRunNoAdmission(merged, facts, w);
      NoRunNoAdmission(local, facts, w);
    } else {
      var r := ReserveRequest(local, facts, w);
      FitsLedgerIgnoresCaps(w.ledger, r, merged.caps);
      FitsLedgerIgnoresCaps(w.ledger, r, remote.caps);
      AdmitsWhen(merged, facts, w);
      AdmitsWhen(local, facts, w);
      AdmitsWhen(RemoteLimits(remote), facts, w);
      if FitsLedger(w.ledger, r) {
        FitsNext(w.ledger, r);
        var run := RunOf(w.ledger, r);
        var next := NextUsage(run.usage, r, PolicyDecimal(r.cost).value).value;
        MergedCapsMeet(local.caps, remote.caps, merged.caps.cost, run, next, w.now);
      }
      if Admits(merged, facts, w) {
        AdmissionIgnoresLimits(merged, local, facts, w);
        AdmissionIgnoresLimits(merged, RemoteLimits(remote), facts, w);
      }
    }
  }

  /**
   Limits that deny every provider or every model admit nothing, and neither do two policies with nothing in common.
   */
  lemma DenyingMeets(local: Limits, remote: RemotePolicy, lastVersion: int, facts: RequestFacts, w: Surroundings)
    requires ValidLimits(local) && Merge(local, remote, lastVersion).Some?
    requires Merge(local, remote, lastVersion).value.denyProviders || Merge(local, remote, lastVersion).value.denyModels
    ensures MeetsAt(local, remote, Merge(local, remote, lastVersion).value, facts, w)
  {
    hide Reserve;
    MergedEarlyMeets(local, remote, lastVersion, facts, w);
  }

  /** A first call of a new run that costs nothing and names no tool. */
  function LoneCall(provider: string, model: string): RequestFacts {
    RequestFacts(Some("run"), provider, model, [], Some(0), Decimal(0.0, true), None, None)
  }

  function Quiet(elapsed: int): Surroundings {
    Surroundings(false, false, false, DailyLimit.Counter(0, 0.0), Ledger(map[], map[]), elapsed, "reservation")
  }

  /** Where its names are allowed, nothing but the duration can stop such a call. */
  lemma LoneCallAdmitted(limits: Limits, provider: string, model: string, elapsed: int)
    requires ValidLimits(limits) && !limits.denyProviders && !limits.denyModels
    requires Allowed(limits.providers, provider) && Allowed(limits.models, model)
    ensures Admits(limits, LoneCall(provider, model), Quiet(elapsed)) <==> !Expired(limits.caps.seconds, elapsed)
  {
    hide Wrap64, Saturate64;
    var facts, w := LoneCall(provider, model), Quiet(elapsed);
    assert EarlyDecision(limits, facts, w).None?;
    assert TooLong(limits.caps, 0, elapsed)
        == Expired(limits.caps.seconds, elapsed) by { TooLongIsExpired(limits.caps, elapsed); }
  }

  lemma TooLongIsExpired(caps: Caps, elapsed: int)
    ensures TooLong(caps, 0, elapsed) == Expired(caps.seconds, elapsed)
  {
    assert elapsed - 0 == elapsed;
  }

  /** A list that is empty or has a member allows some name. */
  function SomeName(list: seq<string>): string { if list == [] then "" else list[0] }

  lemma UnorderedDurationsMiss(local: Limits, remote: RemotePolicy, lastVersion: int)
    requires ValidLimits(local) && Merge(local, remote, lastVersion).Some?
    ensures var merged := Merge(local, remote, lastVersion).value;
            !DurationsOrdered(local.caps.seconds, remote.caps.seconds) && !merged.denyProviders && !merged.denyModels
            ==> exists facts, w :: !MeetsAt(local, remote, merged, facts, w)
  {
    hide Admits, Preflight, EarlyDecision, Expired, DurationsOrdered;
    var merged := Merge(local, remote, lastVersion).value;
    if !DurationsOrdered(local.caps.seconds, remote.caps.seconds) && !merged.denyProviders && !merged.denyModels {
      MergedDurationMeets(local.caps.seconds, remote.caps.seconds);
      var elapsed :| !(Expired(StricterInt(local.caps.seconds, remote.caps.seconds), elapsed)
                       <==> Expired(local.caps.seconds, elapsed) || Expired(remote.caps.seconds, elapsed));
      var provider, model := SomeName(merged.providers), SomeName(merged.models);
      MergedListMeets(local.providers, remote.providers, provider);
      MergedListMeets(local.models, remote.models, model);
      LoneCallAdmitted(merged, provider, model, elapsed);
      LoneCallAdmitted(local, provider, model, elapsed);
      LoneCallAdmitted(RemoteLimits(remote), provider, model, elapsed);
      assert !MeetsAt(local, remote, merged, LoneCall(provider, model), Quiet(elapsed));
    }
  }

  /**
   For every ledger, daily counter and repetition answer, the merged limits admit a request if and only if both the
   local and the remote limits admit it, with the same attempt and the same new ledger: exactly when the two duration
   caps keep their order in wrapped nanoseconds, or the merged limits deny every provider or every model.
   */
  lemma MergeIsMeet(local: Limits, remote: RemotePolicy, lastVersion: int)
    requires ValidLimits(local) && Merge(local, remote, lastVersion).Some?
    ensures var merged := Merge(local, remote, lastVersion).value;
            (forall facts, w :: MeetsAt(local, remote, merged, facts, w))
            <==> DurationsOrdered(local.caps.seconds, remote.caps.seconds) || merged.denyProviders || merged.denyModels
  {
    hide MeetsAt, DurationsOrdered, ValidLimits;
    var merged := Merge(local, remote, lastVersion).value;
    if DurationsOrdered(local.caps.seconds, remote.caps.seconds) {
      forall facts, w
        ensures MeetsAt(local, remote, merged, facts, w)
      {
        OrderedDurationsMeet(local, remote, lastVersion, facts, w);
      }
    } else if merged.denyProviders || merged.denyModels {
      forall facts, w
        ensures MeetsAt(local, remote, merged, facts, w)
      {
        DenyingMeets(local, remote, lastVersion, facts, w);
      }
    } else {
      UnorderedDurationsMiss(local, remote, lastVersion);
    }
  }

  lemma NoRunNoAdmission(limits: Limits, facts: RequestFacts, w: Surroundings)
    requires facts.runId.None?
    ensures !Admits(limits, facts, w)
  {
  }

  lemma FitsNext(l: Ledger, r: PolicyReserve)
    requires FitsLedger(l, r)
    ensures PolicyDecimal(r.cost).Some? && NextUsage(RunOf(l, r).usage, r, PolicyDecimal(r.cost).value).Some?
  {
  }
}
