/**
 The policy engine: its effective limits, the remote policies it accepts and the cached copy that survives a restart.
 */
module PolicyEngine {
  import opened Wrappers
  import opened PolicyLedger
  import opened PolicyLimits
  import DailyLimit

  /** The cached JSON; decoding what was encoded gives the same policy back. */
  datatype Payload = Empty | Encoded(policy: RemotePolicy) | Corrupt

  /** The single row of `remote_policy_cache`. */
  datatype CacheRow = CacheRow(version: int, payload: Payload)

  /** The guarded upsert: `None` when it is refused. */
  function Saved(row: Option<CacheRow>, version: int, payload: Payload): Option<CacheRow> {
    if version <= 0 || payload.Empty? then None
    else if row.Some? && version <= row.value.version then None
    else Some(CacheRow(version, payload))
  }

  /** The cache takes a policy exactly if it has one, with a version that is positive and newer than the one it has. */
  lemma SavedExactlyWhen(row: Option<CacheRow>, version: int, payload: Payload)
    ensures Saved(row, version, payload).Some? <==>
        0 < version && payload != Empty && (row == None || row.value.version < version)
    ensures Saved(row, version, payload).Some? ==> Saved(row, version, payload) == Some(CacheRow(version, payload))
  {
  }

  class PolicyCache {
    var row: Option<CacheRow>

    constructor ()
      ensures row == None
    {
      row := None;
    }

    method SaveRemotePolicy(version: int, payload: Payload) returns (ok: bool)
      modifies this
      ensures ok == Saved(old(row), version, payload).Some?
      ensures row == if ok then Saved(old(row), version, payload) else old(row)
    {
      if version <= 0 || payload.Empty? {
        return false;
      }
      if row.None? || version > row.value.version {
        row := Some(CacheRow(version, payload));
        return true;
      }
      return false;
    }
  }

  /** What the engine decides with, next to its cache. */
  datatype EngineState = EngineState(local: Limits, limits: Limits, version: int, cache: Option<CacheRow>)

  /** ApplyRemotePolicy: activate without caching. */
  function Applied(s: EngineState, remote: RemotePolicy): Option<EngineState> {
    if remote.version <= 0 then None
    else match Merge(s.local, remote, s.version)
      case None => None
      case Some(merged) => Some(s.(limits := merged, version := remote.version))
  }

  /** CacheAndApplyRemotePolicy: the cache must take the policy first. */
  function CachedAndApplied(s: EngineState, remote: RemotePolicy): Option<EngineState> {
    match Merge(s.local, remote, s.version)
    case None => None
    case Some(merged) =>
      var row := Saved(s.cache, remote.version, Encoded(remote));
      if row.None? then None else Some(s.(limits := merged, version := remote.version, cache := row))
  }

  /** A policy offered by the control plane; nothing changes unless it is accepted. */
  function Offered(s: EngineState, remote: RemotePolicy): EngineState {
    if remote.version == 0 || remote.version <= s.version then s
    else match CachedAndApplied(s, remote)
      case None => s
      case Some(next) => next
  }

  /** The cached policy is intact, and newer than the one the engine has. */
  predicate Loadable(s: EngineState) {
    match s.cache
    case Some(CacheRow(version, Encoded(policy))) => policy.version == version && Applied(s, policy).Some?
    case _ => false
  }

  function Loaded(s: EngineState): EngineState {
    if Loadable(s) then Applied(s, s.cache.value.payload.policy).value else s
  }

  /** A new engine over the same cache, with the limits configured now, and the cached policy loaded into it. */
  function Restarted(s: EngineState, local: Limits): EngineState { Loaded(EngineState(local, local, 0, s.cache)) }

  class Engine {
    const localLimits: Limits
    const cache: PolicyCache
    const store: PolicyStore
    const daily: DailyLimit.DailyStore
    var limits: Limits
    var lastRemoteVersion: int

    ghost function View(): EngineState
      reads this, cache
    {
      EngineState(localLimits, limits, lastRemoteVersion, cache.row)
    }

    constructor (cache: PolicyCache, store: PolicyStore, daily: DailyLimit.DailyStore, limits: Limits)
      requires ValidLimits(limits)
      ensures View() == EngineState(limits, limits, 0, cache.row)
      ensures this.cache == cache && this.store == store && this.daily == daily
    {
      this.cache, this.store, this.daily := cache, store, daily;
      this.localLimits, this.limits, this.lastRemoteVersion := limits, limits, 0;
    }

    method ApplyRemotePolicy(remote: RemotePolicy) returns (ok: bool)
      modifies this
      ensures ok == Applied(old(View()), remote).Some?
      ensures View() == if ok then Applied(old(View()), remote).value else old(View())
    {
      if remote.version <= 0 {
        return false;
      }
      var merged := Merge(localLimits, remote, lastRemoteVersion);
      if merged.None? {
        return false;
      }
      limits, lastRemoteVersion := merged.value, remote.version;
      return true;
    }

    method CacheAndApplyRemotePolicy(remote: RemotePolicy) returns (ok: bool)
      modifies this, cache
      ensures ok == CachedAndApplied(old(View()), remote).Some?
      ensures View() == if ok then CachedAndApplied(old(View()), remote).value else old(View())
    {
      var merged := Merge(localLimits, remote, lastRemoteVersion);
      if merged.None? {
        return false;
      }
      var saved := cache.SaveRemotePolicy(remote.version, Encoded(remote));
      if !saved {
        return false;
      }
      limits, lastRemoteVersion := merged.value, remote.version;
      return true;
    }

    /**
     `syncControlPlanePolicy`: an unchanged policy arrives as version 0. An old one is no error, one that cannot be
     taken is; the etag is kept, `changed`, exactly with a policy that was taken.
     */
    method SyncPolicy(fetched: RemotePolicy) returns (ok: bool, changed: bool)
      modifies this, cache
      ensures View() == Offered(old(View()), fetched)
      ensures changed <==> fetched.version != 0 && lastRemoteVersion == fetched.version > old(lastRemoteVersion)
      ensures ok <==> changed || fetched.version == 0 || fetched.version <= old(lastRemoteVersion)
    {
      if fetched.version == 0 {
        return true, false;
      }
      if fetched.version <= lastRemoteVersion {
        return true, false;
      }
      changed := CacheAndApplyRemotePolicy(fetched);
      return changed, changed;
    }

    /** `loadCachedControlPlanePolicy`: an empty cache is no error, a policy that cannot be loaded is. */
    method LoadCachedPolicy() returns (ok: bool)
      modifies this
      ensures View() == Loaded(old(View()))
      ensures ok == (cache.row.None? || Loadable(old(View())))
    {
      match cache.row
      case None =>
        return true;
      case Some(CacheRow(version, payload)) =>
        match payload {
          case Encoded(policy) =>
            if policy.version != version {
              return false;
            }
            ok := ApplyRemotePolicy(policy);
          case _ =>
            return false;
        }
    }

    /** Admission by the effective limits; a request that is not admitted leaves the ledger alone. */
    method PreflightRequest(facts: RequestFacts, repeatedToolError: bool, repeatedProviderError: bool,
        repeatedToolCall: bool,
                     today: DailyLimit.Day, now: int, reservationId: string) returns (decision: Decision)
      modifies store
      ensures var w := Surroundings(repeatedToolError, repeatedProviderError, repeatedToolCall,
                                    DailyLimit.Read(daily.days, today), old(store.View()), now, reservationId);
              (store.View(), decision) == Preflight(limits, facts, w)
      ensures daily.days == old(daily.days)
    {
      var counter := daily.ReadDailyCounters(today);
      var w := Surroundings(repeatedToolError, repeatedProviderError, repeatedToolCall, counter, store.View(), now,
          reservationId);
      var early := EarlyDecision(limits, facts, w);
      if early.Some? {
        return early.value;
      }
      var reply := store.ReservePolicy(ReserveRequest(limits, facts, w));
      match reply
      case Allowed(attempt) => return Allow(attempt, reservationId);
      case Blocked(limit, attempt, threshold) => return Block(RunLimit(limit), attempt, threshold);
      case Failed => return Error;
    }
  }

  // ---------------------------------------------------------------- any sequence of offers and restarts

  datatype Step = Offer(remote: RemotePolicy) | Restart(local: Limits)

  ghost predicate LegalStep(step: Step) { step.Restart? ==> ValidLimits(step.local) }

  function Next(s: EngineState, step: Step): EngineState {
    match step
    case Offer(remote) => Offered(s, remote)
    case Restart(local) => Restarted(s, local)
  }

  /** The engine with every policy it accepted, oldest first. */
  datatype History = History(engine: EngineState, accepted: seq<RemotePolicy>)

  ghost function Trace(t: History, step: Step): History {
    var next := Next(t.engine, step);
    History(next, if step.Offer? && next != t.engine then t.accepted + [step.remote] else t.accepted)
  }

  ghost function TraceAll(t: History, steps: seq<Step>): History
    decreases |steps|
  {
    if steps == [] then t else TraceAll(Trace(t, steps[0]), steps[1..])
  }

  /** The effective limits and the cache are those of the latest accepted policy. */
  ghost predicate Current(s: EngineState, latest: RemotePolicy) {
    && s.version == latest.version > 0
    && s.cache == Some(CacheRow(latest.version, Encoded(latest)))
    && Merge(s.local, latest, 0) == Some(s.limits)
  }

  ghost predicate Inv(t: History) {
    && ValidLimits(t.engine.local)
    && (forall i, j :: 0 <= i < j < |t.accepted| ==> t.accepted[i].version < t.accepted[j].version)
    && if t.accepted == [] then
         t.engine.version == 0 && t.engine.cache == None && t.engine.limits == t.engine.local
       else
         Current(t.engine, t.accepted[|t.accepted| - 1])
  }

  /** The version only decides whether a merge happens, not what it gives. */
  lemma MergeIgnoresLastVersion(local: Limits, remote: RemotePolicy, lastVersion: int)
    requires Merge(local, remote, lastVersion).Some?
    ensures Merge(local, remote, lastVersion) == Merge(local, remote, 0)
    ensures remote.version > 0 && (lastVersion > 0 ==> remote.version > lastVersion)
  {
  }

  /** A policy that merged once merges with any valid local limits. */
  lemma MergeSurvivesNewLimits(local: Limits, other: Limits, remote: RemotePolicy)
    requires Merge(local, remote, 0).Some? && ValidLimits(other)
    ensures Merge(other, remote, 0).Some?
  {
  }

  lemma OfferKeepsInv(t: History, remote: RemotePolicy)
    requires Inv(t)
    ensures Inv(Trace(t, Offer(remote)))
  {
    hide Merge, ValidLimits;
    if Merge(t.engine.local, remote, t.engine.version).Some? {
      MergeIgnoresLastVersion(t.engine.local, remote, t.engine.version);
    }
  }

  lemma RestartKeepsInv(t: History, local: Limits)
    requires Inv(t) && ValidLimits(local)
    ensures Inv(Trace(t, Restart(local)))
  {
    hide Merge, ValidLimits;
    if t.accepted != [] {
      MergeSurvivesNewLimits(t.engine.local, local, t.accepted[|t.accepted| - 1]);
    }
  }

  lemma StepKeepsInv(t: History, step: Step)
    requires Inv(t) && LegalStep(step)
    ensures Inv(Trace(t, step))
  {
    hide Inv, Trace, ValidLimits;
    match step
    case Offer(remote) => OfferKeepsInv(t, remote);
    case Restart(local) => RestartKeepsInv(t, local);
  }

  /**
   Over any sequence of offered policies and restarts with valid limits: accepted versions strictly increase, the
   effective limits are the merge of the local ones with the latest accepted policy, and the cache holds that policy,
   so that reloading it rebuilds the same limits.
   */
  lemma {:induction false} VersionsAndLimitsAgree(t: History, steps: seq<Step>)
    requires Inv(t) && forall i :: 0 <= i < |steps| ==> LegalStep(steps[i])
    ensures Inv(TraceAll(t, steps))
    decreases |steps|
  {
    if steps == [] {
    } else {
      assert LegalStep(steps[0]);
      StepKeepsInv(t, steps[0]);
      VersionsAndLimitsAgree(Trace(t, steps[0]), steps[1..]);
    }
  }

  /** Restarting with unchanged local limits changes nothing at all. */
  lemma RestartRebuilds(t: History)
    requires Inv(t)
    ensures Restarted(t.engine, t.engine.local) == t.engine
  {
  }

  /** An offer is accepted exactly when its version is new and its limits are limits; otherwise nothing changes. */
  lemma AcceptedExactlyWhen(t: History, remote: RemotePolicy)
    requires Inv(t)
    ensures Offered(t.engine, remote) != t.engine
            <==> remote.version > t.engine.version && AreLimits(remote.caps)
  {
    AreLimitsExactlyWhen(remote.caps);
  }
}
