# Virgil, verified

Virgil is a local circuit breaker for AI agents: a gateway admits or blocks model calls, a supervisor owns the child
process, and SQLite holds executions, budgets, events and an outbox. This project models its transactional state
machines in Dafny and proves what they keep when they interleave.

- `ExecutionRows`: the durable row of a run and the guarded updates that move it.
- `RunRegistry`: the in-memory registry, one step per critical section, in any interleaving.
- `RunEnding`: the supervisor's event loop, the HTTP Finish handler, the registry and the row together. Between any two
  atomic steps stands `Core.Environment`, which performs any finite number of other transactions and lock sections. It
  is code, not an assumption: it calls the same proved methods of the journal and the registry. What reaches the runner
  from outside (its child, the clock, its caller, the signal stream, answers) is a log that only grows. `RunIds` makes
  identifiers for runs registered without one.
- `PolicyLedger`, `DailyLimit`, `DailyCost`, `PolicyLimits`, `PolicyEngine`, `Postflight`: admission, settlement, daily
  limits, merging of limits, the versioned remote policy, and the transaction after a call.
- `Repetition`, `ToolResults`, `RepetitionEngine`: bounded maps with eviction and lazy reload against unbounded
  histories, which are ghost state of the engine class.
- `MessageFolding`, `NamespaceNames`, `ChatReplies`, `ChatStream`, `ToolFingerprints`: the bridge between Responses and
  Chat Completions, streamed and in one piece.
- `Outbox`, `EventPaging`: leases and retries, and keyset paging.

A table is a map and a transaction one atomic method, proved equal to a function of the old tables; what the source
promises is then proved about that function, over every sequence of calls. Lemmas named `...ExactlyWhen` and
`...Records` say of each such function, in terms of its arguments and the tables alone, when it succeeds and what it
writes. Code that computes is written as functions.
Money is `real`; int64 sums, the wrap-around of a duration in nanoseconds and of a token total are explicit. SHA-256 is
an injective function. Times, jitter, scheduling, answers of other processes and failing writes are arbitrary.

Where the code and its documents differ, the code is modelled: README.md line 38 says repetition sequences are reset on
a restart, the code reloads their counts from SQLite; docs/design/2026-09-16-virgil-architecture.md line 82 returns an
expired lease to `retryable`, the code leases the row again as it is; docs/protocol/control-plane.md lines 80-82 give up
on permanent HTTP errors, the code gives up only on a per-event `invalid_event` and retries everything else.

Six properties that one might expect are false of the code. Each has a counterexample and the exact condition under
which it holds: the namespace round trip (`NamespaceNames.DecodeUndoesEncodeExactlyWhen`), the repetition history of an
uncached run (`Repetition.RecordAgreesExactlyWhen`), the meet of two policies whose durations overflow
(`PolicyLimits.MergeIsMeet`), the finality of a delivered row with several drainers
(`Outbox.DeliveredIsFinalExactlyWhen`), one attempt for each failure report (`Outbox.AttemptsCountExactlyWhen`), both of
which drainers that keep to their own leases do have (`Outbox.LeasesKeepDrainersApart`), and output indices that are
positions in the final output (`ChatStream.Translate`, with the failing stream in `ChatStream.EmptyTextShiftsIndices`).

## Model

| member | source | states |
|---|---|---|
| ExecutionRows.UpdatesRaiseRank | internal/storage/executions.go:37-109 | every successful row update strictly raises the rank starting, running, blocked, ended, keeps the row well formed and leaves an earlier policy decision in place |
| ExecutionRows.StepAdvances | internal/storage/executions.go:16-109 | a transaction changes no row except upwards, and one that does not succeed changes neither table |
| ExecutionRows.RowsOnlyAdvance | internal/storage/executions.go:37-109 | over any run of transactions a closed row never changes again, the first policy decision is never overwritten, a policy appears only on blocked or termination_failed rows and the failed termination exactly on the latter |
| ExecutionRows.ExactlyOneBlockEvent | internal/storage/sqlite.go:178-226 | when blocks are recorded with their event, every blocked run has exactly one policy-block event, over any run of transactions |
| ExecutionRows.TransactionOnRow | internal/storage/executions.go:37-57 | apart from finishing and recovery only a mark or a block of the same run can change its row, and only when it reports success |
| ExecutionRows.StartedExactlyWhen | internal/storage/executions.go:16-35 | a run is started exactly if it has an id, a time and no row, and then with which row |
| ExecutionRows.MarkedExactlyWhen | internal/storage/executions.go:37-42 | a row is marked running exactly if it is starting |
| ExecutionRows.BlockedExactlyWhen | internal/storage/executions.go:44-57 | a block is stored exactly if its notice is complete and its row is running, which then carries it |
| ExecutionRows.RecordedExactlyWhen | internal/storage/sqlite.go:196-225 | recording a complete block: a running row takes it with a new event; an already blocked row is told apart from one that cannot be blocked |
| ExecutionRows.FinishedExactlyWhen | internal/storage/executions.go:59-109 | a result is stored exactly if it is well reported and its row is one it can close; the row then records all of it |
| ExecutionRows.RecoveredExactlyWhen | internal/storage/executions.go:272-291 | exactly the starting and running rows are interrupted, at the given time |
| ExecutionRows.AppendedExactlyWhen | internal/storage/sqlite.go:228-247 | an event is stored exactly if it is complete and its identifier is new |
| ExecutionRows.NormalizedExactlyWhen | internal/storage/executions.go:121-131 | the grammar of termination codes, character by character |
| ExecutionRows.Journal.StartExecution | internal/storage/executions.go:16-35 | one row per run id, starting and open; a second start leaves the first row alone |
| ExecutionRows.Journal.MarkExecutionRunning | internal/storage/executions.go:37-42 | succeeds exactly on a starting row, and changes nothing otherwise |
| ExecutionRows.Journal.BlockExecution | internal/storage/executions.go:44-57 | succeeds exactly on a running row with a valid notice, which the row then carries |
| ExecutionRows.Journal.RecordPolicyBlock | internal/storage/sqlite.go:178-226 | event and blocked row appear together or not at all, and a row that is already blocked is told apart |
| ExecutionRows.Journal.FinishExecution | internal/storage/executions.go:59-109 | the three guarded updates: which results are rejected before any SQL, and which rows each of them closes |
| ExecutionRows.Journal.RecoverExecutions | internal/storage/executions.go:272-291 | exactly the starting and running rows are closed as interrupted |
| ExecutionRows.Journal.AppendEvent | internal/storage/sqlite.go:228-262 | one event per identifier: a second one with it is refused; the outbox rows of the same transaction are in `Postflight.Journal.AppendTransaction` |
| ExecutionRows.EmptyTablesAreGood | internal/storage/executions.go:16-35 | the empty database satisfies the invariants of rows and block events |
| RunRegistry.StepKeepsInv | internal/executions/registry.go:37-193 | no critical section of any call breaks the registry's invariant |
| RunRegistry.SafeInEveryInterleaving | internal/executions/registry.go:37-193 | in every interleaving: no send on and no second close of a closed channel, no notice lost to the default arm, at most one signal per registration, at most one Finish in the store per run, and each delete removes the caller's own record |
| RunRegistry.IssuedTokenResolves | internal/executions/registry.go:105-119 | an issued token resolves exactly while its record is mapped, ready and not finishing |
| RunRegistry.RevokedForever | internal/executions/registry.go:164-193 | once a record left the map its token never resolves again, whatever follows |
| RunRegistry.TokensCountExactlyWhen | internal/executions/registry.go:105-146 | however sections interleave after a registration: a subscription succeeds exactly with the signal token it was issued, once, while the record is mapped, ready and not finishing, and the run token resolves exactly meanwhile; every other reply has its own condition |
| RunRegistry.RegisteredAs | internal/executions/registry.go:55-69 | what a registration puts into the map, and which ids it refuses |
| RunRegistry.ReadyHasCause | internal/executions/registry.go:78-81 | a record becomes ready by the last section of its own registration only |
| RunRegistry.ClaimHasCause | internal/executions/registry.go:121-136 | it is claimed by a successful subscription to its run only |
| RunRegistry.FinishingHasCauses | internal/executions/registry.go:164-185 | its finishing flag goes up with a Finish that begins and down with a store error, and not otherwise |
| RunRegistry.ClosedHasCauses | internal/executions/registry.go:137-144 | its stream is closed by its release function or the end of its Finish, and not otherwise |
| RunRegistry.SignalHasCause | internal/executions/registry.go:148-162 | it is signalled by a notice that is taken; a signal leaves the channel when it is received, and not otherwise |
| RunRegistry.EntriesHaveCauses | internal/executions/registry.go:71-76 | a run leaves the map by the end of its Finish or by the undoing of its registration, and not otherwise |
| RunRegistry.FinishBeginsExactlyWhen | internal/executions/registry.go:164-177 | a Finish begins exactly for a ready run that is not finishing, and what the others are told |
| RunRegistry.NoticeTakenExactlyWhen | internal/executions/registry.go:148-162 | a notice is taken exactly by a ready, open run that is not finishing and had none |
| RunRegistry.ChannelsCount | internal/executions/registry.go:148-162 | what the counters of a channel mean: panics and dropped signals are counted when they happen |
| RunRegistry.ValidRunIdExactlyWhen | internal/executions/registry.go:86-97 | the grammar of run ids, character by character |
| RunRegistry.FirstNoticeIsTheSignal | internal/executions/registry.go:148-162 | the first notice to an eligible run is buffered and is the only signal its record ever carries |
| RunRegistry.ClaimedOnce | internal/executions/registry.go:120-135 | a signal token is good for one subscription, over any later interleaving |
| RunRegistry.OtherCallsLeaveRun | internal/executions/registry.go:37-193 | no section of a call on another run, and none that only reads this one, touches a ready run's entry or flags |
| RunRegistry.OtherCallsLeaveCall | internal/executions/registry.go:37-193 | nobody ends a call that is between two of its sections but its own next section |
| RunRegistry.Registry.InsertRun | internal/executions/registry.go:63-69 | a new run is mapped but not ready; a mapped id is refused |
| RunRegistry.Registry.UndoInsert | internal/executions/registry.go:71-76 | after a store error the run id is free again, and only the entry this call made is gone |
| RunRegistry.Registry.MarkReady | internal/executions/registry.go:78-81 | the run accepts calls and its token resolves from here on |
| RunRegistry.Registry.ResolveRunToken | internal/executions/registry.go:105-119 | the scan finds a run exactly if the token resolves for some run |
| RunRegistry.Registry.SubscribeSignals | internal/executions/registry.go:121-146 | one subscriber per registration, with the right token, while the run is ready and not finishing |
| RunRegistry.Registry.ReleaseSignals | internal/executions/registry.go:137-144 | closes the channel once, however often it is called |
| RunRegistry.Registry.Notify | internal/executions/registry.go:148-162 | a notice is taken at most once and never blocks |
| RunRegistry.Registry.TakeSignal | internal/executions/registry.go:121-146 | a subscriber takes the buffered signal if there is one |
| RunRegistry.Registry.BeginFinish | internal/executions/registry.go:165-176 | raises the flag for one caller at a time |
| RunRegistry.Registry.UndoFinish | internal/executions/registry.go:178-183 | after a store error the run accepts calls again |
| RunRegistry.Registry.CommitFinish | internal/executions/registry.go:185-192 | drops the caller's own record and closes its channel unless that was done before |
| RunEnding.StoredReport | internal/storage/executions.go:59-109 | what a report does to the row it meets after interference: which reports are certain to be stored, which can only lose to a block, and how the closed row agrees with the report |
| RunEnding.FirstStateExactlyWhen | internal/executions/http.go:135-175 | which reports the handler accepts and as what state: a malformed one never, a blocked row only how its process was stopped |
| RunEnding.Core.Environment | internal/executions/http.go:115-133 | any number of transactions and lock sections of others moves this run's row only from starting to running to blocked, and leaves its registration and pending calls alone |
| RunEnding.Register | internal/executions/registry.go:37-82 | with any transactions of others before the store is reached and any sections between its own three: the run is registered, ready, with a new row that is still starting, and its token resolves to it, exactly if the random source works and the requested or generated id is valid, not active, and has no row when the store is reached; otherwise the call is refused and no mapped record has its token |
| RunEnding.EmptyRequestIsValid | internal/executions/registry.go:39-44 | an empty request is given a valid id, so it is refused only if that id is taken |
| RunEnding.KnownRunsAreRefused | internal/executions/registry.go:71-76 | an id that has a row is refused whatever others do |
| RunIds.GeneratedIdIsValid | internal/executions/registry.go:40-44 | sixteen random bytes in hexadecimal after a prefix make a valid id |
| RunIds.GeneratedIdsDiffer | internal/executions/registry.go:40-44 | different bytes make different ids |
| RunEnding.Interfere | internal/executions/registry.go:37-82 | given transactions and any sections of others leave a registration that is under way its place and its token |
| RunEnding.Core.Running | internal/executions/http.go:115-133 | the mark-running request answers 204 exactly if it moved the row from starting to running, and 409 exactly if it could not, leaving the row alone |
| RunEnding.Core.Meanwhile | internal/runner/supervisor.go:82-107 | what can arrive while the select waits: it only adds to the log of what has happened, a circuit break comes only from a notice of this run, a good answer only from a request that was accepted, a deadline only if there is one |
| RunEnding.Core.FinishRun | internal/executions/registry.go:164-193 | with interference between its sections, the row is closed by the result, the run is out of the registry for good and its signal stream closed; or the run is registered as before |
| RunEnding.Core.Store | internal/executions/http.go:176-190 | one attempt at the store: which reports are certain to be stored whatever interferes, and that a plain one can fail only because the row is blocked |
| RunEnding.Core.RetryIfBlocked | internal/executions/http.go:177-190 | a report that lost to a block gets 400 if it does not say how the process was stopped, and closes the row as a blocked end if it says that it was |
| RunEnding.Core.Finish | internal/executions/http.go:135-205 | 200 means the row is closed as reported with its policy intact and the run out of the registry; a malformed report always gets 400, a failed termination with a bad code 500; a report of a stopped process, or of one that could not be stopped, always gets 200; a natural exit fails only with 400 and only because the row is blocked |
| RunEnding.Select | internal/runner/supervisor.go:82-145 | a turn of the select settles a state that follows from what has happened, or receives from one of the two one-shot channels; a lost stream, a deadline and a cancellation end an unmarked run as failed and a marked one under their own names |
| RunEnding.EventLoop | internal/runner/supervisor.go:64-146 | the loop ends; its stop reason names something in the log of what happened (a delivered notice, the loss of the stream, the deadline, the cancellation, a failed mark-running), without one it has the exit of the child in that log; a final state other than failed is settled on only when the row has left starting |
| RunEnding.StopChild | internal/runner/supervisor.go:148-167 | the report after a stop reason: the child exited before or was stopped, with the exit code it had, or could not be stopped |
| RunEnding.ReportEnd | internal/runner/supervisor.go:168-177 | at most one retry, only after a natural exit that met a committed block; then the row is closed by the last report and the run out of the registry |
| RunEnding.EndStates | internal/runner/supervisor.go:82-167 | the final row of a run that was not blocked tells what happened: its stop reason names something that did; it carries the exit code of its child, unless that never started or could not be stopped; its state is the one that follows from the stop reason and from whether the runner had its answer to mark-running: gateway_failed, deadline, interrupted or failed; it is completed exactly if it has no stop reason and the child ended well |
| RunEnding.ExitOfUndisturbedRun | internal/runner/supervisor.go:82-146 | a run that nothing disturbed is completed exactly if its child exited with code zero; no run is completed otherwise than after such an exit and an accepted mark-running |
| RunEnding.FinishUnstarted | internal/runner/supervisor.go:42-62 | a run whose signals or child could not be opened is closed by its one report |
| RunEnding.Supervise | internal/runner/supervisor.go:24-182 | in every interleaving the row ends closed after at most two Finish requests and the run's token resolves to nothing; if a block committed it ends blocked with the process stopped, or termination_failed, with that policy; otherwise the row tells what the log says happened, and is completed exactly if the child ended well by itself before anything else was acted on |
| RunEnding.RegisterAndSupervise | internal/runner/supervisor.go:24-182 | from registration on: the run is refused, exactly when it cannot be registered, or ended as above, and in both cases its token resolves to nothing |
| PolicyLedger.CheckedAdd | internal/storage/policy_counters.go:33-42 | rejects exactly the sums with a negative term or outside int64 |
| PolicyLedger.PolicyStore.CheckCaps | internal/storage/policy_counters.go:113-135 | finds the first cap, in order, that the call would pass, or none |
| PolicyLedger.PolicyStore.ReservePolicy | internal/storage/policy_counters.go:55-146 | one admission: overflow and caps are decided in order, and both tables change together or not at all |
| PolicyLedger.PolicyStore.ReconcilePolicy | internal/storage/policy_counters.go:209-303 | one settlement: the reservation and its run's totals change together or not at all |
| PolicyLedger.ReserveIsConsistent | internal/storage/policy_counters.go:55-146 | an admission keeps every run's totals equal to the sums of its reservations |
| PolicyLedger.ReconcileIsConsistent | internal/storage/policy_counters.go:224-303 | so does a settlement |
| PolicyLedger.NoUnderflow | internal/storage/policy_counters.go:275-277 | the counter underflow branch cannot be taken, and cost is never negative |
| PolicyLedger.Conservation | internal/storage/policy_counters.go:55-303 | over any sequence of reserves and reconciles calls equal the number of reservations, the other totals equal the sums of their current values, none is negative and input plus output fits an int64 |
| PolicyLedger.AttemptCountsReservations | internal/storage/policy_counters.go:113-146 | the k-th admitted call carries attempt k, a blocked one the number it would have had, and nothing but an admission changes a table |
| PolicyLedger.BlockedExactlyWhenACapIsPassed | internal/storage/policy_counters.go:113-132 | with valid arguments a call is blocked exactly if it would pass some cap; the block names the first one it would pass, with its threshold and the attempt |
| PolicyLedger.FailsExactlyWhen | internal/storage/policy_counters.go:55-112 | a reserve fails exactly if an identifier is missing, an argument is no quantity, a sum leaves int64, or the call would be allowed and its reservation id is taken |
| PolicyLedger.AllowedRecords | internal/storage/policy_counters.go:133-145 | an allowed call writes its estimates under its reservation id and adds them to its run, which keeps its start |
| PolicyLedger.RunsKeepTheirStart | internal/storage/policy_counters.go:80-82 | no sequence of operations moves the start of a run |
| PolicyLedger.TooLongExactlyWhen | internal/storage/policy_counters.go:113 | the duration guard, with wrapped nanoseconds and a clamped difference |
| PolicyLedger.DurationCountsFromTheFirstCall | internal/storage/policy_counters.go:80-115 | whatever is reserved and settled in between, a call of a run is blocked for its duration exactly if it comes more than the cap after the first admitted call, and none is allowed later |
| PolicyLedger.SettlesExactlyWhen | internal/storage/policy_counters.go:224-290 | a settlement succeeds exactly if it names a reservation of its run that is settled, or can be: the cost is readable and the sums stay in int64 |
| PolicyLedger.SettledRecords | internal/storage/policy_counters.go:254-301 | a settlement writes what the outcome reports, and the estimate where it reports nothing, and moves the sums of the run by the difference |
| PolicyLedger.ReconcileTwice | internal/storage/policy_counters.go:240-242 | settling again, with any outcome, succeeds and changes nothing |
| PolicyLedger.OvershootBound | internal/storage/policy_counters.go:113-145 | with fixed caps for a run, in any interleaving, never more than the allowed calls, and every other capped total at most its cap plus what its reservations ended above their estimates |
| PolicyLedger.HonestEstimatesKeepTheCap | internal/storage/policy_counters.go:113-145 | where no outcome exceeded its estimate no cap is passed |
| DailyLimit.DailyStore.IncrementDailyCounters | internal/storage/policy_counters.go:169-207 | one call and its cost on the current day, or nothing for a malformed cost |
| DailyLimit.DailyStore.ReadDailyCounters | internal/storage/policy_counters.go:149-165 | an uncounted day reads as zero |
| DailyLimit.DailyOvershoot | internal/policies/policy.go:154-161 | with at most k calls between check and postflight no day counts more than the limit plus k - 1, midnights included |
| DailyLimit.DailyOvershootIsTight | internal/policies/policy.go:255-279 | a run from empty counters that reaches limit plus k - 1 |
| DailyLimit.IncrementedExactlyWhen | internal/storage/policy_counters.go:181-207 | a readable cost counts one call and itself on its day, and changes no other day |
| DailyLimit.DaysAreExact | internal/storage/policy_counters.go:181-207 | over any run each day counts exactly the postflights on it with a readable cost |
| DailyCost.DailyCostOvershoot | internal/policies/policy.go:162-175 | no day costs more than the limit, plus the largest total of estimates that were in flight when one more call passed its check, plus what its calls cost above their estimates, midnights included |
| DailyCost.OneAtATimeHasNoPeak | internal/policies/policy.go:162-175 | calls that are checked one at a time add nothing for calls in flight |
| DailyCost.CostsAreExact | internal/storage/policy_counters.go:181-207 | over any run the cost of a day is exactly what the postflights on it cost |
| DailyCost.DailyCostOvershootIsTight | internal/policies/policy.go:255-279 | two calls that reach the bound, for any estimate of the first |
| PolicyLimits.IsAllowed | internal/policies/policy.go:99-109 | an empty list allows everything, any other list its members |
| PolicyLimits.IntersectLists | internal/policies/policy.go:356-374 | the common names in local order, with a flag when both lists were given and nothing is common |
| PolicyLimits.MergedListMeets | internal/policies/policy.go:356-374 | a merged list allows a name exactly if both lists do, and disjoint lists allow nothing |
| PolicyLimits.MergesExactlyWhen | internal/policies/policy.go:303-316 | a remote policy is merged exactly if its version is positive and new and its caps are quantities |
| PolicyLimits.MergedDurationMeets | internal/policies/policy.go:322-334 | the merged duration cap expires exactly when one of the two does, for every elapsed time, if and only if the caps keep their order in wrapped nanoseconds |
| PolicyLimits.SmallDurationsOrdered | internal/storage/policy_counters.go:113-115 | caps of up to 292 years keep it |
| PolicyLimits.OverflowingDurationBreaksTheMeet | internal/storage/policy_counters.go:113-115 | a cap that overflows blocks every call alone, but not merged with a small one |
| PolicyLimits.ReasonsAreTrue | internal/policies/policy.go:115-210 | every reason a block gives is true of the request and of the totals of its run, and none that is looked for before it is; its attempt is the number of the refused call and its threshold the limit it met; an admitted request violates nothing |
| PolicyLimits.AdmissionRecords | internal/policies/policy.go:174-210 | an admission reserves exactly the estimates in the request, or nothing where there are none, one tool call if tools are named, under its reservation id, and adds them to its run; any other decision changes nothing |
| PolicyLimits.AdmittedExactlyWhen | internal/policies/policy.go:115-210 | a request is admitted exactly if it violates no limit, its cost and estimates are quantities and the ledger has room for them |
| PolicyLimits.MergeIsMeet | internal/policies/policy.go:284-320 | for every request, ledger, daily counter and repetition answer the merged limits admit exactly what the local and the remote limits both admit, with the same attempt and ledger: if and only if the duration caps keep their order in wrapped nanoseconds or the merged limits deny every provider or model |
| PolicyEngine.PolicyCache.SaveRemotePolicy | internal/storage/remote_policy.go:22-40 | the cached version only grows; an older or equal one is refused |
| PolicyEngine.SavedExactlyWhen | internal/storage/remote_policy.go:22-40 | the cache takes a policy exactly if its version is positive and newer than the cached one |
| PolicyEngine.Engine.ApplyRemotePolicy | internal/policies/policy.go:214-227 | a policy is activated by merging, or nothing changes |
| PolicyEngine.Engine.CacheAndApplyRemotePolicy | internal/policies/policy.go:236-253 | a policy is cached and activated, or neither |
| PolicyEngine.Engine.SyncPolicy | cmd/virgil/controlplane.go:52-65 | an unchanged or older policy changes nothing and is no error; the etag is kept exactly with a policy that was taken |
| PolicyEngine.Engine.LoadCachedPolicy | cmd/virgil/controlplane.go:37-50 | an engine takes the cached policy exactly if it is undamaged, newer than its own and valid; an empty cache is no error |
| PolicyEngine.Engine.PreflightRequest | internal/policies/policy.go:115-210 | every guard in order, with the attempt and the threshold of a block; a request that is not admitted leaves the ledger alone |
| PolicyEngine.VersionsAndLimitsAgree | internal/policies/policy.go:214-253 | over any sequence of offers and restarts accepted versions strictly increase, the effective limits are the merge with the latest accepted policy, and cache and engine agree on its version |
| PolicyEngine.RestartRebuilds | cmd/virgil/controlplane.go:37-50 | reloading the cache rebuilds the same effective limits |
| PolicyEngine.AcceptedExactlyWhen | cmd/virgil/controlplane.go:52-65 | an offer changes the engine exactly if its version is newer and its limits are valid |
| Postflight.Journal.PostflightAndAppend | internal/storage/postflight.go:16-62 | settlement, daily count, event and outbox rows are committed together, exactly when each of them can be, redaction and encoding included, and otherwise nothing changes |
| Postflight.Journal.AppendTransaction | internal/storage/sqlite.go:228-262 | an event and its outbox rows are inserted together, or neither |
| Postflight.InsertRows | internal/storage/postflight.go:50-60 | one invalid, repeated or known destination and none of the rows is inserted |
| Postflight.RetryChangesNothing | internal/storage/postflight.go:16-62 | a committed postflight that is tried again, with any outcome, fails and changes nothing |
| Postflight.CommitsExactlyWhen | internal/storage/postflight.go:16-62 | the transaction commits exactly if the outcome settles, its cost is readable, and the event is new, writable and has distinct, valid destinations; an event by itself needs only the last of these |
| Postflight.EngineCountsExactlyWhen | internal/policies/policy.go:255-279 | the engine's postflight succeeds exactly on a plain outcome that can be settled, and then counts one call and its cost on the day |
| Postflight.EngineRepeatCountsTwice | internal/policies/policy.go:255-279 | the engine's own postflight, repeated, settles nothing more but counts the call and its cost again |
| Postflight.DaysCountEvents | internal/storage/postflight.go:16-62 | over any sequence of admissions, postflights, retries and other events, each day's counter is the number and the cost of the events committed on it, and the outbox holds exactly their rows |
| Repetition.RecordAgreesExactlyWhen | internal/policies/repetition.go:38-81 | a record keeps the bounded detector equal to the unbounded history exactly when the run is cached or forgetting its stored count is harmless |
| Repetition.LookupIsExact | internal/policies/repetition.go:85-115 | a lookup answers whether the last three entries of the whole history are equal, cached, evicted or reloaded |
| Repetition.BoundedIsExact | internal/policies/repetition.go:38-115 | so over any sequence of records, lookups, evictions and restarts in which each record is disciplined |
| Repetition.LookupsMakeItExact | internal/policies/repetition.go:38-115 | a detector that is asked about a run right before each record of it answers exactly, whatever is evicted and whenever it restarts |
| Repetition.RecordWithoutLookupForgets | internal/policies/repetition.go:53-58 | a third equal call right after a restart goes unnoticed |
| Repetition.PutIsWellFormed | internal/policies/repetition.go:53-62 | eviction always finds an oldest run, and map and order list stay in step within 1024 runs |
| Repetition.PutEvictsExactlyWhen | internal/policies/repetition.go:53-57 | a new run costs an older one its entry exactly if 1024 are tracked, and then the one that came first |
| RepetitionEngine.Observe | internal/policies/repetition.go:52-70 | one entry in place, evicting the oldest run when a new one needs room |
| RepetitionEngine.LoadAndCompare | internal/policies/repetition.go:85-115 | the lookup with lazy reload from the durable row |
| RepetitionEngine.InsertRun | internal/policies/repetition.go:53-62 | makes room by evicting the oldest run when the map is full, and keeps map and order list in step |
| RepetitionEngine.IdentifiersAre | internal/policies/repetition.go:12-15 | the grammars of run ids and fingerprints, character by character |
| RepetitionEngine.AcceptResult | internal/policies/repetition.go:140-158 | one result on one entry in place: a remembered id changes nothing, otherwise the oldest of 256 ids makes room |
| RepetitionEngine.InsertKeeps | internal/policies/repetition.go:131-139 | a new or loaded tool-error entry, with its eviction, leaves every other entry the summary of its accepted results |
| RepetitionEngine.Extend | internal/policies/repetition.go:140-158 | the first result after a reload counts as the first of a new entry, any other extends the summary |
| RepetitionEngine.RepetitionState.RecordToolCalls | internal/policies/repetition.go:38-81 | extends the run's history, and stays in agreement with it exactly when disciplined |
| RepetitionEngine.RepetitionState.RepeatedToolCall | internal/policies/repetition.go:85-115 | true exactly if the last three tool calls of the run's whole history are equal |
| RepetitionEngine.RepetitionState.RecordProviderOutcome | internal/policies/repetition.go:167-203 | the same for provider outcomes, where a success ends a block of errors |
| RepetitionEngine.RepetitionState.RepeatedProviderError | internal/policies/repetition.go:234-263 | true exactly if the run's last three provider outcomes are the same error |
| RepetitionEngine.RepetitionState.RecordToolResult | internal/policies/repetition.go:117-165 | a result extends those accepted since the entry was made or loaded, exactly if its call id is not among the last 256 of them; the durable row then holds the length of the block of equal errors at their end; a new entry costs the oldest one if 1024 are tracked, and all others are kept |
| RepetitionEngine.RepetitionState.RepeatedToolErrorOf | internal/policies/repetition.go:206-231 | true exactly if the last three results accepted by the entry are the same error; before the first of them its kept or loaded count decides; only a positive durable count makes an entry |
| ToolResults.DigestIsFaithful | internal/policies/repetition.go:128 | the digested text tells tool, status and code apart for all valid results |
| ToolResults.ValidResultExactlyWhen | internal/policies/repetition.go:121-127 | the grammars of labels and codes, and what a result must have |
| ToolResults.AcceptKeepsOrder | internal/policies/repetition.go:144-149 | the order list lists the remembered ids without repeats, so forgetting its first is safe |
| ToolResults.AcceptExtends | internal/policies/repetition.go:140-157 | a new result extends the summarised sequence and slides the window of 256 ids, a repeated one changes nothing |
| ToolResults.ThreeMeansSameError | internal/policies/repetition.go:206-212 | the counter reaches three exactly when the last three accepted results are the same error |
| MessageFolding.Normalize | internal/gateway/responses_chat.go:179-205 | the loop that rewrites first and last elements is the fold the lemmas are about |
| MessageFolding.FoldFrom | internal/gateway/responses_chat.go:182-205 | a list in normal form stays in it whatever is folded in |
| MessageFolding.Push | internal/gateway/responses_chat.go:183-203 | one message keeps the normal form, and is refused exactly if it is guidance and the last message is not |
| MessageFolding.FailsExactlyWhen | internal/gateway/responses_chat.go:186-189 | normalization fails exactly when guidance follows a conversation message |
| MessageFolding.FixedPoints | internal/gateway/responses_chat.go:179-205 | a list is left alone exactly if it has at most one guidance message, a leading system one, and no adjacent users; normalizing twice is normalizing once |
| MessageFolding.NormalizedPrefix | internal/gateway/responses_chat.go:179-205 | a normalized beginning can stand for the original, whatever follows |
| MessageFolding.ResultMergesBlocks | internal/gateway/responses_chat.go:190-203 | the result is the list cut into maximal blocks of guidance and of users, each joined by blank lines |
| MessageFolding.ConversationIsKept | internal/gateway/responses_chat.go:203 | assistant and tool messages come through unchanged and in order |
| NamespaceNames.Cut | internal/gateway/responses_chat.go:322-336 | splits at the first occurrence, or reports that there is none |
| NamespaceNames.SentExactlyAs | internal/gateway/responses_chat.go:322-327 | a dotted name travels behind the prefix with two underscores, any other as it is |
| NamespaceNames.DecodeUndoesEncodeExactlyWhen | internal/gateway/responses_chat.go:322-336 | decoding undoes encoding exactly for names whose namespace has no double and no trailing underscore, and for undotted names that do not look encoded |
| NamespaceNames.CleanMeans | internal/gateway/responses_chat.go:331 | the test on the namespace in its own words |
| NamespaceNames.EncodeUndoesDecodeExactlyWhen | internal/gateway/responses_chat.go:322-336 | encoding undoes decoding exactly when the decoded namespace, or the plain name, has no dot |
| NamespaceNames.DeclaredToolsComeBackExactlyWhen | internal/gateway/responses_chat.go:237-273 | a call of a declared tool is answered under its declared name exactly if it is a plain function or its namespace does not end in an underscore before its first dot |
| NamespaceNames.DeclaredToolsStayApart | internal/gateway/responses_chat.go:237-273 | two such tools are never sent under one name |
| NamespaceNames.TrailingUnderscoreIsLost | internal/gateway/responses_chat.go:237-240 | a declarable namespace none of whose tools comes back |
| ChatReplies.CompleteReply | internal/gateway/responses_chat.go:373-399 | the response, or the first error in order, for any content, calls and usage |
| ChatReplies.CompleteExactlyWhen | internal/gateway/responses_chat.go:373-399 | a reply becomes a response exactly if it is complete, and which error it gets otherwise; the text comes first and the calls in order, each with its own id, arguments and decoded name; token counts are those of the reply and their total wraps around |
| ChatReplies.TranslatedExactlyWhen | internal/gateway/responses_chat.go:401-418 | a reply in one piece has one choice, of the assistant; missing content is empty |
| ChatReplies.DeclaredCallsAreAnswered | internal/gateway/responses_chat.go:322-336 | a call of a declared tool under the name it was sent with is answered under the declared name, if its namespace ends clean |
| ChatStream.AddFragments | internal/gateway/responses_chat.go:509-518 | every call is the concatenation of its own fragments in arrival order |
| ChatStream.JoinedAppends | internal/gateway/responses_chat.go:509-518 | id, name and arguments of a call's fragments: the later text follows the earlier |
| ChatStream.OneFragmentSays | internal/gateway/responses_chat.go:509-518 | one fragment is its own call, and no other |
| ChatStream.OnlyAppends | internal/gateway/responses_chat.go:509-518 | a call's fragments are kept in the order in which they came |
| ChatStream.ChoicesAppend | internal/gateway/responses_chat.go:489-518 | texts and fragments of successive choices follow each other |
| ChatStream.ChunksAppend | internal/gateway/responses_chat.go:469-489 | choices of successive chunks follow each other, and the last usage that is given counts |
| ChatStream.InterleavingIsIrrelevant | internal/gateway/responses_chat.go:509-518 | fragments of different calls may interleave in any way |
| ChatStream.ContiguousIsRange | internal/gateway/responses_chat.go:537-544 | the check for gaps means the indices are exactly 0 to n - 1, negative ones excluded |
| ChatStream.InOrder | internal/gateway/responses_chat.go:537-544 | lists the calls by index, or reports a gap |
| ChatStream.ApplyChoice | internal/gateway/responses_chat.go:489-525 | one choice: its text, fragments and finish reason, its events, and the two errors it can have |
| ChatStream.ApplyText | internal/gateway/responses_chat.go:493-508 | the text item and part are announced before the first delta, and once |
| ChatStream.ApplyChunk | internal/gateway/responses_chat.go:469-526 | one chunk: identity, usage and choices, with the events in protocol order |
| ChatStream.Conclude | internal/gateway/responses_chat.go:534-583 | the part after the end of the stream: the same reply, then the closing events, or an error that says why not |
| ChatStream.EndText | internal/gateway/responses_chat.go:549-561 | the three endings of the text item, with the whole text, if it was begun |
| ChatStream.SendCalls | internal/gateway/responses_chat.go:562-574 | each call is announced and done in order, under the number of items before it |
| ChatStream.Translate | internal/gateway/responses_chat.go:434-583 | a stream is translated exactly if it is acceptable and every write succeeds: a write error is reported only for a write that failed, after those that did not; then into what the assembled message would be translated into, and into exactly one list of events, which is spelled out; every event's index is its item's position in the final output exactly if the text deltas were not all empty |
| ChatStream.AcceptableExactlyWhen | internal/gateway/responses_chat.go:455-548 | a stream with an end is acceptable exactly if it is one model's answer in one choice that finishes in one of two ways, its calls are numbered from zero without a gap, and a reply with its text, calls and last usage can be answered; and that is the answer |
| ChatStream.EndlessIsNotAcceptable | internal/gateway/responses_chat.go:455-468 | a stream that is broken before its end, or has none, is not acceptable |
| ChatStream.AnnouncedInPlace | internal/gateway/responses_chat.go:494-574 | in any event sequence of the protocol every event, of an item, a part or a text, carries the place of its item among those announced, and no later event moves it |
| ChatStream.IndicesArePositionsExactlyWhen | internal/gateway/responses_chat.go:549-582 | in a finished stream every event's index is its item's position in the final output exactly if every announced item is in it |
| ChatStream.EmptyTextExactlyWhen | internal/gateway/responses_chat.go:504 | the joined text is empty exactly if every text delta was |
| ChatStream.EmptyTextShiftsIndices | internal/gateway/responses_chat.go:493-582 | a concrete stream, one chunk with an empty text delta and one call, is acceptable, and no translation of it has indices that are positions |
| ChatStream.TranslateEmptyText | internal/gateway/responses_chat.go:434-583 | that stream is translated, with indices that are not positions |
| ChatStream.DeltasAreTheText | internal/gateway/responses_chat.go:504-507 | the text sent piece by piece is the text of the message item |
| ToolFingerprints.ToolStreams.AddToolDelta | internal/providers/tool_fingerprint.go:36-54 | refuses exactly indices out of range and a 257th call, and otherwise extends one call |
| ToolFingerprints.ToolStreams.FinishToolDeltas | internal/providers/tool_fingerprint.go:56-71 | lists the fingerprints in key order whatever order the map yields them in |
| ToolFingerprints.SortedKeys | internal/providers/tool_fingerprint.go:57-66 | sorts the keys whatever order the map yields them in |
| ToolFingerprints.SortedOnce | internal/providers/tool_fingerprint.go:61-66 | there is one sorted order |
| ToolFingerprints.StreamFingerprints | internal/providers/sse.go:150-158 | a whole stream is accepted exactly if it stays within the limits, and is then listed |
| ToolFingerprints.OnlyTheTextsMatter | internal/providers/tool_fingerprint.go:25-34 | streams of the same calls have the same list exactly if each call's deltas say the same together |
| ToolFingerprints.NeighboursCommute | internal/providers/tool_fingerprint.go:36-54 | deltas of different calls can change places |
| ToolFingerprints.PiecesAreOne | internal/providers/tool_fingerprint.go:25-28 | a delta can arrive in pieces |
| ToolFingerprints.AnswerFingerprints | internal/providers/openai_compatible.go:204-213 | the list of an answer in one piece |
| ToolFingerprints.StreamedEqualsWhole | internal/providers/openai_compatible.go:204-213 | streamed with positions as indices, an answer has exactly the list it has in one piece |
| Outbox.SelectDue | internal/storage/outbox.go:38-53 | the earliest due rows, in order, as many as the limit allows |
| Outbox.Journal.Enqueue | internal/storage/postflight.go:50-60 | a new row is pending with no attempts; an invalid destination, or a second row for it, is refused |
| Outbox.Journal.Lease | internal/storage/outbox.go:28-84 | exactly the selected rows are being sent afterwards, with a lease of five minutes |
| Outbox.Journal.Ack | internal/storage/outbox.go:86-108 | delivers exactly the listed rows that were being sent |
| Outbox.Journal.WriteFailure | internal/storage/outbox.go:123-141 | one attempt more than an earlier statement read, in whatever state the row is by now; given up at the tenth, otherwise due again after a backoff |
| Outbox.Journal.Fail | internal/storage/outbox.go:110-142 | both statements of a failure report, with nobody between them |
| Outbox.Journal.GiveUp | internal/storage/outbox.go:144-153 | ends a row that is being sent, and no other |
| Outbox.Journal.Settle | internal/export/controlplane.go:30-50 | one leased row ends as the answer says, with the error code that fits, and no other row changes |
| Outbox.Journal.Drain | internal/export/controlplane.go:14-52 | given whether leasing succeeds and where the storage fails, if it does: exactly the earliest due rows are leased; each row before the failure ends delivered exactly if accepted, dead exactly if rejected or out of attempts, else retryable no earlier than 2^attempts seconds later; without a failure that is every leased row, also when sending failed, and none is left being sent; each row after a failure keeps its five-minute lease; none is created, lost or otherwise touched, and the call is a step of the runs below |
| Outbox.SettlingEndsRows | internal/storage/outbox.go:110-153 | a settlement uses up some of a due row's remaining attempts, leaves live rows below ten and none being sent |
| Outbox.LiveRowsComeBack | internal/storage/outbox.go:42-46 | no live row is stuck: it is due once its backoff, or the lease a broken drain left it with, is over |
| Outbox.DueExactlyWhen | internal/storage/outbox.go:38-47 | a row is leased only when its turn has come |
| Outbox.NextLeaseWaits | internal/storage/outbox.go:38-47 | however many drains come between, a row whose sending failed is not leased again before 2^attempts seconds, and one that a broken drain left behind not before five minutes |
| Outbox.LeasedAtMostTenTimes | internal/export/controlplane.go:14-52 | over any run of drains, broken ones and new rows included, a row's settled leases are its attempts plus its delivery; so it is leased at most ten times more often than drains broke off before they got to it, and at most ten times if none did |
| Outbox.SettledForGood | internal/export/controlplane.go:14-52 | what is delivered or dead stays so over any run of drains |
| Outbox.DeliveredIsFinalExactlyWhen | internal/storage/outbox.go:110-142 | among several drainers, with failure reports that read before they write, a delivered row is never touched exactly if no failure of it is reported |
| Outbox.AttemptsCountExactlyWhen | internal/storage/outbox.go:110-153 | among several drainers a row never gains more than one attempt for each failure report or giving up, and gains exactly that many exactly if no report was overtaken by a write of attempts between its two statements |
| Outbox.LeasesKeepDrainersApart | internal/storage/outbox.go:28-153 | while every drainer settles the row once and within its own lease, no report is overtaken, each costs exactly one attempt, and a delivered or dead row is never touched again |
| Outbox.LateFailureReopens | internal/storage/outbox.go:134-140 | the interleaving of two drainers that makes a delivered row retryable |
| Outbox.InterleavedFailuresLoseAnAttempt | internal/storage/outbox.go:116-141 | two drainers, the first one late, whose failure reports both read before either wrote, cost one attempt together |
| EventPaging.Query | internal/storage/outbox.go:178-203 | the first rows after the cursor in (created_at, event_id) order |
| EventPaging.List | internal/storage/outbox.go:178-226 | one page and the next cursor, which is empty exactly on the last page; the two errors |
| EventPaging.Jsonl | internal/export/jsonl.go:33-57 | on an unchanging table the loop ends and the lines are all events in order, each once, or those before the first event that cannot be written; the file holds them all, or after an error some beginning of them |
| EventPaging.WritePage | internal/export/jsonl.go:38-50 | writes the lines of a page up to the first event that cannot be rendered |
| EventPaging.ContentAppends | internal/export/jsonl.go:44-50 | the lines in the file follow each other, each with its newline |
| EventPaging.SortedOnce | internal/storage/outbox.go:193-203 | there is one such order |
| EventPaging.NothingTwiceNothingMissed | internal/export/jsonl.go:33-55 | on a table that changes between pages no event is listed twice or out of order, and none that was there throughout is missed |

## Left out

- ExecutionRows.Journal.AppendEvent: leaves out the outbox rows of its transaction, which are in `Postflight.Journal.AppendTransaction`, because the rows of executions do not depend on them.
- Tool-error sequences across a reload: the code does not restore the fingerprint and the seen ids (internal/policies/repetition.go:226), so a sequence starts anew there, as the theorems say.
- The several-drainers theorems follow one row at a time, and a drainer there has at most one failure report of the row under way; the count of leases is about drains that follow one another.
- A `select` of the runner that nothing ever wakes: waiting is assumed to end. A random source that fails at any of its draws refuses a registration in the same way.
- SQL failures, a restart of the core during a supervised run, and control calls that are not delivered: `RunEnding` assumes none of them. A restart is modelled for rows, repetition and policies only.
- Two registrations that draw the same random token: tokens are assumed fresh, as are the handles of records.
- Registry objects are records under handles in one map, so that a release function can outlive the map entry; the channel is a queue of capacity one with counters for panics and drops.
- Notices during finishing are dropped by the code (internal/executions/registry.go:152), so a block need not produce a signal; nothing more is claimed.
- Authentication, decoding and size limits of the HTTP handlers; the 5-second timeout of Finish.
- Process groups and job objects: whether the child stops is an arbitrary answer.
- The decimal grammar and the rational parser: a cost text is unset, malformed or a number, with a flag for the strict grammar.
- A configured daily cost of zero blocks nothing (internal/policies/policy.go:172); the model does the same.
- Prune, which resets a run's budget at startup.
- Concurrent calls of one repetition operation: each is atomic here, though the code saves to the table after it released its lock.
- Failing saves and loads of repetition rows.
- Parsing of Responses requests and JSON itself; tool choice and the copying of tool descriptions.
- Frames and lines of a stream: the model starts from its data lines, and everything that ends a stream early is one case.
- The text and usage parts of the provider stream (internal/providers/sse.go); only its tool fingerprints are modelled.
- Payloads that cannot be decoded, in a lease or a page; identifiers in payloads equal those of their rows.
- The idle backoff of the delivery loop, whose shift overflows in 64 bits (cmd/virgil/controlplane.go:93).
- OTLP export, dashboard, credentials, SSRF checks, cookies and CSRF.
