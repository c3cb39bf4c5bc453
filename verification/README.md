# Verified model of the auction supply and marketplace core

A vehicle-auction site buys listings from two providers, Copart and IAAI, through one metered API, and lets
private sellers list cars of their own. This project models the parts of the backend where correctness depends on
interleavings, on arithmetic over a month of quota, or on an algorithm doing more than its body shows, and proves
what the rest of the system relies on.

Database transactions that lock their row, or that write under a guard, are atomic steps. Everything between two
steps may be interrupted: workers keep stale local variables, crash, and interleave with every other caller.
Services whose methods update rows are classes with those rows as fields. Each method is proved equal to a step
of a state machine, and the theorems are about all runs of that machine. Time is one monotone clock, owner tokens
and attempt ids are fresh random strings, and a failed database call changes nothing.

| file | contents |
|---|---|
| `Leases.dfy` | fenced provider leases and recovery of stale import jobs |
| `Discovery.dfy` | the cursor-chain sweep of many workers: chain, miss counting |
| `DiscoveryCases.dfy` | concrete runs of the sweep: looping cursors, a shown lot that is charged |
| `DiscoveryLeases.dfy` | every run of the sweep is a run of the lease protocol, and what follows |
| `DiscoveryRun.dfy` | `runDiscovery` as imperative code over those rows, calling the transport |
| `Calendar.dfy`, `Budget.dfy` | UTC days and billing months; the reserve / confirm / complete ledger |
| `Transport.dfy` | one `listVehicles` call: hooks, retry loop, settlement of every attempt |
| `Scheduler.dfy` | the tick: pacing, rotation, and its composition with all of the above |
| `Marketplace.dfy` | listings and inquiries with stale reads and guarded writes |
| `Interleave.dfy` | the two-provider catalogue merge |
| `ImportJob.dfy` | page loop, duplicate-page detection and accounting of an import job |
| `HotOffers.dfy` | greedy selection under diversity caps, provider cap, manual overrides |
| `Visibility.dfy` | three forms of the public-visibility rule |
| `Wrappers.dfy` | `Option`, `Min`, `Max`, lower case |

The results compose. `Scheduler.FreshnessScheduler.Tick` calls `DiscoveryRun.DiscoveryService.RunDiscovery`, which
calls `Transport.ListCall`, which calls `Budget.RequestBudgetService`; every row a run touches moves by the steps
of `Discovery`, and every run of `Discovery` is a run of `Leases` on the same lease row
(`DiscoveryLeases.SweepRunsAreLeaseRuns`). So the statement that a day of ticks stays on pace is about the
ledger that those very calls leave, and the statement that a page is committed exactly when its last attempt is
recorded as a success relates two tables that no single method writes. Likewise the tenures of `Leases` are disjoint
for the sweep's workers, and no worker's pages are interleaved with another's
(`DiscoveryLeases.CommitsNotInterleaved`).

## Where the code does less than it seems to

Each of these is proved, with the exact condition or a concrete run.

- A lot seen by a sweep can still be charged a miss by it. An auction search writes the clock reading it took
  earlier without holding the lease; if a cycle began in between, the reading is behind the cycle's start.
  `Discovery.ShownLotChargedExactly` says exactly when this happens, and `DiscoveryCases.ShownLotIsCharged` is a run
  from an empty market in which it does.
- A sweep can go round in circles. The code rejects a next cursor that equals the current one, but not one sent
  earlier in the cycle, and an empty next cursor is stored but not sent, so it asks for the first page again. Such a
  cycle is never exhausted (`Discovery.LoopLastsForEver`, `DiscoveryCases.EmptyCursorNeverEnds`), and with finitely
  many cursors a cycle has a last page exactly if none is sent twice (`Discovery.ExhaustsIffNeverLoops`).
  `DiscoveryCases.CirclingSweepLoops` gives a provider and a run.
- Replicas whose ticks overlap overshoot the pace together. `n` of them add at most `n` times what one may spend
  (`Scheduler.OverlappingTicksBound`), and that much is reached whenever the day's cap has room
  (`Scheduler.OverlappingTicksOvershoot`).
- A tick whose runs all miss their deadline before the first attempt never ends (`Scheduler.LateRunsNeverEnd`); a run
  does so, for instance, with a free lease and a clock past the deadline at the head of its page loop
  (`DiscoveryRun.DiscoveryService.RunDiscovery`).
- An approval is guarded by the listing's status, not by its content. If the listing is rejected, edited and
  resubmitted between the moderator's read and write, content nobody has read is published
  (`Marketplace.ApprovalCanPublishUnread`); `Marketplace.ApprovalPublishesLastEdit` says what is published in general.
- Closing an inquiry is not guarded at all, so a close written after the sale replaces the reason CLOSED_SOLD
  (`Marketplace.LateCloseOverwritesSale` is such a run), and nothing else does (`Marketplace.ClosedSoldSurvivesIff`).
- The import job confirms and completes only the last attempt a page was granted; the attempts before it stay reserved
  for ever (`ImportJob.OnlyLastAttemptSettles`). A page settles all of them exactly if its fetch was not retried
  (`ImportJob.AllSettledIffNotRetried`). A job that kept no page at all reports SUCCESS (`ImportJob.RunImport`).
- ABANDONED is not final: the error path of an import job and a leased commit of its owner overwrite it
  (`Leases.AbandonedRevivedExactly`).
- Projection V2 shows lots whose provider reports a pending result while their schedule lies ahead; the in-memory
  decision and the database filter hide them (`Visibility.ProjectionShowsPendingResults`).
- A database error while a page is committed is reported as a lost lease, because a leased transaction swallows its
  error: the callback's outcome in `DiscoveryRun.DiscoveryService.PersistPage`, the run's in `RunDiscovery`.
- A page of another provider is reported as a persistence error by a discovery run, because its exception is not the
  transport's malformed-response error. `RunDiscovery` ensures, for every page that was requested but not committed,
  which reason is reported (`FailsWith`), unless the allowance is used up, which takes precedence.

## Model

| member | source | states |
|---|---|---|
| Leases.ProviderLeaseService.EnsureAndLock | src/copart/provider-lease.service.ts:89-128 | a missing row is seeded free, with fence 0, and an existing one is returned untouched |
| Leases.ProviderLeaseService.Claim | src/copart/provider-lease.service.ts:129-233 | the claim is the atomic claim step: fresh grant, re-claim by the owner, or refusal, with the whole new table |
| Leases.ProviderLeaseService.ClaimWithRecovery | src/copart/provider-lease.service.ts:252-369 | the same, and only a fresh grant abandons the provider's other active jobs and reports them |
| Leases.ProviderLeaseService.AbandonCandidates | src/copart/provider-lease.service.ts:322-359 | the loop abandons exactly the provider's pending and running jobs that are not spared, and returns them |
| Leases.ProviderLeaseService.Renew | src/copart/provider-lease.service.ts:388-419 | the renewal step on the stored row; `RenewedRow` says when it is accepted and what it leaves |
| Leases.ProviderLeaseService.Release | src/copart/provider-lease.service.ts:431-456 | release frees the row under owner and fence, keeps the fence counter, and always reports success |
| Leases.ProviderLeaseService.VerifyOwnership | src/copart/provider-lease.service.ts:462-480 | true exactly if a fenced operation with this owner and fence would be accepted now |
| Leases.ProviderLeaseService.WithLeasedTransaction | src/copart/provider-lease.service.ts:487-538 | the callback's writes and the heartbeat commit together, or nothing changes |
| Leases.ProviderLeaseService.RecoverStaleJobs | src/copart/provider-lease.service.ts:566-621 | stand-alone recovery spares only the job bound to an unexpired lease |
| Leases.FenceCountsGrants | src/copart/provider-lease.service.ts:129-233 | between two points of any run the fence has risen by exactly the number of fresh grants |
| Leases.StaleFenceIsDead | src/copart/provider-lease.service.ts:388-538 | once a higher fence exists, no renewal, check, leased commit or release with a lower one has any effect, for ever |
| Leases.CommitsInFenceOrder | src/copart/provider-lease.service.ts:487-538 | successful fenced operations occur in fence order, and the difference of two fences counts the grants between |
| Leases.ClaimRefusedIffBlocked | src/copart/provider-lease.service.ts:137-221 | a claim is refused exactly while another owner's lease is unreleased and its expiry instant, included, has not passed |
| Leases.LeasedNeverShortens | src/copart/provider-lease.service.ts:509-530 | a leased commit never shortens the lease and leaves it usable at its own end for a minute |
| Leases.TenuresDisjoint | src/copart/provider-lease.service.ts:137-221 | in every run the tenures of successive fences are pairwise disjoint in time and ordered by fence |
| Leases.UseLiesInTenure | src/copart/provider-lease.service.ts:462-538 | every successful check or leased commit lies strictly inside the latest tenure, whose fence and owner it carries |
| Leases.PastTenuresFrozen | src/copart/provider-lease.service.ts:388-456 | a tenure that has a successor is never extended or cut again |
| Leases.TenureOwnersKept | src/copart/provider-lease.service.ts:388-538 | no tenure ever changes its owner or its start |
| Leases.AbandonedExactly | src/copart/provider-lease.service.ts:322-359 | exactly which jobs a step abandons: active, of that provider, not the claimer's, not bound to an unexpired lease |
| Leases.AbandonedRevivedExactly | src/copart/copart.service.ts:666-673 | exactly which writes take a job out of ABANDONED |
| Leases.NeverAbandonsLiveJob | src/copart/provider-lease.service.ts:566-621 | no step abandons the job bound to an unexpired lease |
| Leases.RecoveryLeavesOnlyClaimer | src/copart/provider-lease.service.ts:318-369 | after a fresh claim with recovery only the claimer's job can be active for the provider |
| Leases.RecoverIsIdempotent | src/copart/provider-lease.service.ts:566-621 | a second recovery abandons exactly the active job whose lease ran out in between, and changes nothing exactly if there is none |
| Leases.ProvidersIndependent | src/copart/provider-lease.service.ts:89-128 | a step on one provider's row leaves the other provider's row and jobs alone |
| Leases.ClaimedRow | src/copart/provider-lease.service.ts:129-233 | a granted claim lasts `ttl` from its instant; it takes the next fence and starts a new tenure, or keeps both for the owner of an unexpired lease |
| Leases.RenewedRow | src/copart/provider-lease.service.ts:388-419 | a renewal is accepted exactly if the row has this owner and fence, expired or not, and then only expiry and heartbeat change, to `now + ttl` and `now` |
| Leases.RenewedLeaseLives | src/copart/provider-lease.service.ts:388-480 | in every run, until the next transaction on the row, the owner of a renewed lease passes its checks and leased commits exactly before `now + ttl`, also when the lease had expired |
| Leases.ReleasedRow | src/copart/provider-lease.service.ts:431-456 | a release under owner and fence clears owner, job and times and keeps the fence; any other changes nothing |
| Leases.LeasedRow | src/copart/provider-lease.service.ts:487-538 | a leased commit keeps the row but for heartbeat and expiry, which is the later of the old one and a minute on |
| Leases.AcceptedExactly | src/copart/provider-lease.service.ts:462-538 | a check or leased commit is accepted exactly for the row's owner and fence strictly before the expiry instant, unless the callback fails |
| Leases.JobAfter | src/copart/provider-lease.service.ts:322-359 | the provider and status of every job after any step: created, written, finished under the lease, abandoned, or unchanged |
| Discovery.StepKeepsChain | src/copart/discovery.service.ts:162-431 | every step of every actor keeps the chain invariant of all checkpoints and of the worker that owns the row |
| Discovery.CommittedPagesArePrefix | src/copart/discovery.service.ts:162-431 | over any interleaving, crash, expiry and takeover, the pages committed in a cycle are the provider's first pages from null, the stored cursor is the successor of the last, and the sweep is exhausted exactly when there is no next page |
| Discovery.PagesStep | src/copart/discovery.service.ts:167-199 | a step appends exactly the page the stored cursor asks for, restarts an exhausted cycle, or leaves the pages alone |
| Discovery.CycleOnlyGrows | src/copart/discovery.service.ts:162-431 | cycles never go back, and within a cycle committed pages are only added to |
| Discovery.ExhaustsIffNeverLoops | src/copart/discovery.service.ts:241-245 | for any provider with finitely many cursors, a cycle has a last page exactly if no next cursor is one already sent in it; the guard excludes only the current one |
| Discovery.ExhaustedCycleNeverLooped | src/copart/discovery.service.ts:392-411 | in every run, an exhausted cycle has committed no request twice |
| Discovery.LoopLastsForEver | src/copart/discovery.service.ts:162-199 | once a cycle has come back to an earlier request, it is never exhausted and never restarted, by any worker |
| Discovery.CycleRestartsWhenDue | src/copart/discovery.service.ts:162-199 | in every run a cycle is followed by the next only after a commit observed its last page, and only by a worker that read its clock at least 21 600 000 ms after that observation; the new cycle has no pages and a null cursor |
| Discovery.NoRequestWhileExhausted | src/copart/discovery.service.ts:162-199 | the holder of the row never requests a page of an exhausted cycle, and always requests with the stored cursor |
| Discovery.PageRowsExactly | src/copart/discovery.service.ts:261-361 | a page leaves its lots seen at its observation with no misses, adds only passenger vehicles, and touches no other lot |
| Discovery.CommitCharges | src/copart/discovery.service.ts:363-385 | which stored lots a commit charges: last page, query without make and model, not on it, last seen before the cycle began, row conditions met |
| Discovery.CommitRowsExactly | src/copart/discovery.service.ts:261-385 | the rest of every stored lot after a commit: shown lots take observation and lifecycle of the page, all others keep theirs |
| DiscoveryCases.AcceptedChainIsCommitted | src/copart/discovery.service.ts:235-245 | every chain whose next cursors differ from the one before is committed by some run, repeated requests included |
| DiscoveryCases.CirclingSweepLoops | src/copart/discovery.service.ts:241-245 | a provider without empty cursors whose sweep commits one request twice and never ends |
| DiscoveryCases.EmptyCursorNeverEnds | src/copart/discovery.service.ts:235-245 | an empty next cursor is stored but sent as none, and such a cycle is never exhausted |
| Discovery.ShownLotChargedExactly | src/copart/discovery.service.ts:363-385 | in every run a commit charges a lot its cycle has shown exactly if it exhausts a sweep without make and model, the lot is off the last page and passes the row conditions, and the last to observe it was a search late for this sweep |
| Discovery.SeenLotsNeverCharged | src/copart/discovery.service.ts:363-385 | so a shown lot that no search touched late for this very sweep is not charged, whatever other searches did |
| DiscoveryCases.ShownLotIsCharged | src/copart/auction-search.service.ts:287-326 | from an empty market a run of one worker and one late search ends with a shown lot charged |
| Discovery.MissesCountSweeps | src/copart/discovery.service.ts:363-385 | in every reachable state a lot's miss count is the number of distinct completed sweeps without make or model, begun after its last observation, that charged it |
| Discovery.ThreeMissesNeedThreeSweeps | src/copart/discovery.service.ts:363-385 | three misses come from three different such sweeps |
| DiscoveryLeases.SweepRunsAreLeaseRuns | src/copart/discovery.service.ts:119-135 | every run of the sweep's workers and of other lease users is a run of the lease protocol, with the same row at every point |
| DiscoveryLeases.PageLiesInTenure | src/copart/discovery.service.ts:252-417 | every committed page lies inside its worker's own tenure, the latest one, and all tenures are disjoint in time |
| DiscoveryLeases.PagesInFenceOrder | src/copart/discovery.service.ts:252-417 | pages are committed in the order of their workers' fences, and one fence commits for one worker only |
| DiscoveryLeases.CommitsNotInterleaved | src/copart/discovery.service.ts:252-417 | between two pages committed by one worker no other worker commits a page of that provider |
| DiscoveryRun.PersistLots | src/copart/discovery.service.ts:261-361 | the loop over a page's lots writes exactly the table the page step prescribes |
| DiscoveryRun.DiscoveryService.Claim | src/copart/discovery.service.ts:119-135 | the claim that opens a run, as a step; without a grant the worker is finished |
| DiscoveryRun.DiscoveryService.OpenCycle | src/copart/discovery.service.ts:167-215 | restart or cycle start as one leased transaction; the local cursor and start equal the stored ones |
| DiscoveryRun.DiscoveryService.OpenSweep | src/copart/discovery.service.ts:140-216 | an exhausted checkpoint whose time has not come rests; one that is due is restarted with the next cycle, no pages and a null cursor; otherwise the stored cursor and start are taken over; no request is made here |
| DiscoveryRun.DiscoveryService.WritePage | src/copart/discovery.service.ts:257-411 | lots, misses of an exhausted sweep, checkpoint and heartbeat together are the page-commit step |
| DiscoveryRun.DiscoveryService.CommitPage | src/copart/discovery.service.ts:252-417 | the page is committed only under the lease; after it the local cursor is the stored one |
| DiscoveryRun.DiscoveryService.PersistPage | src/copart/discovery.service.ts:233-417 | which outcome the callback has: rejected exactly if the page is invalid or repeats the cursor, then another error if it cannot be normalised, then a lost lease if the transaction fails or the lease is not the worker's, and otherwise committed with the local cursor advanced to the stored one |
| DiscoveryRun.DiscoveryService.FetchAndCommit | src/copart/discovery.service.ts:214-431 | a page is committed exactly if the ledger records the last attempt of its call as a success, and it is the page of the body that attempt delivered; all other attempts are settled as failed; a failure has the class that its cause prescribes |
| DiscoveryRun.DiscoveryService.PageLoop | src/copart/discovery.service.ts:205-433 | at most the page limit, at most the allowance, the reason the loop ended or the class of its exception, the deadline exactly if a clock reading had reached it and the sweep is not exhausted, and no request past the deadline |
| DiscoveryRun.DiscoveryService.RunDiscovery | src/copart/discovery.service.ts:94-486 | whatever others do meanwhile, the run moves the rows only by steps of the protocol, ends without the lease unless the release fails, settles every attempt it reserved with one success per committed page, spends what it reports, and names the cause of a failed page; with a granted lease and an undisturbed read it reports NotDue exactly if the stored sweep is exhausted and its next time lies after the reading, and then makes no attempt and leaves the checkpoint; without an attempt it ends unavailable or past its deadline, which a late start brings about |
| DiscoveryRun.ReachedStatesAreSound | src/copart/discovery.service.ts:162-431 | every state such runs leave has the chain and miss-count properties |
| Calendar.RemainingDaysCountToday | src/copart/request-budget.service.ts:424-431 | the rounded-up day count includes today at every instant of it, midnight included |
| Calendar.LaterDayFewerDays | src/copart/request-budget.service.ts:419-431 | each day that passes within the month takes exactly one off the days left |
| Calendar.MonthsAreGregorian | src/copart/request-budget.service.ts:419-431 | counted month by month, each month starts on the day the Gregorian calendar gives it, leap years included |
| Budget.RequestBudgetService.Reserve | src/copart/request-budget.service.ts:130-260 | the reservation step: repeated id, denial by month or day, or one charge to month and provider; `GrantedExactly` says when |
| Budget.RequestBudgetService.Confirm | src/copart/request-budget.service.ts:268-303 | the confirmation step, only from ALLOCATED |
| Budget.RequestBudgetService.Complete | src/copart/request-budget.service.ts:310-387 | the completion step, success only from CONFIRMED |
| Budget.RequestBudgetService.BuildSnapshot | src/copart/request-budget.service.ts:433-528 | the usage snapshot agrees with what a reservation at the same moment would get |
| Budget.SnapshotPredictsReserve | src/copart/request-budget.service.ts:433-528 | a new reservation is allowed exactly if the snapshot reports its mode unblocked |
| Budget.GrantedExactly | src/copart/request-budget.service.ts:130-260 | a new manual attempt is granted exactly while the month has fewer attempts than the budget, a new routine one exactly while it has fewer than budget less reserve and today fewer routine ones than the floored share of what is left |
| Budget.BlockedExactly | src/copart/request-budget.service.ts:433-528 | the block flags and the three reasons, by those same counts of reservations |
| Budget.SettledExactly | src/copart/request-budget.service.ts:268-387 | what confirmation and completion leave of an attempt, by its status before |
| Budget.LedgerConservation | src/copart/request-budget.service.ts:141-387 | after any calls in any order and repetition, every counter of a month is the number of matching reservations, the sum over providers, and allocation splits into open, succeeded and failed |
| Budget.RepeatedIdChargesNothing | src/copart/request-budget.service.ts:159-172 | a reservation repeated under an id once granted, any time later, is allowed and leaves the whole further course of the ledger unchanged |
| Budget.StatusOnlyAdvances | src/copart/request-budget.service.ts:268-387 | an attempt only moves forward, never leaves an outcome, and succeeds only after confirmation |
| Budget.MonthlyCapsHold | src/copart/request-budget.service.ts:191-217 | allocation never exceeds the budget, routine reservations never exceed budget less reserve |
| Budget.DayWithinCap | src/copart/request-budget.service.ts:191-217 | within a UTC day the cap never rises, is constant without manual requests, and bounds the day's routine attempts |
| Budget.DayGrantsAtMostShare | src/copart/request-budget.service.ts:191-217 | a fresh day grants at most floor(available / days left) |
| Budget.CapNeverFalls | src/copart/request-budget.service.ts:476-493 | without manual requests the cap never falls through the rest of the month |
| Budget.RoutineGrowth | src/copart/request-budget.service.ts:191-217 | the day's routine use grows by no more than the new ids the caller reserved |
| Transport.BackoffDelay | src/copart/provider-fetch.ts:255-275 | a short Retry-After is waited out, everything else stays within the configured maximum |
| Transport.SleepFor | src/copart/provider-fetch.ts:277-289 | a sleep is as long as asked, but one that would cross the deadline ends exactly there, and none starts after it |
| Transport.DelayDoubles | src/copart/provider-fetch.ts:255-263 | the delay is the initial one, doubled with each of the next ten errors, capped at the maximum, and constant from then on |
| Transport.JitteredDelayDoubles | src/copart/provider-fetch.ts:255-263 | the same with jitter, which scales the delay before it is capped |
| Transport.ShortRetryAfterCounts | src/copart/provider-fetch.ts:265-274 | a Retry-After of at most two seconds replaces a shorter delay, and a longer one counts for nothing |
| Transport.FateExactly | src/copart/provider-fetch.ts:118-235 | an attempt has a body exactly for a readable answer with a status from 200 to 299 sent before the deadline; it may be repeated exactly for 429, 500, 502, 503, 504, a timeout before the deadline, or a failed connection |
| Transport.LossBookedByStatus | src/auction-lot/rapidapi-transport.ts:251-257 | the failure column of a lost attempt, by its status number |
| Transport.RepeatsByStatus | src/copart/provider-fetch.ts:96-253 | every attempt but the last may be repeated by its status, and one that may is the last only if no more are permitted or the gate is closed |
| Transport.ListCall.PreRequestHook | src/auction-lot/rapidapi-transport.ts:220-249 | an attempt passes exactly with allowance and reservation, and is then counted once in both |
| Transport.ListCall.SendRequest | src/copart/provider-fetch.ts:118-235 | one request, confirmed and, if lost, settled with the failure kind of its fate |
| Transport.ListCall.ProviderFetch | src/copart/provider-fetch.ts:98-253 | attempts are repeated only when they may be; it stops at a body, a final loss, a closed gate or the last permitted attempt, every lost attempt is settled, and it sleeps before each repetition for the delay of that many errors, not past the deadline |
| Transport.ListCall.FetchPage | src/auction-lot/rapidapi-transport.ts:264-316 | up to the callback: either one confirmed attempt is open, or all are settled |
| Transport.ListCall.Conclude | src/auction-lot/rapidapi-transport.ts:324-347 | the last attempt takes the callback's outcome |
| Transport.ListCall.ListVehicles | src/auction-lot/rapidapi-transport.ts:198-348 | at most three attempts, each settled when the call ends, none succeeded but the last; the tick allowance is conserved |
| Scheduler.Pacing | src/copart/freshness-scheduler.service.ts:647-664 | after every tick of a day, routine use is at most floor(cap x elapsed / day), hence at most the cap, with four more at most per tick |
| Scheduler.AloneOnPace | src/copart/freshness-scheduler.service.ts:647-664 | what a tick without peers leaves makes it one of the ticks of a paced day |
| Scheduler.OverlapFromTicks | src/copart/freshness-scheduler.service.ts:647-664 | ticks that begin with the same ledger and overlap, each as its own contract promises, together move the ledger within their grants |
| Scheduler.OverlappingTicksBound | src/copart/freshness-scheduler.service.ts:647-664 | any number of such ticks add at most that many times what one of them may spend |
| Scheduler.OverlappingTicksOvershoot | src/copart/freshness-scheduler.service.ts:647-664 | the bound is reached by overlapping ticks from every ledger whose cap has room, so two of them overshoot whenever some but fewer than four attempts are due |
| Scheduler.OverlapOnOneDay | src/copart/freshness-scheduler.service.ts:647-664 | a concrete day on which two ticks that may make two attempts make four |
| Scheduler.TurnsBalanced | src/copart/freshness-scheduler.service.ts:726-750 | while both providers are runnable their runs differ by at most one |
| Scheduler.OtherGetsTheRest | src/copart/freshness-scheduler.service.ts:794-797 | once a provider is out, every later run is the other's |
| Scheduler.TurnProgress | src/copart/freshness-scheduler.service.ts:726-804 | each run lowers remaining attempts plus runnable providers, exactly unless it was late |
| Scheduler.LateRunsNeverEnd | src/copart/freshness-scheduler.service.ts:729-732 | however many runs were late, the whole grant is left and both providers are in the queue, so its guard holds |
| Scheduler.TickPagesIsLargest | src/copart/freshness-scheduler.service.ts:647-664 | a tick may make the largest number of attempts, four at most, that the cap and the part of it due by this moment of the day leave room for |
| Scheduler.RunnableExactly | src/copart/freshness-scheduler.service.ts:720-800 | a provider is in the queue exactly until a run of its own takes it out |
| Scheduler.AdjacentTicksAlternate | src/copart/freshness-scheduler.service.ts:715-718 | ticks in adjacent slots of a day start with different providers |
| Scheduler.FirstTurnsBalanced | src/copart/freshness-scheduler.service.ts:715-718 | over any number of adjacent slots the first turns of the two providers differ by at most one |
| Scheduler.FreshnessScheduler.Grant | src/copart/freshness-scheduler.service.ts:640-675 | the attempts a tick may spend are the paced share of the ledger's own figures |
| Scheduler.FreshnessScheduler.ShareTick | src/copart/freshness-scheduler.service.ts:719-804 | the queue is fair, conserves the allowance, enters every run in the books, and ends unless late runs use up its surroundings |
| Scheduler.FreshnessScheduler.Tick | src/copart/freshness-scheduler.service.ts:640-804 | one tick, other ticks overlapping or not, adds to the ledger no more routine attempts of its own than its reading of the pace allows, moves both providers' rows only by protocol steps, runs something exactly if it may and has a job, and starts with Copart exactly in an even slot of the day |
| Marketplace.InvHolds | src/marketplace/marketplace.service.ts:411-455 | over all interleavings: no open inquiry on a sold listing; published, expired and sold listings have both dates and the content last approved |
| Marketplace.OnlyApprovedIsVisible | src/marketplace/marketplace.service.ts:599-604 | what a buyer sees at any moment is content as last approved |
| Marketplace.SoldIsFinal | src/marketplace/marketplace.service.ts:411-455 | a sold listing never changes again |
| Marketplace.InquiriesAfterSale | src/marketplace/marketplace.service.ts:737-778 | after a sale no inquiry is added or reopened; one changes exactly by a close of it, to what that close wanted |
| Marketplace.ClosedSoldSurvivesIff | src/marketplace/marketplace.service.ts:848-893 | in every run CLOSED_SOLD stays exactly if no close of that inquiry is written after the sale |
| Marketplace.LateCloseOverwritesSale | src/marketplace/marketplace.service.ts:848-893 | from every published listing with an open inquiry, a close begun before the sale and written after it replaces CLOSED_SOLD |
| Marketplace.ExpireChangesNothingVisible | src/marketplace/marketplace.service.ts:1140-1167 | expiring never changes what is visible from its own clock reading on, and leaves unexpired listings alone |
| Marketplace.RenewalSurvivesReconciliation | src/marketplace/marketplace.service.ts:1140-1167 | in every interleaving an expiry write after an effective renewal does nothing, whatever came between, if no clock reading since the renewal lies thirty days behind the reconciliation's |
| Marketplace.ContentIsLastEdit | src/marketplace/marketplace.service.ts:251-305 | over any interleaving a listing's content is that of the last edit to take effect, or unchanged if there was none |
| Marketplace.ApprovalPublishesLastEdit | src/marketplace/marketplace.service.ts:473-512 | what an approval publishes in every interleaving: the last edit since the moderator's read, so what was read exactly if no last edit changed it |
| Marketplace.SubmittedContentFrozen | src/marketplace/marketplace.service.ts:251-305 | content does not change while a listing stays submitted |
| Marketplace.ApprovalPublishesWhatWasRead | src/marketplace/marketplace.service.ts:473-512 | an approval publishes the content its moderator read if the listing stayed submitted |
| Marketplace.ApprovalCanPublishUnread | src/marketplace/marketplace.service.ts:473-512 | otherwise any content of the seller's choice can be published unread |
| Marketplace.OutcomeKeepsInv | src/marketplace/marketplace.service.ts:229-549 | no call of the service, whatever runs between its read and write, breaks the invariant |
| Marketplace.CheckedExactly | src/marketplace/marketplace.service.ts:229-549 | which requests of seller and moderator pass their checks, by user, status and phone |
| Marketplace.WrittenExactly | src/marketplace/marketplace.service.ts:229-549 | what each write that takes effect leaves of its listing |
| Marketplace.CloseCheckedExactly | src/marketplace/marketplace.service.ts:848-893 | who may close an inquiry, and as what |
| Marketplace.VisibleExactly | src/marketplace/marketplace.service.ts:599-604 | a published listing is on sale before its expiry instant and lapsed from it on |
| Marketplace.RenewedIsVisible | src/marketplace/marketplace.service.ts:364-394 | a renewal that takes effect, in any state reached, publishes the listing, expired or not, and it is visible with the same content at every moment of the next 2 592 000 000 ms |
| Marketplace.MarketplaceService.UpdateListing | src/marketplace/marketplace.service.ts:229-305 | refused by its checks, or the guarded write: editing a published listing withdraws it for moderation |
| Marketplace.MarketplaceService.SubmitListing | src/marketplace/marketplace.service.ts:319-347 | refused, or the guarded move to SUBMITTED |
| Marketplace.MarketplaceService.RenewListing | src/marketplace/marketplace.service.ts:364-394 | refused, or thirty more days from the write; a reply of success means the listing is visible for all of them, also if it had expired |
| Marketplace.MarketplaceService.MarkSold | src/marketplace/marketplace.service.ts:411-455 | refused, already sold, or sold with every open inquiry closed in the same step |
| Marketplace.MarketplaceService.ApproveListing | src/marketplace/marketplace.service.ts:473-512 | refused, or published with both dates |
| Marketplace.MarketplaceService.RejectListing | src/marketplace/marketplace.service.ts:526-549 | refused, or the guarded move to REJECTED |
| Marketplace.MarketplaceService.RevealContact | src/marketplace/marketplace.service.ts:737-778 | succeeds exactly for a visible listing of another seller with a phone, and then opens the buyer's one inquiry |
| Marketplace.MarketplaceService.CloseInquiry | src/marketplace/marketplace.service.ts:848-893 | who may close with which status, and the unguarded write |
| Marketplace.MarketplaceService.ReconcileExpiredListings | src/marketplace/marketplace.service.ts:1140-1167 | expires exactly the listings that had lapsed at the read and still have at the write |
| Interleave.InterleaveProviders | src/catalog/catalog.service.ts:714-754 | the result is a page of an order-preserving merge of both lists |
| Interleave.OnlyFourWhenOtherUsedUp | src/catalog/catalog.service.ts:733-742 | a fourth card in a row appears only when the other provider has none left |
| Interleave.OrderIsTheRightDraws | src/catalog/catalog.service.ts:733-742 | the order shown is the one arrangement of the cards in which every draw is from the larger remaining pool, Copart on a tie, unless a pool is used up or had the three cards before |
| Interleave.GreedyAvoidsFourIffPossible | src/catalog/catalog.service.ts:714-754 | the greedy merge has no run of four exactly if some arrangement of the same cards has none, exactly if neither list exceeds three times the other plus three |
| Interleave.PagesConcatenate | src/catalog/catalog.service.ts:752-753 | consecutive pages, requested one by one, neither skip nor repeat a card |
| Interleave.WholeMerge | src/catalog/catalog.service.ts:752-753 | a page long enough is the merge of both lists |
| ImportJob.UsableExactly | src/copart/response-validator.ts:49-102 | a body passes validation exactly if it is an object whose collection is empty or has an object in it |
| ImportJob.SameIdentityIffSameLots | src/copart/copart.service.ts:983-1004 | page identities are equal exactly if the pages hold the same lots with the same multiplicity |
| ImportJob.LotsExactly | src/copart/copart.service.ts:983-996 | what a page identity counts: lots by number, objects without one, and anything else, the last two under a name of their own |
| ImportJob.ValidLotsExactly | src/copart/copart.service.ts:490-501 | a lot is kept as often as it was received |
| ImportJob.ValidLotsInOrder | src/copart/copart.service.ts:490-501 | and in the order received |
| ImportJob.ProcessedExactly | src/copart/copart.service.ts:540-597 | a lot is processed exactly if one of its occurrences did not throw |
| ImportJob.IdentitiesEqual | src/copart/copart.service.ts:998-1004 | the comparison loop decides equality |
| ImportJob.FindRepeated | src/copart/copart.service.ts:456-483 | a page is a repeat exactly of a kept page with the same lots |
| ImportJob.Paginate | src/copart/copart.service.ts:293-534 | ends within the page limit; every page before the last had none of the stop signals and was kept if its body came, the last had exactly the signal its reason names; attempted pages and repetitions are counted page by page; kept pages are pairwise different and each has an object, so a page that fails validation (src/copart/response-validator.ts:49-102) is never kept; every received item is a lot or skipped |
| ImportJob.ProcessLots | src/copart/copart.service.ts:540-597 | one binding per lot however often received; new bindings are those counted as created |
| ImportJob.RunImport | src/copart/copart.service.ts:280-612 | created + updated + errors + skipped is what was received; the status depends on processing errors only |
| ImportJob.UseLedger | src/copart/copart.service.ts:352-394 | the ledger calls of one page, with other callers in between, leave exactly the specified ledger: reservations until one is denied, then only the last granted one confirmed and completed |
| ImportJob.OnlyLastAttemptSettles | src/copart/copart.service.ts:352-394 | of a page's granted attempts exactly the last is settled, with the outcome of the fetch and its failure column, and every other stays reserved for ever, whatever other callers do later |
| ImportJob.AllSettledIffNotRetried | src/copart/copart.service.ts:352-394 | a page settles every attempt it was granted exactly if it was granted no more than one |
| HotOffers.RankAndFilter | src/hot-offers/hot-offers.service.ts:1141-1200 | pins first, then the greedy selection, without duplicates |
| HotOffers.PicksWithinCaps | src/hot-offers/hot-offers.service.ts:1178-1198 | no automatic pick takes a make past two, a make and model past one or a provider past three |
| HotOffers.LeftOutIsBlocked | src/hot-offers/hot-offers.service.ts:1178-1198 | with room left, every ranked candidate left out was blocked by picks made before it |
| HotOffers.PicksKeepCaps | src/hot-offers/hot-offers.service.ts:1178-1198 | in figures: after a pick at most two of its make, one of its make with model, three of its provider, and six in all |
| HotOffers.LeftOutMeetsCap | src/hot-offers/hot-offers.service.ts:1178-1198 | and one left out of fewer than six met two of its make, one of its make with model or three of its provider |
| HotOffers.PicksFollowRank | src/hot-offers/hot-offers.service.ts:1178-1198 | automatic picks appear in rank order |
| HotOffers.PinnedOk | src/hot-offers/hot-offers.service.ts:1146-1166 | every pinned lot that is ranked is chosen, once |
| HotOffers.EnforceProviderCap | src/hot-offers/hot-offers.service.ts:1364-1386 | with several providers none keeps more than three, the kept items are a selection in the order of the list, and each dropped one had three of its provider, or six in all, kept before it; otherwise the list is unchanged |
| HotOffers.OnlySelection | src/hot-offers/hot-offers.service.ts:1364-1386 | there is only one such selection within the cap, so the result is determined by it |
| HotOffers.CapInFigures | src/hot-offers/hot-offers.service.ts:1364-1386 | the cap in figures: three of a provider, six in all |
| HotOffers.CappedKeepsGood | src/hot-offers/hot-offers.service.ts:1364-1386 | a list that respects the cap is left as it is |
| HotOffers.HotOffersPolicy.AddOverride | src/hot-offers/hot-offers.service.ts:678-723 | one entry per lot and distinct pin positions are kept; exactly when it refuses and what it displaces |
| HotOffers.HotOffersPolicy.RemoveOverride | src/hot-offers/hot-offers.service.ts:725-736 | removes exactly the lot's entry |
| HotOffers.AtMostTwoPins | src/hot-offers/hot-offers.service.ts:690-713 | a tier never has more than two pins |
| HotOffers.FullIffBothPinned | src/hot-offers/hot-offers.service.ts:690-713 | a tier refuses a new pin exactly if both its positions are pinned and the lot has no pin of its own |
| Visibility.CatalogFilterIsTruth | src/auction-lot/public-eligibility.ts:63-82 | the database filter, evaluated with NULLs, selects exactly the lots the in-memory decision shows |
| Visibility.FreshPriceFilterExact | src/auction-lot/public-eligibility.ts:119-156 | the price filter selects exactly the lots with a fresh price whose auction has not begun |
| Visibility.FreshPriceAgreesOnCatalogue | src/auction-lot/public-eligibility.ts:119-203 | on catalogue lots the two price rules agree |
| Visibility.DecisionInFigures | src/auction-lot/public-eligibility.ts:63-116 | each reason in figures: seven days ahead, 48 hours of listing age, fewer than three misses |
| Visibility.PriceAgeInFigures | src/auction-lot/public-eligibility.ts:119-203 | a price may be 6 hours old up to a day before the auction, 12 up to three days, 24 otherwise, in memory and in the filter |
| Visibility.ProjectionInFigures | src/auction-lot/projection-v2.ts:159-260 | what each code of the projection and its two flags mean, in the same figures |
| Visibility.TruthIsProjectionPlusGates | src/auction-lot/projection-v2.ts:159-260 | the decision is the projection plus availability, less lots with a pending result |
| Visibility.ProjectionShowsPendingResults | src/auction-lot/projection-v2.ts:33-67 | the only lots on which they differ |
| Visibility.ShownPriceIsFilteredPrice | src/auction-lot/projection-v2.ts:90-125 | for a catalogue lot the projection shows a price exactly if the price filter selects it |
| Visibility.ScheduleNeverGoesBack | src/auction-lot/projection-v2.ts:33-67 | as the clock runs the schedule only moves on, from out of horizon through active to result pending; only an explicit result is terminal |
| Visibility.PriceOnlyGoesStale | src/auction-lot/projection-v2.ts:90-125 | a stale price never becomes fresh by the passing of time |
| Visibility.CatalogueStayIsOneInterval | src/auction-lot/public-eligibility.ts:63-82 | the moments at which the catalogue selects an unchanged lot form one interval shorter than the horizon, and those at which its price is shown one within it |
| Visibility.LifecycleNeverFalselyTerminal | src/auction-lot/public-eligibility.ts:90-116 | only explicit results show as sold or removed; ended is shown exactly for an unsold or pending result or a passed time on an available, fresh lot, not ready exactly for one without a time or with a passed time that is hidden; a public lot is upcoming or live |
| Visibility.LiveExactly | src/auction-lot/public-eligibility.ts:90-116 | live rather than upcoming exactly if the provider's state contains one of the two tokens, case aside |
| Visibility.HiddenIsNotTerminal | src/auction-lot/public-eligibility.ts:63-116 | a lot hidden for availability is not shown as ended |

## Left out

- HTTP, Prisma, controllers, guards, DTOs, audit log, notifications and the frontend: plumbing around the row updates.
- Database errors as such: a transaction that fails is one that did not happen. A discovery run models the failure
  of each of its own transactions; the hooks of a transport call and the ledger they use are taken not to throw.
- Scheduler.FreshnessScheduler.ShareTick: takes the surroundings of finitely many runs, so a tick with more late runs
  than that is cut short; `LateRunsNeverEnd` is what happens without the bound.
- Transport.ListCall: always has a tick allowance; a caller without one behaves as one with an allowance of three or more.
  Response headers are not stored, and the jitter of this caller is the constant one.
- Leases.ProviderLeaseService.Renew: `renew`, `release` and `verifyOwnership` read the clock at the instant their single statement runs.
- Budget.RequestBudgetService.Reserve: reads the clock once; the code reads it again when it computes the day's start.
- Leases.ProviderLeaseService.RecoverStaleJobs: the recovered jobs are a set, their order is not modelled.
- Discovery.CommittedPagesArePrefix: assumes that the provider's answer depends only on query, cycle and cursor, that no two
  queries share a fingerprint, and that the scheduler's inventory-recovery reset (src/copart/freshness-scheduler.service.ts:690-709),
  which is not fenced, does not run in the middle of a cycle.
- DiscoveryLeases.SweepRunsAreLeaseRuns: takes transactions on the lease row to read their clock after the ones before
  them have ended (`InLockOrder`), which the database's row lock brings about.
- Discovery.StepKeepsChain: import jobs are not rows of the sweep's state; a leased transaction of another user that
  finishes a job acts on the lease like one with any other body.
- DiscoveryRun.DiscoveryService.FetchAndCommit: a readable body of the provider's own items that is not its answer to the
  request is taken not to pass validation.
- DiscoveryRun.PersistLots: a lot is its observation time, misses, lifecycle and state; normalised facts, prices and the
  created and updated counts are not part of this model.
- Scheduler.FreshnessScheduler.Tick: the choice of make and model partition is an input, and the freshness-tier rewrite after
  the queue is not modelled. Every partition names a make and a model, so the sweeps of the queue never charge a miss.
- Marketplace: the vehicle row (the reject path writes it outside its guard), reviews, seller profiles, media order and the creation form.
- Marketplace.MarketplaceService.ReconcileExpiredListings: other operations run between the read and the writes; the state machine also
  allows them between two writes, and `ExpireChangesNothingVisible` is about each single write.
- Interleave.InterleaveProviders: two fixed lists; a catalogue request cuts both to its own page end first.
- ImportJob.RunImport: raw-import rows, vehicle fields and the lease calls of the job, which are those of `Leases`.
- ImportJob.SameIdentityIffSameLots: a lot whose number is one of the two sentinel strings counts as such an item.
- HotOffers: quality and eligibility filters and the floating-point score, which fix the ranked list; lower case is ASCII only.
- Visibility: keyword quality rules, which the database and memory apply differently by design, and the request's own filters.
- Visibility.LifecycleNeverFalselyTerminal: lower case of the auction state is ASCII only.
- Customs calculator, quota simulation, settings, favourites, auth, leads, news and broadcasts: no property harder than those above.
