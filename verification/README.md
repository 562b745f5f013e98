# OpenPing Hosted: a verified model of the platform Worker's protocols

OpenPing Hosted runs one Worker, one database and one address per tenant, driven by a platform Worker that keeps one SQL row
per tenant. The row is changed by conditional writes under leases and tokens, with a queue that delivers at least once, API
answers that get lost, and code that may stop at any await. This project models those protocols and proves what they promise,
together with the self-contained algorithms beside them. `dafny verify dfyconfig.toml` checks everything.

Protocols are state machines: each `UPDATE ... WHERE` is one guarded atomic step, each remote call takes effect or not
independently of whether its answer arrives, and everything between two awaits interleaves. Where the source updates rows or
maps in place or loops, a class and its methods do the same and are proved against the machine's own step functions.

| file | what it models |
|---|---|
| `SchedulingClock.dfy` | ticks, the due time after a run, back-off |
| `SchedulingProtocol.dfy`, `SchedulingProgress.dfy`, `SchedulingLateCron.dfy` | crons, queue and consumer over one tenant's row; that a due tenant gets its run; exactly how late a claim may land |
| `ScheduleEnqueue.dfy`, `ScheduleRun.dfy` | the claim loop over all tenants; one delivery with its retried bookkeeping |
| `RunStats.dfy` | the recording of runs: streak, current day, rolled days |
| `TenantCadence.dfy` | the tenant's own classification loop and the wake-ups it reports |
| `Provisioning.dfy`, `ProvisioningSetUp.dfy`, `ProvisioningStale.dfy`, `ProvisioningRun.dfy` | the leased set-up and teardown with their remote resources; what setting up comes to; what a run that outlived its lease can still do; one run's loop |
| `SignedCalls.dfy`, `CallNonces.dfy`, `Base64Url.dfy` | signed calls between platform and tenants, their handler and replay, encoding |
| `SecretRotation.dfy` | rotating a tenant's call secret |
| `TenantMove.dfy`, `TenantMoveRun.dfy` | moving a tenant between runtimes |
| `Csv.dfy`, `Waitlist.dfy` | reading a waitlist file, collecting and importing it |
| `EmailQuota.dfy` | the daily email quota |
| `Maintenance.dfy`, `FastMonitors.dfy` | weekly maintenance windows; the choice of fast monitors |
| `Caches.dfy` | the tenant cache and the key cache |
| `AdminSearch.dfy`, `LogRedaction.dfy` | the console's text and prefix searches; what a log line may show |

## What the environment is trusted with

- One clock for the platform; a start's write lands within the 10 s lease margin of the clock reading it carries, and a call ends
  by its timeout. "In flight" is the platform's side of a call: what a tenant still does for an aborted call is its own.
- A cron fires at most 5 s before its tick. Any number of crons may run at once, for one tick too, and a round's clock reading,
  query and claim are three awaits. Claims must land before their tick's 45th second, or its 55th if a tick's cron is invoked
  once; these are the exact limits (`LimitIsExact`), and a prompt cron keeps them (`PromptCronIsInTime`).
- The queue raises a message's attempts only after its earlier deliveries ended, and a refused `sendBatch` delivered nothing.
  Messages may be lost, late, duplicated and repeated.
- A provisioning run's remote calls change something only while its lease lasts; its reads, its SQL statements and its deletes
  of what is already gone, which succeed, may land at any time later. Nobody else maps a tenant's hostname while its attach is pending. Ids that Cloudflare hands out are new.
- Cryptography is ideal: a MAC under a key is made only by who holds the key and binds the whole text; sealing is injective.
  Digests do not collide.
- One move of a tenant at a time.

## What turned out not to hold, and when it does

- Exclusion of scheduled calls needs claims that land in time: a run id names its tick, so a tenant claimed twice for one tick
  has its run id sent twice, and a redelivery of the first message starts a second call. On every run whose claims land less than
  a limit past their ticks at most one call is in flight if and only if the limit is at most 55 s, for a tick's only cron, or 45 s,
  when the crons of one tick may overlap (`LimitIsExact`; the runs at 55 s and 45 s are its witnesses).
- Recording a run adds up, on every prefix of any sequence of recordings, exactly when no repeated recording is of a later UTC
  day than all before it (`ConservedIff`). The counted runs are then the distinct runs exactly when no other run's recording
  comes between a run's retries (`CountedRunsAreDistinctRuns`, `CountedIff`).
- A run that lost its lease still marks its intent to attach, the one write to the row that names no token. If somebody else's Custom
  Domain routes to the tenant's Worker at that moment, removing the tenant detaches it; otherwise other people's domains stay
  safe (`CarefulIff`, reached in `StaleMarkIsReached`).
- Such a run can also store the tenant's call secret after a teardown erased the row: the insert has neither guard nor foreign
  key, and nothing deletes it. The secret stays gone exactly when no run is at that insert or at the script's
  deletion before it, which finds the script gone and succeeds (`SecretStaysGoneIff`, both places reached in
  `StaleSecretIsReached`).
- A heartbeat's wake can be a tick later than the first run that acts on it, when that run's call comes late
  (`LateCallSeesDeadlineEarly`). Measured by the run's own clock it is exact, unless the heartbeat was marked missed before its
  deadline was moved: then it is exact if and only if the next mark is allowed from the earliest moment on that a call still
  under way at the wake can be for, which for the scheduler's calls is a minute tick (`HeartbeatWakeIsExactIff`).
- A signed call is acted on once exactly while no receiver's clock reading, handling time included, is 35 s or more behind an
  earlier handled one's (`LagBoundIsExact`).
- Going by the stored row, a rotation is safe to begin exactly when no secret is waiting (`BeginningIsSafeIff`); a second one
  after a lost answer, or one overlapping another, locks the Worker out until a rotation completes.
- A cached value is forgotten for good exactly when every lookup under way that could still be served has read what the table
  holds now (`ForgetTakesEffectIff`).
- A recurring window whose range has not opened is quiet until its next occurrence exactly when the range does not open in the
  middle of a slot (`UnopenedIsQuietIff`).
- The CSV reader undoes the printer exactly when the last row is not one empty unquoted field without a line break after it
  (`RoundTripIff`).
- A stopped move can be completed exactly when the domain at the hostname is the recorded one or there is none: after a refused
  repoint, a fallback whose attach answer is lost leaves the tenant's own domain unrecorded for good (`FallbackCanStick`). Removing
  a tenant whose move stopped at its health check leaves the Worker uploaded to the other place (`TeardownLeavesWorkerIff`).
- A teardown answers "removed" even when its final batch found the lease lost; the row is then still there and is torn down
  again. `ProvisioningRun.RunProvisioning` therefore promises an erased row only of a run nobody took the lease from.
- `RotateCallSecret` and `MoveTenantToDispatch` answer "failed" when only their closing audit insert failed; the secret is then
  rotated, the tenant moved, all the same.
- The console's text search looks for the text as `toLowerCase` folds it, while LIKE folds ASCII letters only: it finds exactly
  what contains the text itself if and only if folding changed nothing but the case of ASCII letters (`FindsItselfIff`).
- base64url texts with non-zero unused bits decode like the canonical ones (`EncodeUndoesDecode`).

## Model

| member | source | states |
|---|---|---|
| SchedulingClock.TickForIsFirst | platform/src/scheduling.ts:153-156 | `tickFor` is the first minute tick at or after a time: any tick is at or after the time exactly when it is at or after the answer, for fractional times too |
| SchedulingClock.CurrentTickBounds | platform/src/scheduling.ts:148-151 | the tick a cron stands for is a minute tick, at most the 5 s slack ahead of its clock and less than a minute behind it |
| SchedulingClock.DueIsFirstTickNotBefore | platform/src/scheduling.ts:166-183 | after an answered run that did not fail, the due time is exactly the first tick after the run's own that is not before the time asked for (`nextDueAt` or `startedAt` plus 12 minutes, the latter held between tick and now, both capped at 12 minutes from now) |
| SchedulingClock.DueIsBounded | platform/src/scheduling.ts:166-183 | for every value a tenant's code can answer, and for none: the next due time is a minute tick after the run's tick and less than 12 minutes plus one rounding away |
| SchedulingClock.FailureBacksOff | platform/src/scheduling.ts:177-181 | failing runs are called after 1, 2, 4, 8 and then every 12 minutes, whatever they answered |
| SchedulingClock.RunLeaseIs | platform/src/scheduling.ts:129-136 | a run's lease is 50 s for a tenant checked every minute, so it is over before its next claim, and 100 s for any other |
| SchedulingProtocol.StepInv | platform/src/scheduling.ts:232-270 | every statement and await of any number of crons, the queue and a consumer keeps the invariant while claims land in time: a call in flight holds the row's claim, token and an outlasting lease; a run id won is not won again and is sent once; the due time of a claimed tenant is before the tick after its claim |
| SchedulingProtocol.AtMostOneCall | platform/src/scheduling.ts:380-427 | over every interleaving of crons, late, lost, duplicate and repeated deliveries, suspensions and crashes in which every claim lands before its tick's 45th second (55th for a tick's only cron): at most one scheduled call is in flight, and then the row carries its claim, its token and a lease ending after its timeout |
| SchedulingProtocol.StartsAlone | platform/src/scheduling.ts:383-389 | a start whose compare-and-set matches finds no other call in flight and no started delivery of the same run |
| SchedulingProtocol.RunIdsAreSentOnce | platform/src/scheduling.ts:221-223 | on the same runs every queued message carries a run id of its own, so a stale or duplicate message names one claim |
| SchedulingProtocol.WinsOnlyUntaken | platform/src/scheduling.ts:205-208 | a claim that wins in time wins a run id that was neither sent nor is held by any cron: the lease and the due time forbid it otherwise |
| SchedulingProtocol.PromptCronIsInTime | platform/src/scheduling.ts:239-243 | a cron whose start, 25 s budget and claim's landing time end before the limit keeps it in all its rounds |
| SchedulingProtocol.NeverStranded | platform/src/scheduling.ts:199-204 | after any run at all, late claims included: if nothing touches a runnable tenant's row any more, every cron from 13 minutes on finds it due, and from 3 minutes on when it is due now |
| SchedulingProtocol.OnlyFinishMovesDue | platform/src/scheduling.ts:205-210 | only a run's finish moves the due time, and to a minute tick past the run's own; claims, lost messages and crashes never do |
| SchedulingProtocol.DueFrom | platform/src/scheduling.ts:189-204 | the due query finds a runnable tenant from 5 s before its due time on, unless a lease holds it, and then from the lease's end; whatever it finds can be claimed |
| SchedulingProgress.DueTenantRuns | platform/src/scheduling.ts:225-439 | wherever the protocol has come to, a tenant that is due can be claimed, called once for its tick and left free with the due time its answer gives, whatever is left over from earlier crons, messages and calls |
| SchedulingProgress.RefusedIsDueAgain | platform/src/scheduling.ts:257-266 | a claim given back leaves the tenant due at once, as it was |
| SchedulingProgress.LoadsOnlyItsClaim | platform/src/scheduling.ts:363-376 | a delivery goes past its load exactly when its run is the claimed one and the tenant may run |
| SchedulingLateCron.LimitIsExact | platform/src/scheduling.ts:221-251 | for any limit on how far past its tick a claim lands: at most one call in flight, holding the row, on every such run, if and only if the limit is at most 55 s for a tick's only cron, 45 s for overlapping ones; and the same for run ids sent once |
| ScheduleEnqueue.SelectDue | platform/src/scheduling.ts:199-204 | the due query's answer: due tenants only, earliest first, all of them or the hundred earliest |
| ScheduleEnqueue.Tenants.ClaimAll | platform/src/scheduling.ts:246-253 | one batch of claims changes exactly the picked rows, and its messages name them, this tick and since when they are due |
| ScheduleEnqueue.Tenants.UnclaimAll | platform/src/scheduling.ts:258-264 | when the queue refuses, exactly those claims are given back |
| ScheduleEnqueue.NotPickedAgain | platform/src/scheduling.ts:205-208 | a tenant claimed earlier in the same cron is leased past its time budget, so no later round finds it due |
| ScheduleEnqueue.Tenants.EnqueueDue | platform/src/scheduling.ts:232-271 | the claim loop: every tenant is untouched, or claimed once while due and sent exactly one message saying since when it is due, or claimed and given back, as many as it reports, and whoever was sent was due no later than whoever was due all along and wasn't; every round but the last began within the budget and sent its whole hundred; it stops only at the reading that found its budget or cap passed, at the round that was refused, or at the round that left nobody due, and counts its rounds |
| ScheduleRun.TenantRow.Claim | platform/src/scheduling.ts:205-208 | a claim wins exactly when the row is still as read, runnable and free; then it can be claimed again exactly from three minutes later on, of all messages only this claim's start its run, and the due time stays |
| ScheduleRun.TenantRow.Unclaim | platform/src/scheduling.ts:210-210 | given back, no message starts a run and the tenant is due and claimable at once; a newer claim is not touched |
| ScheduleRun.EnqueueTenant | platform/src/scheduling.ts:246-266 | one tenant's part of a round: sent exactly when the claim won and the queue took the batch, and then only that message may start it; refused, it is claimable again at once; lost, nothing changed |
| ScheduleRun.OverlappingCrons | platform/src/scheduling.ts:225-231 | two crons that both found the tenant due within a queue lease of each other send it once, or not at all when the queue refused both, and only the sender's message may start it |
| ScheduleRun.TenantRow.Start | platform/src/scheduling.ts:383-390 | the start statement takes the row exactly when the run is the claimed one, the token is new and the tenant may run |
| ScheduleRun.TenantRow.Finish | platform/src/scheduling.ts:416-422 | the finish statement frees the row and moves its due time only for the token running on it |
| ScheduleRun.Bookkeep | platform/src/scheduling.ts:404-427 | however the four tries of `withRetries` fail, the run is recorded once if any try recorded it, and the row finished once, with the due time of that one recording, if any try finished it |
| ScheduleRun.RunOne | platform/src/scheduling.ts:355-439 | a stale, duplicate or unrunnable delivery calls nobody and changes nothing; any other starts, calls once and leaves the books with that run once, or as they were, and the row finished or still started, as its tries went; a recorded failing call (failed, no answer, timed out) adds one to the streak and one error, one that ran ends the streak and is the last clean one, one that found the lease taken leaves both; a finished failing one is due 1, 2, 4, 8 or 12 minutes after its tick by the failures before it |
| ScheduleRun.RecordingLeaves | platform/src/scheduling.ts:533-609 | what recording any call leaves in the row, counter by counter, for every state of the books |
| ScheduleRun.FinishMakesDue | platform/src/scheduling.ts:409-425 | when a finished delivery is due again, for every answer and every state of the books |
| RunStats.SchedulerStats.RecordRun | platform/src/scheduling.ts:568-609 | the roll-over and the upsert, and the streak it answers |
| RunStats.RetriesChangeNothing | platform/src/scheduling.ts:561-567 | recording a run any number of times in a row leaves both tables as recording it once |
| RunStats.TotalsAreConserved | platform/src/scheduling.ts:533-558 | the rolled days and the current day sum to every run recorded, each counted once, while no repeated recording is later than all before it |
| RunStats.EachCounterIsConserved | platform/src/scheduling.ts:528-558 | counter by counter: the runs, those that neither ran nor found the lease taken, and the sums of their checks, failures, queries and milliseconds |
| RunStats.LongestIsConserved | platform/src/scheduling.ts:556-556 | the longest run recorded is the longest any day shows |
| RunStats.EachDayHoldsItsRuns | platform/src/scheduling.ts:528-558 | and day by day: every UTC day shows, in each counter, exactly the runs first recorded while it was the latest day |
| RunStats.RowShowsLastRuns | platform/src/scheduling.ts:542-549 | however often recordings are repeated, the row shows when the last run was and what became of it, and when the last clean one was |
| RunStats.ConservedIff | platform/src/scheduling.ts:533-558 | and on every prefix of a sequence of recordings if and only if there is no such repeat |
| RunStats.StreakCountsFailures | platform/src/scheduling.ts:549-549 | the streak is the number of failing runs since the last clean one, `lease_busy` neutral, however often and late each recording is repeated |
| RunStats.CountedRunsAreDistinctRuns | platform/src/scheduling.ts:558-558 | while no repeat is late, the counted runs are the distinct runs if and only if no run's recordings are interleaved with another's |
| RunStats.CountedIff | platform/src/scheduling.ts:533-558 | for any sequence at all: counted runs and distinct runs agree on every prefix if and only if no repeat is late and no run returns |
| RunStats.InterleavedRetryCountsTwice | platform/src/scheduling.ts:558-558 | a retry after another run's recording does count its run twice |
| RunStats.RedeliveryPastMidnightShowsTwice | platform/src/scheduling.ts:533-536 | a redelivery recorded again after midnight shows its first day twice, rolled over and current |
| TenantCadence.ClassifyAll | src/worker/scheduler.ts:277-377 | the classification loop: a heartbeat is marked missed exactly when it has been silent for more than interval plus grace since its last beat, or since it was made, unless marked within the last slice; a polled monitor is checked exactly when its recorded check is at most the slack away; entering maintenance, going off schedule and warming up likewise; the rest are skipped, and the wakes are exactly when each monitor next has work |
| TenantCadence.EachGetsItsOwn | src/worker/scheduler.ts:277-377 | each monitor's verdict and wake, by the condition it is in |
| TenantCadence.NextDueAt | src/worker/scheduler.ts:722-722 | the reported time is the earliest wake, and at most 12 minutes after the run started |
| TenantCadence.EveryWakeIsRecorded | src/worker/scheduler.ts:330-376 | every monitor the run leaves alone has its wake in the list the report is taken from |
| TenantCadence.WakeIsExact | src/worker/scheduler.ts:349-375 | a polled monitor, or a heartbeat marked missed before, is acted on by a later run exactly from its recorded wake on |
| TenantCadence.HeartbeatWakeIsExactOnTheClock | src/worker/scheduler.ts:335-363 | a heartbeat whose deadline has not passed is acted on by a later run exactly when that run's own clock has reached the recorded wake and, if it was marked missed before, its tick is a slice past that mark |
| TenantCadence.HeartbeatWakeIsExactIff | src/worker/scheduler.ts:335-363 | so its wake is exact on the clock of every later run if and only if no earlier mark holds the next one back past the earliest moment a run at the wake can be called for: the first tick within a tick of it for the scheduler's calls, any moment within a tick of it when calls made for the moment they are sent (platform/src/releases/runner.ts:945) count too |
| TenantCadence.WakeNeverOvershot | src/worker/scheduler.ts:330-376 | no wake is overshot: whenever a later run acts on a monitor left alone, its clock has reached the wake, and its tick too but for a heartbeat whose deadline passed between tick and call |
| TenantCadence.LateCallSeesDeadlineEarly | src/worker/scheduler.ts:337-363 | that exception happens: a late call for the deadline's own tick marks what the wake puts a tick later |
| TenantCadence.NextCallNeverLate | src/shared/hosted-contract.ts:463-471 | composed with `nextScheduledCall` and `nextDueAfterRun`: the next call is no later than the first tick after this run's that is not before any wake |
| TenantCadence.CallAtWakeActs | src/worker/scheduler.ts:349-376 | a call whose tick has reached a wake acts on the monitor that recorded it, however late the queue delivers it, exactly unless that is a heartbeat within a slice of an earlier mark |
| Provisioning.StepInv | platform/src/provisioning.ts:489-531 | every statement, API call, lost answer, removal, pause, take-over and crash, and every read and statement of a run that lost its lease, keeps the invariant over the row, the database, the key, the script, the tenant's own Custom Domain and every run's knowledge |
| Provisioning.TornDownLeavesNothing | platform/src/provisioning.ts:441-469 | over every interleaving, once a teardown that keeps its lease has erased the row, no script, database, key or Custom Domain of the tenant is left, nor, at the step that erased it, its call secret |
| Provisioning.SecretStaysGoneIff | platform/src/keys.ts:187-195 | after that, from every reachable state, the call secret stays gone on every continuation if and only if no run is at its insert or at the script's deletion before it; otherwise, and only then, some continuation leaves a secret that no later step removes |
| Provisioning.TeardownFinishes | platform/src/provisioning.ts:446-469 | from wherever earlier tries left the tenant, a teardown whose calls are answered within its lease ends with nothing left |
| ProvisioningSetUp.SetUpFinishes | platform/src/provisioning.ts:356-438 | from every reachable state of a tenant being set up, whatever earlier tries left: once unpaused and its last lease over, a run that keeps its lease, has its calls answered and finds no foreign domain or DNS record takes it to ready, its recorded database the one there is, its script there with the escrowed key, and, where that was still to do, the id of the domain at its hostname recorded |
| ProvisioningSetUp.StatesMeanWhatTheySay | platform/src/provisioning.ts:356-438 | over every interleaving: from db_created on the one database is the recorded one, from uploaded on the script is there with the escrowed key |
| ProvisioningSetUp.UploadsStartClean | platform/src/provisioning.ts:376-383 | every upload starts from no script and leaves the escrowed key in it |
| ProvisioningSetUp.LostCreateIsFound | platform/src/provisioning.ts:360-368 | a database whose creation's answer was lost is found by name in the same step |
| Provisioning.FoundIsOwnIff | platform/src/addresses.ts:233-239 | a domain found is kept exactly when it routes to the tenant's Worker and is the recorded one or an attach was under way; any other fails the step for good |
| Provisioning.AttachComesLast | platform/src/addresses.ts:233-245 | an attach is reached only through its intent, and that only where neither a domain nor a DNS record was found |
| Provisioning.RecordFoundFails | platform/src/addresses.ts:241-242 | a DNS record at the hostname fails the step for good |
| Provisioning.GoodReasonPauses | platform/src/provisioning.ts:534-575 | a failure for good pauses the tenant, unless it is being removed |
| Provisioning.EndsLetGo | platform/src/provisioning.ts:271-276 | a run that ends gives its lease up and changes nothing else; one that dies leaves it to run out |
| Provisioning.LostAnswersAreRetried | platform/src/provisioning.ts:508-526 | a call that took effect without its answer arriving fails its step, to be tried again, and records nothing |
| Provisioning.LateFailureChangesNothing | platform/src/provisioning.ts:430-438 | a step that moved on but whose audit entry failed counts as failed, which changes no column |
| Provisioning.TeardownFindsDatabase | platform/src/provisioning.ts:450-452 | a teardown deletes the database on record, or with none on record the one of the tenant's name |
| Provisioning.FailureWaits | platform/src/provisioning.ts:534-575 | a recorded failure counts one more, pauses a set-up at its sixth or when retrying can't help, and is otherwise tried again after 10 s, 30 s, 2 min, 10 min, then every half hour |
| Provisioning.FailedTriesAgain | platform/src/provisioning.ts:248-261 | exactly when a failed tenant can be taken on again: not while paused, and from that time on, or when forced |
| Provisioning.LeaseHolds | platform/src/provisioning.ts:248-277 | the lease is its holder's alone for two minutes from its acquisition and from every renewal, and free once released |
| Provisioning.ForeignDomainsUntouched | platform/src/addresses.ts:215-276 | over every run in which no intent to attach is marked while somebody else's domain routes to the tenant's Worker: a Custom Domain the tenant did not attach is never detached by its runs and never recorded as its own |
| Provisioning.LiveMarksAreCareful | platform/src/addresses.ts:234-245 | a run whose lease lasts never marks its intent so; only one that lost it can |
| Provisioning.CarefulIff | platform/src/addresses.ts:243-276 | exactly when a step keeps other people's domains safe: no continuation detaches or records one if and only if the step does not mark an intent over one that routes to the tenant's Worker |
| ProvisioningStale.StaleMarkIsReached | platform/src/addresses.ts:241-245 | a run from sign-up that ends in such a mark: a stalled run, its lease over, the hostname mapped by somebody else |
| ProvisioningStale.StaleSecretIsReached | platform/src/provisioning.ts:441-469 | a run from sign-up to an erased tenant with a stalled run still about to store its call secret, and one with it still at the script's deletion before that |
| Provisioning.OneDatabaseOneKey | platform/src/provisioning.ts:356-383 | at most one database, recorded or not, and everything ever uploaded carries the one stored key |
| Provisioning.PausesAreBounded | platform/src/provisioning.ts:540-554 | a paused tenant is in a setup state, and an unpaused one that is not being removed has failed fewer than six times in a row |
| Provisioning.StateMovesForward | platform/src/provisioning.ts:278-303 | `provision_state` moves one place along its order or into deleting, which only the row's end leaves, and only the lease's holder moves it along or ends the row |
| Provisioning.LostLeaseChangesNothing | platform/src/provisioning.ts:262-303 | a run without the lease's token changes no column, whatever it was about to write, but for the intent to attach, which it marks and nothing else |
| Provisioning.EveryRunSettles | platform/src/provisioning.ts:508-527 | no run uses up its loop, even with removals landing between any two steps, so "provisioning did not settle" is unreachable |
| Provisioning.TurnRaisesRank | platform/src/provisioning.ts:285-302 | each turn the lease's holder completes leaves the tenant strictly further on, or being removed |
| ProvisioningRun.TenantTable.AcquireLease | platform/src/provisioning.ts:248-260 | a lease is taken exactly when the tenant is not ready, not paused, not leased and due (or forced) |
| ProvisioningRun.TenantTable.RenewLease | platform/src/provisioning.ts:263-269 | only the lease's holder extends it, and learns so |
| ProvisioningRun.TenantTable.ReleaseLease | platform/src/provisioning.ts:271-276 | only the lease's holder gives it up |
| ProvisioningRun.TenantTable.AdvanceTo | platform/src/provisioning.ts:285-303 | the state moves on only from the state the step started in and only for the lease's holder, with a clean slate of retries |
| ProvisioningRun.TenantTable.RecordFailure | platform/src/provisioning.ts:533-560 | a failure counts, backs off and pauses at the sixth or a permanent one, never a teardown, only for the holder and its state |
| ProvisioningRun.TenantTable.MarkForRemoval | platform/src/provisioning.ts:594-604 | removal from any state, or only from a pause, and whether it matched |
| ProvisioningRun.TenantTable.UnpauseProvisioning | platform/src/provisioning.ts:567-576 | the unpause statement: only a paused tenant changes, and gets a clean slate of retries; `ResumeProvisioning` states what that is worth |
| ProvisioningRun.TenantTable.EraseRow | platform/src/provisioning.ts:458-468 | the end of a teardown: the row goes only while the lease is held |
| ProvisioningRun.TakeTurn | platform/src/provisioning.ts:508-526 | one turn of the loop: quiet, it moves the tenant one state on and records what its step found, or finds it ready, or erases it; a failure alone is recorded once and releases the lease; whatever else happens it moves the tenant at most one state on, or to being removed when somebody asked, and it erases exactly a tenant that was being removed when it loaded it, without failing or losing its lease |
| ProvisioningRun.TakeTurns | platform/src/provisioning.ts:507-531 | the loop of a run that has its lease: it renews before each turn, ends at the first outcome or lost lease, and never uses up its turns |
| ProvisioningRun.RunProvisioning | platform/src/provisioning.ts:489-531 | the run's loop with other hands on the row between its steps: it never runs out, never moves the tenant back, and gives its lease up whatever happens; having acquired its lease it takes the tenant one state on in each quiet turn, to ready or to its end; a failing turn or a lost lease is the last and takes it no further, and only a tenant being removed is ever ended; "ready", "busy", "paused", "retry" and "removed" each mean what they say |
| ProvisioningRun.ResumeProvisioning | platform/src/provisioning.ts:578-586 | starting a paused tenant again: whatever its retries had come to, quiet turns take it from the step it stopped at to ready, and a first failure is counted as the first; one not paused keeps waiting for its next try |
| ProvisioningRun.RemoveTenant | platform/src/provisioning.ts:606-615 | removing a tenant: whatever its state, one quiet turn of a run that gets its lease ends it, and it is never ready or paused again |
| SignedCalls.JoinInjective | src/shared/hosted-contract.ts:1077-1089 | one-line fields joined by line breaks can be read back |
| SignedCalls.CanonicalInjective | src/shared/hosted-contract.ts:1065-1090 | two calls with one canonical text are one call, and in one direction (an absent header and a literal "-" apart) |
| SignedCalls.AnswersAreNotCalls | src/shared/hosted-contract.ts:1302-1321 | a signed answer never passes for a call, although one key signs both |
| SignedCalls.VerifiedMeansSigned | src/shared/hosted-contract.ts:1244-1300 | every call that verifies was signed by a holder of that tenant's secret for exactly that direction, tenant, method, host, path and query, timestamp, nonce, body, props and call id |
| SignedCalls.EitherSecretMeansSigned | platform/src/starter.ts:230-270 | also while a rotation waits: with the tenant's current or next secret, the one its answer is signed with |
| SignedCalls.EitherSecretVerifiesIff | platform/src/starter.ts:245-262 | and conversely: a tenant's unaltered call in its window verifies exactly when it was signed with its current or waiting secret, and that secret is the one reported |
| SignedCalls.RefusedBecause | src/shared/hosted-contract.ts:1244-1300 | what each refusal means: the first check, in order, that the call did not pass |
| SignedCalls.CaseOnly | src/shared/hosted-contract.ts:1078-1090 | the signed text ignores the case of ASCII letters in method and host, and nothing else of them |
| SignedCalls.RequestTextIs | src/shared/hosted-contract.ts:1059-1090 | the lines of the signed text: label, direction, tenant, upper-case method, lower-case host, path, timestamp, nonce, body digest, props and call id or a dash |
| SignedCalls.ResponseTextIs | src/shared/hosted-contract.ts:1302-1305 | the lines of an answer's signed text |
| SignedCalls.FormatsAre | src/shared/hosted-contract.ts:1227-1228 | which headers are accepted, character by character |
| SignedCalls.TimesFit | src/shared/hosted-contract.ts:1182-1183 | every time a side writes is accepted as a timestamp and read back as that time |
| SignedCalls.NoncesFit | src/shared/hosted-contract.ts:714-720 | every nonce a side makes of 16 bytes is accepted as one |
| SignedCalls.SignedVerifies | src/shared/hosted-contract.ts:1244-1300 | an unaltered call inside its window is accepted by whoever holds the secret |
| CallNonces.NonceTable.RecordTenantCallNonce | platform/src/starter.ts:203-210 | false exactly when the nonce is there with its retention not over; the expired ones go, and nothing still retained does |
| CallNonces.NonceTable.HandleTenantCalls | platform/src/starter.ts:225-265 | all calls there ever are, in the order the database sees them: each is acted on exactly when it verifies and its nonce is new, and no call twice as long as no clock reading is 35 s or more behind an earlier one |
| CallNonces.NonceTable.HandleTenantCall | platform/src/starter.ts:225-280 | one call: acted on when it verifies and its nonce is new, and answered with the secret it was signed with |
| CallNonces.SignedIsActedOn | platform/src/starter.ts:245-270 | a tenant's unaltered call in its window, signed with its current or waiting secret, is acted on exactly when its nonce is not retained, which it then is until 65 s past its timestamp |
| CallNonces.WorkerIsHeardIff | platform/src/starter.ts:249-255 | what a tenant's Worker signs during rotations is acted on exactly when its secret is the stored current or waiting one |
| CallNonces.WorkerStaysHeard | platform/src/tenant-upload.ts:98-113 | so through any careful rotations, stopped anywhere, its calls are acted on all along |
| CallNonces.ActedOnWasSigned | platform/src/starter.ts:248-265 | and what is acted on was signed by the tenant it names |
| CallNonces.NonceStays | platform/src/starter.ts:204-208 | an acted-on nonce stays in the table until some isolate's clock is past its retention |
| CallNonces.ActedOnAtMostOnce | platform/src/starter.ts:261-265 | one signed call is acted on at most once as long as no handling's clock is 35 s or more behind an earlier one's |
| CallNonces.LagBoundIsExact | src/shared/hosted-contract.ts:968-971 | 35 s is exactly what the retention buys: every history within a lag acts once per call if and only if the lag is at most that |
| Base64Url.DecodeUndoesEncode | src/shared/hosted-contract.ts:694-712 | decoding undoes encoding for every non-empty byte string; the empty text decodes to null |
| Base64Url.EncodeUndoesDecode | src/shared/hosted-contract.ts:700-712 | encoding undoes decoding exactly for texts whose unused last bits are zero |
| Base64Url.GroupsAreTheBits | src/shared/hosted-contract.ts:694-698 | every three bytes are four characters standing for the same 24 bits; of a last one or two only the characters that say something |
| Base64Url.AlphabetIs | src/shared/hosted-contract.ts:694-698 | the characters are those of table 2 of RFC 4648 |
| SecretRotation.WorkerStaysAccepted | platform/src/tenant-upload.ts:114-149 | from a settled tenant, through rotations begun one at a time while the Worker holds the current secret, stopped anywhere and with lost uploads or answers: the Worker's secret is always the stored current or next one |
| SecretRotation.CompletionRetiresOld | platform/src/tenant-upload.ts:133-136 | completion makes the new secret the only one accepted, and the Worker holds it |
| SecretRotation.BeginningIsSafeIff | platform/src/tenant-upload.ts:128-131 | for a stored row (a waiting secret being newer than the current one): beginning a rotation keeps the Worker accepted wherever careful rotations have led a tenant with that row, if and only if no secret is waiting |
| SecretRotation.NoneWaitingIsSafe | platform/src/tenant-upload.ts:129-130 | in particular, on any careful run with no secret waiting, beginning is safe |
| SecretRotation.SecondRotationLocksOut | platform/src/tenant-upload.ts:129-132 | after an upload that landed with its answer lost, beginning again locks the Worker out |
| SecretRotation.OverlappingRotationsLockOut | platform/src/tenant-upload.ts:129-136 | two rotations at once can lock the Worker out though each began from a settled one |
| SecretRotation.FullRotationHeals | platform/src/tenant-upload.ts:126-136 | a rotation that runs to its end leaves the Worker accepted, whatever went before |
| SecretRotation.Tenant.RotateCallSecret | platform/src/tenant-upload.ts:114-149 | one rotation as it executes: whatever fails, a run of the steps above; which secret is current, waiting and on the Worker for every combination of failures and lost answers; "rotated" exactly when every write, the upload and the audit insert worked |
| TenantMove.MovesAreCrashSafe | platform/src/tenant-move.ts:65-125 | across any number of moves, each stopped anywhere: starter with a call secret or dispatch without one, never mixed; the hostname never points at a Worker that is not there; the recorded runtime has its Worker |
| TenantMove.WorkerGoesLast | platform/src/tenant-move.ts:110-117 | the starter Worker is deleted only once the address has left it and its new place is recorded |
| TenantMove.StepsComeInOrder | platform/src/tenant-move.ts:83-112 | every upload starts from no script; the runtime is recorded only after a healthy answer; an attach follows its intent, and that finding no DNS record; an address is taken down only when the API refused to move it in place |
| TenantMove.MovedAddressStays | platform/src/addresses.ts:299-299 | an address that is moved and recorded is never touched again, however often the move is run |
| TenantMove.RerunCompletes | platform/src/addresses.ts:287-300 | wherever an earlier move stopped, running it again with its calls answered completes it when the domain is the recorded one or there is none |
| TenantMove.OtherwiseNeverCompletes | platform/src/addresses.ts:287-299 | with any other domain at the hostname no later move ever completes, or touches that domain |
| TenantMove.InPlaceMovesComplete | platform/src/addresses.ts:300-303 | so a move whose repoints are accepted in place can always be completed after a stop |
| TenantMove.FallbackCanStick | platform/src/addresses.ts:304-311 | a concrete run: the repoint refused, the fallback's attach answered to nobody; no later move completes |
| TenantMove.TeardownLeavesWorkerIff | platform/src/provisioning.ts:446-452 | a removal between two tries of a move leaves a Worker behind exactly when there is one in both places |
| TenantMove.StoppedMoveHasTwoWorkers | platform/src/tenant-move.ts:91-97 | a move stopped at its health check has one in both places |
| TenantMoveRun.Tenant.MoveTenantToDispatch | platform/src/tenant-move.ts:65-125 | the whole move as it executes: refused and untouched unless the tenant is ready and a namespace set; however its calls end it is a run of the steps above; "moved" exactly when every call it needs and the audit insert worked and the address was the recorded one or none, the tenant wholly moved then and when only the audit insert failed; otherwise it names the first step that failed |
| TenantMoveRun.Tenant.UploadAndRecord | platform/src/tenant-move.ts:77-107 | upload, health check and the one batch that records the new runtime and drops the secret |
| TenantMoveRun.Tenant.RepointAddress | platform/src/addresses.ts:287-312 | the repoint and its fallback, call by call, and when it answers an id |
| TenantMoveRun.Tenant.EnsureAddress | platform/src/addresses.ts:244-251 | attaching where the hostname has no domain: the intent first, then the attach |
| Csv.CsvRecords | platform/src/admin/waitlist.ts:56-95 | the scan loop computes exactly the records of the scan as a function of the text to come |
| Csv.RecordsTile | platform/src/admin/waitlist.ts:56-95 | for every text: the raw texts and one line break (CRLF, CR or LF) after each are the text, cut exactly at the unquoted breaks, and each line number is one plus the breaks before it |
| Csv.OneTiling | platform/src/admin/waitlist.ts:75-91 | that cut is the only one, so raw texts and lines are settled by it |
| Csv.RoundTrip | platform/src/admin/waitlist.ts:51-55 | reading undoes an RFC 4180 section 2 printer up to trimming, for any rows, any choice of quoting, any one kind of break, the last one written or not |
| Csv.RoundTripIff | platform/src/admin/waitlist.ts:51-93 | for any printable rows, it undoes it if and only if the last row is not one empty unquoted field without a break after it |
| Csv.TightFieldsComeBack | platform/src/admin/waitlist.ts:66-70 | so fields with nothing to trim come back exactly |
| Csv.TrimIs | platform/src/admin/waitlist.ts:66-70 | trimming takes white space off both ends, nothing else, and leaves none there |
| Csv.WhiteAre | platform/src/admin/waitlist.ts:66-70 | the white space is ECMAScript's, character by character |
| Csv.EmptyLastRowIsLost | platform/src/admin/waitlist.ts:93-93 | such a last row is lost, and all rows before it come back |
| Waitlist.Collect | platform/src/admin/waitlist.ts:110-131 | one entry per address that occurs, in the order they first do, each with its earliest join; the places of the unusable items; the repeats are the usable items beyond the entries |
| Waitlist.UsableOrNot | platform/src/admin/waitlist.ts:114-119 | every item is usable or reported as unusable, so entries, repeats and unusable ones add up to the items |
| Waitlist.EarliestIsLeast | platform/src/admin/waitlist.ts:122-124 | the earliest join of an address is the least of those it has, and none exactly when it has none |
| Waitlist.WaitlistTable.Run | platform/src/admin/waitlist.ts:205-212 | one statement: its new table, and that an insert's changes are the rows it added |
| Waitlist.WaitlistTable.ImportWaitlist | platform/src/admin/waitlist.ts:196-222 | the chunking and batching loops: the table after all statements, and `added` is exactly the rows the table gained |
| Waitlist.OrderDoesNotMatter | platform/src/admin/waitlist.ts:189-195 | for any interleaving of any imports' chunks: who is on the list, and since when, is the earliest join any of them or the table knew |
| Waitlist.ImportTakesTheEarliest | platform/src/admin/waitlist.ts:196-214 | one whole import adds the missing addresses and gives every address the earliest join of list and file |
| Waitlist.AgainChangesNothing | platform/src/admin/waitlist.ts:189-195 | importing what was imported before, in whatever chunks, changes nothing |
| EmailQuota.StepInv | platform/src/capability.ts:161-224 | every step of any number of interleaved sends keeps the count |
| EmailQuota.CountIsDeliveredPlusReserved | platform/src/capability.ts:161-224 | whatever sends race, are refused or stop: a category's and a day's count is what was delivered plus what is still reserved |
| EmailQuota.DayIsDeliveredPlusReserved | platform/src/capability.ts:161-224 | over every run a day counts the emails delivered on it and those still reserved, and no others |
| EmailQuota.NeverClamped | platform/src/capability.ts:217-223 | the give-back's clamp at 0 never fires: what this send reserved is still counted |
| EmailQuota.NeverPastTheLimit | platform/src/capability.ts:164-175 | no more than the limit in force is delivered, or even counted, on a day |
| EmailQuota.EmailUsage.Reserve | platform/src/capability.ts:166-176 | one statement: it reserves all recipients exactly when they fit the day's sum over categories |
| EmailQuota.EmailUsage.SendEmail | platform/src/capability.ts:161-228 | the send loop: refused exactly when the day's sum would pass the limit, which counts one refusal; otherwise an error exactly when nobody got the email, then the first failure's; the row counts what went out and what failed, every other row is as it was |
| EmailQuota.LastPlacesCount | platform/src/capability.ts:166-176 | a send goes ahead exactly when what was delivered and is still reserved leaves places for all its recipients |
| EmailQuota.SendLeaves | platform/src/capability.ts:166-223 | what a send leaves in its own row and in every other |
| Maintenance.ActiveExactly | src/shared/maintenance-schedule.ts:43-79 | active exactly at the in-range instants that some weekly slot's duration covers, across midnight and the end of the week |
| Maintenance.NextIsLeast | src/shared/maintenance-schedule.ts:88-123 | the answer is the least slot strictly after now within the range, and there is none exactly when no slot is |
| Maintenance.LatestSlot | src/shared/maintenance-schedule.ts:72-78 | the wrapped offset is the time since the rule's latest slot |
| Maintenance.NextSlot | src/shared/maintenance-schedule.ts:104-120 | the wrapped delta is the time to the rule's next slot, a whole week when it is 0 |
| Maintenance.NextIsActive | src/shared/maintenance-schedule.ts:80-123 | the window is active when its next occurrence starts |
| Maintenance.QuietUntilNext | src/shared/maintenance-schedule.ts:80-123 | once its range is open, an inactive recurring window stays inactive until its next occurrence, or for good |
| Maintenance.UnopenedIsQuietIff | src/shared/maintenance-schedule.ts:50-123 | before that it stays quiet until its next occurrence if and only if the range does not open in the middle of a slot |
| Maintenance.RangeCanOpenMidSlot | src/shared/maintenance-schedule.ts:50-53 | a concrete window whose range does, and that becomes active with no occurrence starting |
| FastMonitors.KeptByRank | src/shared/check-interval.ts:54-70 | a polled monitor under 12 minutes is kept exactly when fewer than the allowance come before it, active ones first, then older ones, then by id; nothing else is kept |
| FastMonitors.KeptCount | src/shared/check-interval.ts:62-70 | exactly the smaller of the fast monitors and the allowance (0 when negative) are kept |
| FastMonitors.OrderDoesNotMatter | src/shared/check-interval.ts:54-61 | the order of the input does not matter |
| FastMonitors.MoreAllowedKeepsMore | src/shared/check-interval.ts:62-70 | a larger allowance keeps every monitor a smaller one keeps |
| FastMonitors.NeverKeepsTheWorse | src/shared/check-interval.ts:54-61 | nothing idle is kept over something active it drops, nor anything younger over something as active |
| FastMonitors.SortedIsSorted | src/shared/check-interval.ts:66-68 | the comparator is a strict total order on distinct ids, and the sort answers an ordered permutation |
| FastMonitors.SortedIsTheOrder | src/shared/check-interval.ts:66-68 | it is the only one: a list is an ordered permutation of the monitors if and only if it is what the sort answers |
| Caches.AnswersAreRecent | platform/src/tenants.ts:152-163 | with racing lookups, forgets and restarts: a hit was in the table less than its lifetime ago, a looked-up answer since its lookup started, and there are never more than 1,000 entries |
| Caches.TenantAnswers | platform/src/tenants.ts:137-163 | a cached tenant is ready and under 30 s old, a cached unknown slug under 5 s; one being set up is never served from the cache |
| Caches.KeyAnswers | platform/src/starter.ts:85-94 | cached keys are under 30 s old, a cached absence under 60 s |
| Caches.ForgetTakesEffect | platform/src/tenants.ts:165-168 | after a forget while no lookup of the key under way has read the table, the cache never again serves what the table held only before |
| Caches.ForgetTakesEffectIff | platform/src/tenants.ts:152-168 | from every reachable state, a forget takes effect so if and only if every lookup of the key under way that could still be served has read what the table holds now |
| Caches.RacingLookupOutlivesForget | platform/src/tenants.ts:152-168 | a concrete race, for every value that may be kept |
| Caches.Cache.Get | platform/src/tenants.ts:153-154 | the key's value exactly while it may still be served; none when every entry of the key has run out |
| Caches.Cache.Keep | platform/src/tenants.ts:155-161 | what was looked up is served from now on for the lifetime counted from its start, or not at all, and no other key's answer changes but that of the oldest of 1,000 |
| Caches.Cache.Forget | platform/src/tenants.ts:166-168 | the key is served no more, every other key as before |
| Caches.Cache.Find | platform/src/tenants.ts:152-163 | a whole lookup, other requests storing and forgetting while it awaits: its answer was in the table since it started or less than its lifetime before, and what it read is what is served next |
| Caches.CachedTenantBySlug | platform/src/tenants.ts:152-163 | a tenant by its slug: read since the lookup started, or at most 30 s old (an unknown slug 5 s), and what was read is served from then on for exactly as long; one still being set up was read from the table, and its slug is not served from the cache afterwards |
| Caches.TenantCallKeys | platform/src/starter.ts:85-93 | a tenant's keys: read since the lookup started, or at most 30 s old, their absence 60 s, and what was read is served from then on for exactly as long |
| AdminSearch.MatchesExactlyWhatContains | platform/src/admin/data.ts:42-45 | the LIKE pattern with its escapes matches exactly the texts that contain the text as `toLowerCase` folds it, ASCII letter case aside, whatever `%`, `_` and `\` are in it |
| AdminSearch.FindsItselfIff | platform/src/admin/data.ts:42-45 | those are exactly the texts that contain the text itself if and only if folding changed nothing but the case of ASCII letters |
| AdminSearch.SameIs | platform/src/admin/data.ts:42-45 | the letter case LIKE ignores is that of A to Z |
| AdminSearch.RangeIsPrefix | platform/src/admin/data.ts:364-369 | the range from a prefix to its upper bound is exactly the texts that begin with it |
| AdminSearch.BoundIsLeast | platform/src/admin/data.ts:307-310 | the bound is the least text above all with the prefix: a text is above every one of them if and only if it is not below the bound |
| LogRedaction.BuildLine | platform/src/log.ts:130-139 | the loop builds exactly the line's fields |
| LogRedaction.LineHidesSecrets | platform/src/log.ts:98-139 | a line does not depend on what is under secret-named fields at any depth, null and undefined at the top apart |
| LogRedaction.LineShowsTheRest | platform/src/log.ts:98-139 | a line has every other field, in order, and shows its value: texts scrubbed and cut, errors on one line, short lists item by item, anything nested as JSON of a redacted and scrubbed copy |
| LogRedaction.RedactDeepRedacts | platform/src/log.ts:99-109 | every secret-named field that is left, at any depth, reads "[redacted]" |

## Left out

- ScheduleEnqueue.Tenants.EnqueueDue: nothing else writes between its statements; other writers there are the subject of SchedulingProtocol, and a failing give-back is its `CronDies`.
- ScheduleRun.RunOne: one delivery with nothing between its steps; interleaved deliveries are the subject of SchedulingProtocol.
- SchedulingProtocol.NeverStranded: the bound is for the due query to select the tenant; a backlog of more than one cron can claim may add ticks, as fairness between tenants is not modelled.
- SchedulingProtocol.AtMostOneCall: is stated for claims that land in time, since otherwise it is false; SchedulingLateCron.LimitIsExact states exactly when.
- RunStats.TotalsAreConserved: the days dropped after 90 days are not modelled.
- TenantCadence.ClassifyAll: maintenance, schedules and state writes are parameters of each monitor, and the checks themselves are left out.
- TenantCadence.WakeNeverOvershot: covers polled and heartbeat monitors the run leaves alone; wakes pushed after a check (deferred work, confirmations) are not modelled.
- Provisioning.ForeignDomainsUntouched: is stated for intents marked with care, since otherwise it is false; Provisioning.CarefulIff states exactly when.
- Provisioning.TornDownLeavesNothing: leaves the call secret out of what stays gone, since a stale run can store it again; Provisioning.SecretStaysGoneIff states exactly when. Runtime and addresses stay as they were at sign-up, and wildcard addresses, which attach nothing, are not modelled; a move between runtimes is TenantMove's subject.
- ProvisioningRun.RunProvisioning: a step's own calls are one event here (it works, fails, or loses its lease); their order and lost answers are in Provisioning.
- SignedCalls.VerifiedMeansSigned: URL parsing, header folding and the props' JSON are taken as given; the props header is compared as text.
- SecretRotation.Tenant.RotateCallSecret: a tenant it refuses (not a ready starter tenant, no database or release recorded) and the reads before its first write are left out; they change nothing.
- SecretRotation.WorkerStaysAccepted: other isolates' cached keys keep an old secret accepted up to 30 s longer, which is Caches.KeyAnswers.
- TenantMove.MovesAreCrashSafe: a move during provisioning, a removal in the middle of one, and two moves of one tenant at once are not modelled.
- Csv.RoundTrip: characters are Unicode scalar values, where the source scans UTF-16 units; none of the characters the scan looks for is affected.
- Waitlist.Collect: address normalisation and time parsing are given with each item; the JSON form and the header row are left out.
- EmailQuota.CountIsDeliveredPlusReserved: an email whose answer was lost counts as failed, as in the source, though it may have gone out; the cleanup of old days is not modelled.
- EmailQuota.EmailUsage.SendEmail: starts from the recipients that may be mailed; choosing them, confirmation emails and unsubscribe links are left out, and nothing else writes between its statements.
- Maintenance.ActiveExactly: times are whole milliseconds and start times whole minutes; the source's floating-point minutes and dates outside JavaScript's range are not modelled.
- FastMonitors.KeptByRank: numbers are whole; a non-finite interval or creation time is not modelled.
- CallNonces.NonceTable.HandleTenantCalls: what a handler does with a call it acts on, and the rate limit before it, are left out.
- Caches.AnswersAreRecent: one isolate with one clock; a lookup that throws stores nothing and is not a step of its own.
- AdminSearch.MatchesExactlyWhatContains: what `toLowerCase` makes of a text is a parameter.
- LogRedaction.LineHidesSecrets: which names are secret, folding white space, scrubbing, cutting and JSON text are parameters; values that cannot be written as JSON are not modelled.
- Sign-up capacity, slug holds, audit rows, subscriptions and plan prices: each is one statement or one branch.
- `reportUsage`, `audit`, hand-off tokens and `effectiveLimits`: settled by reading one function.
- Release rollouts, billing, the mail provider, Cloudflare's API client, routing, sessions, pages and the Android shell: plumbing, or user interface.
- Encryption, HMAC and key derivation themselves: idealised.
