# polyrouter: batch money, budgets, calibration and their neighbours

polyrouter routes model requests. Its control plane also runs batch jobs that reserve money before they start,
enforces spend budgets through shared counters, moves routing thresholds on evidence, and keeps small concurrent
structures beside them. This project models that logic and proves what it is relied on for.

## What is modelled

**Batch jobs and the money they hold** (`BatchJobs`, `BatchProtocol`, `BatchSafety`, `BatchEndings`, `BatchOutcomes`,
`BatchMoney`, `BatchReleases`, `BatchDenials`, `BatchSync`, `BatchRaces`). A job is a database row with ten statuses,
written only by compare-and-set under the table's CHECK constraints. `BatchProtocol` is a state machine with one step per awaited
statement: any number of submitters, poller advances on row snapshots of any age, cancel requests, and reconciles of the
counters, with a crash possible between any two statements, and a counter call possibly failing after it took effect. A
restart needs no step of its own: an advance in progress is only the snapshot it decided on. The theorems of
`BatchSafety`, `BatchEndings`, `BatchOutcomes`, `BatchMoney`, `BatchReleases` and `BatchDenials` quantify over all event
sequences from the empty system. `BatchEndings` says how a job may end, and points at the event that told so;
`BatchOutcomes` that the status and the error kind stored are those that event reported; `BatchMoney` has the
exact balance of every counter, and `BatchReleases` exactly which releases take off a counter what is not on it;
`BatchDenials` says when the row of a job that was turned away is taken back, and follows one that is not. `BatchSync`
adds the orderly runs, in which no call is lost, no release is unmatched and no reconcile reads a job between two of its
statements; there the counters never drift at all. `BatchRaces` has reachable states outside them.

**The code around that protocol, run alone** (`BatchService`, `BatchPoller`, `BatchAdvances`, `BatchSettlement`,
`BatchCeiling`). Classes and loops as in the source, each method tied to a function of the old state. `BatchAdvances`
spells out, answer by answer, the columns an advance stores and what it takes off the counters; `BatchSettlement` the
tokens and the cost a ledger row carries, read off the result stream. `BatchCounters` shows that each counter
script is a money step of the protocol, and that the sum the scheduler's query returns is the sum the protocol's
reconcile writes; `BatchSettlement` that a chunk of ledger rows is a flush step. `BatchRefinement`, `BatchSweeps` and
`BatchRequests` put this together: every sequential advance of the poller, every sweep up to any of its rows, every
submission whose calls are answered and every cancel leaves table, ledger and counters as some run of the protocol's
tasks and submitter leaves them, so its theorems apply to them.

**Counters, budgets and periods** (`SpendCounters`, `Period`, `BudgetService`, `BudgetScheduler`). One key space holds
spend and pending counters; the key names are strings, and their injectivity is proved on the strings. The calendar is
computed from day numbers. The period's name on the write side and its range on the database side are proved to select
the same jobs.

**Threshold calibration** (`Calibration`, `CalibrationRuns`). Thresholds in whole ten-thousandths. The decision is a
method over a candidate list, proved equal to a specification; the two scopes are a state machine whose observations
may be arbitrarily old.

**Neighbours** (`InflightRegistry`, `BudgetCache`, `JobListing`, `SseConnection`, `RateLimit`, `ProgressMath`), over the
small modules `Options`, `Text`, `Rounding` and `ItemTotals`.

Classes and loops follow the source's own; a state machine or a value stands for what several processes do to shared
state. Every lemma is proved without automatic induction.

## Where the code differs from what it says

- A counter can fall below what live jobs hold on it, until the next reconcile (`BatchMoney.ReconcileExact`), through
  releases of a ceiling that is not there. There are three ways to one: a rejected submit releases even when its `fail`
  matched nothing, because the poller had already failed the row and released it
  (`BatchRaces.DoubleReleaseUndercounts`); an advance ends a job whose submitter has not reserved yet, or has rolled back
  or released (`BatchRaces.EarlyFinishUndercounts`); a reconcile falls between a job's settle and its release
  (`BatchRaces.LateReleaseUndercounts`). `BatchReleases.SubmitterUnmatchedIff` and `BatchReleases.FinishUnmatchedIff` say
  exactly when a release is such a one, `BatchReleases.UnmatchedGrowsIff` that nothing else makes a counter undercount,
  `BatchReleases.MatchedCovers` that without them it never does, and `BatchMoney.PendingExact` by how much it does.
- A job that was turned away can be left live, its row counted by every reconcile although nothing is
  reserved for it (`BatchRaces.DeniedStaysLive`). `BatchDenials.DiscardMissesIff`: the delete that takes the row back misses if
  and only if an advance had marked, adopted or finished the row while the submitter was deciding.
  `BatchDenials.CountedUntilFinished`: a row left live counts in every database sum of its counters exactly until a
  finish wins it. `BatchDenials.LeftoverReleases`: what that finish then releases is not there, unless a reconcile
  counted it.
- A job can be finished with rows in the ledger and zero counts and cost on its own row, when its results went away, or
  its provider did, after a part of them was recorded (`BatchRaces.RecordedAsNothing`). `BatchEndings.StoredTotalsIff`:
  what a finish stores are the totals of the ledger rows if and only if it read the results to their end or none was
  recorded.
- An upstream that answers the create with a final status leaves the job `submitting`: persisting that status violates
  the table's constraint, and the submit fails after the batch was accepted (`BatchService.BatchService.Submit`).
- Adoption has no status guard. A listing that reports a terminal status cannot be adopted on a live row, whose write
  then fails the table's constraint, and it can rewrite the status of a terminal row (`BatchRaces.AdoptsIff`,
  `BatchRaces.StatusRewritten`). `BatchSafety.StatusKeptIff` gives the exact condition, and
  `BatchSafety.TerminalStatusKept` the guarantee under an upstream that never does so.
- A job whose upstream returns more distinct result ids than it has items stays in `finalizing`: its totals fail the
  table's constraint on every sweep (`BatchPoller.OverfullStays`, with such a job in `BatchPoller.TwoInOne`).
  De-duplication does not prevent this; `BatchPoller.EndsIff` has it as a condition, and `BatchPoller.OverfullNeverEnds`
  says it for any answers of an upstream that knows the job.
- An item without usage is billed the even share of the job's whole estimate, so a batch that mixes such items with
  reported ones can settle above its ceiling by more than rounding (`BatchCeiling.MixedExceedsCeiling`);
  `BatchCeiling.OverCeilingWhen` says when it does, and `BatchCeiling.SettledExcess` bounds the excess.
- The agent revert is described as winning over a concurrent calibrator move. It is a compare-and-set against the row it
  read, its result is ignored, and it does nothing when that row has moved on (`CalibrationRuns.RevertClearsIff`, with a
  run in `CalibrationRuns.RevertLost`).
- A CLEAR in exactly the cutoff millisecond writes no marker while a MARK in that millisecond is still admitted
  (`InflightRegistry.ResurrectionIff`).
- The frame after a `resync` is a snapshot or another `resync`, not always a snapshot (`SseConnection.ResyncAfterResync`).
  It always is one exactly in the runs without an overflow that comes while a `resync` is the last frame written and
  anything is written after it (`SseConnection.SnapshotFollowsIff`).

## Assumptions

- The budget set does not change during a run; `reconcilePending` reads and sets in one step.
- The upstream returns the same first outcome per `custom_id` whenever a job's results are readable.
- In a submission run alone, the budgets its release reads are those its reservation read; a read that fails is a release
  call that fails at the first counter.
- Times do not run backwards; instants are whole milliseconds from 1970 on; ids contain no colon.
- The cache holds at least one owner, pages at least one row, and a rate window is longer than nothing, as configured.
- The instance's thresholds and calibration settings are fixed during a run, and a tenant starts without a stored pair.

## Model

| member | source | states |
|---|---|---|
| BatchJobs.TerminalAbsorbs | packages/shared/src/server/db/schema.ts:1364-1367 | No update, whatever its patch and guard, makes a terminal row live or changes when it became terminal or what it settled at: the constraint pairing `terminal_at` with the status refuses it |
| BatchJobs.SettleOnce | packages/control-plane/src/database/batch-jobs.queries.ts:148-226 | Of two settles, or a settle and a fail, or a settle and a discard on one row, the second matches nothing |
| BatchJobs.BatchJobTable.Insert | packages/control-plane/src/database/batch-jobs.queries.ts:55-77 | A new row starts `submitting` with the columns the caller may not choose at their defaults; every other row is kept |
| BatchJobs.BatchJobTable.Update | packages/control-plane/src/database/batch-jobs.queries.ts:134-147 | Owner-scoped compare-and-set: the row after it, no match, or a constraint violation, and nothing else changes |
| BatchJobs.BatchJobTable.Settle | packages/control-plane/src/database/batch-jobs.queries.ts:148-175 | The settling compare-and-set: only from the allowed states and only while `terminal_at` is null |
| BatchJobs.BatchJobTable.Fail | packages/control-plane/src/database/batch-jobs.queries.ts:205-226 | Fails a live row with zero settled cost; a terminal one does not match |
| BatchJobs.BatchJobTable.Discard | packages/control-plane/src/database/batch-jobs.queries.ts:191-204 | Deletes exactly a `submitting` row without an upstream id |
| BatchSafety.StepKeeps | packages/control-plane/src/batch/batch.poller.ts:231-487 | Every step of submitters, poller advances, cancels, crashes and reconciles keeps the invariant, and lets a job evolve only so: a terminal row stays terminal with its time, counts and cost, an upstream id and a cancel request are never withdrawn, and identity, keys and ceiling never change |
| BatchSafety.TerminalOnce | packages/control-plane/src/batch/batch.poller.ts:433-473 | In every interleaving a job becomes terminal at most once, by one settle or one fail; nothing later undoes it, moves its time or rewrites its counts and cost; a recorded cancel request is never withdrawn |
| BatchSafety.FinishReleasesOnce | packages/control-plane/src/batch/batch.poller.ts:454-473 | Among any number of finishes of one job only the one whose settle matched releases, each counter at most once and in key order |
| BatchEndings.MoneyVisible | packages/control-plane/src/batch/batch.poller.ts:372-473 | In every reachable state a job in the table is live, and every counter's database sum includes its ceiling; or every distinct item is in the ledger and the stored counts and cost are the totals of those rows; or an event of the run told why there is nothing to read: the create was refused, or the answer on which the winning finish directly followed said that the provider, the submission, the job or its results are gone. The ledger never holds a foreign or altered row |
| BatchEndings.StoredTotalsIff | packages/control-plane/src/batch/batch.poller.ts:400-430 | The counts and cost a finish stored are the totals of the job's ledger rows if and only if it had read the results to their end or no row of the job was ever recorded; a finish without results stores zeros |
| BatchOutcomes.EndingsAreReported | packages/control-plane/src/batch/batch.poller.ts:231-487 | In every interleaving a job that is over was made so by one event, which stored what the run had been told before: a poller finish the status and error kind that an earlier answer to that very task gave - a final status as it was reported, or `cancelled` where that or the held snapshot was a cancellation; `provider_missing`, `submit_unresolved`, `submit_lost` or expired for the other answers - and a submitter's `fail` the reason of its refusal |
| BatchSafety.StatusKeptIff | packages/control-plane/src/batch/batch.poller.ts:297-305 | A step changes the status of a terminal job if and only if it adopts, from an older snapshot, a listing with a different terminal status |
| BatchSafety.TerminalStatusKept | packages/control-plane/src/batch/batch.poller.ts:297-305 | With an upstream that lists only non-terminal or unmapped statuses, a terminal job keeps its status for good, over any continuation of any run |
| BatchMoney.RunBalances | packages/control-plane/src/budgets/spend-counter.ts:38-60 | Conservation in every reachable state: a pending counter is what was added and counted since its last reconcile, minus what was released, plus what the floor at zero forgave |
| BatchMoney.ReconcileExact | packages/control-plane/src/budgets/budget.scheduler.ts:111-133 | A reconcile makes pending exactly the database sum, squares the books of that counter and touches no other |
| BatchMoney.PendingExact | packages/control-plane/src/budgets/budget-service.ts:211-309 | In every interleaving a counter plus its unmatched releases is exactly the ceilings live jobs hold on it plus those nobody holds any more plus what the floor forgave; so it undercounts the live jobs if and only if the unmatched releases exceed the rest |
| BatchMoney.PendingCoversLive | packages/control-plane/src/budgets/budget-service.ts:211-309 | In every interleaving a counter is at least the ceilings of the live jobs reserved on it or counted by its last reconcile, minus ceilings released since without a matching add or count |
| BatchMoney.AdmissionWithinBudget | packages/control-plane/src/budgets/spend-counter.ts:38-47 | An admission never commits more than the amount, up to those unmatched releases |
| BatchMoney.HeldUntilRollback | packages/control-plane/src/budgets/budget-service.ts:272-279 | A live job stops being held on a counter only by its own rollback of that counter |
| BatchReleases.SubmitterUnmatchedIff | packages/control-plane/src/batch/batch.service.ts:254-264 | A release by a submitter takes off a ceiling that is not there if and only if a finish has already released that counter, or a reconcile since the reservation found the job ended - except where a reconcile had counted the job before the reservation added it, so that it was there twice; without a reconcile since the insert, exactly if a finish has already released it |
| BatchReleases.FinishUnmatchedIff | packages/control-plane/src/batch/batch.poller.ts:454-473 | A release by a finish does if and only if the submitter had not reserved the counter, or had rolled it back or released it, or a reconcile since found the job ended already - except, again, where the job was on the counter twice; without a reconcile since the insert, exactly by the submitter's doing |
| BatchReleases.UnmatchedGrowsIff | packages/control-plane/src/budgets/spend-counter.ts:52-60 | In every interleaving a step adds to what a counter undercounts if and only if it is such a release |
| BatchReleases.MatchedCovers | packages/control-plane/src/budgets/budget-service.ts:211-309 | As long as no release of a counter since its last reconcile was such a one, whatever failed, crashed or overlapped, the counter covers every ceiling live jobs hold on it, and an admission never exceeds its budget |
| BatchDenials.DiscardMissesIff | packages/control-plane/src/batch/batch.service.ts:204-238 | In every run, a job that was turned away loses its row exactly if that is still `submitting`, and keeps it, unchanged, if and only if an earlier step of one of its advances had marked, adopted or finished it |
| BatchDenials.CountedUntilFinished | packages/control-plane/src/batch/batch.poller.ts:290-326 | Over any continuation of any run, a live job whose submitter is done stays in the table, is live exactly until a finish wins it, and counts in the database sum of each of its counters exactly until then |
| BatchDenials.LeftoverReleases | packages/control-plane/src/batch/batch.poller.ts:454-473 | The finish of a job that was turned away, with no counter call of its submitter lost, takes from a counter what is not there unless the counter's last reconcile counted the job and the submitter did not afterwards give back a reservation made before it |
| BatchSync.NoDrift | packages/control-plane/src/budgets/budget-service.ts:281-309 | In an orderly run - no failed counter call, no submitter dying with a partial reservation, no denied job whose row has moved on, no unmatched release, no reconcile between a job's insert and reserve or settle and release - pending equals the database sum on every counter with no job between those statements, without any reconcile having to repair it; advances, cancels, rejections and finishes may overlap with submits |
| BatchRaces.DoubleReleaseUndercounts | packages/control-plane/src/batch/batch.service.ts:254-264 | A reachable state in which a counter reads 0 although a live job holds 5 on it: the rejection path of a submit released although its fail matched nothing |
| BatchRaces.EarlyFinishUndercounts | packages/control-plane/src/batch/batch.poller.ts:231-239 | Another, without a rejection: an advance found the provider of a job that had not reserved yet gone, and released its ceiling |
| BatchRaces.LateReleaseUndercounts | packages/control-plane/src/batch/batch.poller.ts:454-473 | Another, without any submit running: a reconcile fell between a job's settle and its release |
| BatchRaces.DeniedStaysLive | packages/control-plane/src/batch/batch.service.ts:204-238 | A reachable state in which a job was turned away, its submitter is done, its row is live, nothing is reserved for it and the database sum counts its ceiling: its discard came after the poller had moved the row |
| BatchRaces.AdoptsIff | packages/control-plane/src/batch/batch.poller.ts:297-305 | Adopting a live job succeeds if and only if its listed status is non-terminal or unmapped; a terminal one violates the table's constraint and leaves the job as it was |
| BatchRaces.StatusRewritten | packages/control-plane/src/batch/batch.poller.ts:297-305 | A reachable state and a step that rewrites a terminal status, when the upstream lists a job it completed |
| BatchRaces.RecordedAsNothing | packages/control-plane/src/batch/batch.poller.ts:400-430 | A reachable state in which a job is completed with a row in the ledger and zero counts and cost on its own row: its results were gone after that row was recorded |
| BatchSettlement.FirstRowsAre | packages/control-plane/src/batch/batch-settlement.ts:118-129 | The rows of a stream are one per distinct `custom_id`, each the first outcome seen for it |
| BatchSettlement.RequestLog.InsertManyReturning | packages/control-plane/src/database/port.ts:928-941 | Conflict-do-nothing insertion of any chunk: missing rows are added, of two with one id the first, present ones are kept, and the reported ids are exactly the new ones |
| BatchSettlement.Settle | packages/control-plane/src/batch/batch-settlement.ts:82-174 | For any chunk size the ledger becomes the old one plus the missing first-outcome rows; counts and cost are the totals over all distinct items, and `inserted` counts the new rows; an insert that fails, and a stream that throws anywhere, leave exactly the rows of a prefix of the stream |
| BatchSettlement.UsageRecorded | packages/control-plane/src/batch/batch-settlement.ts:181-197 | The ledger row of a success that reported usage carries exactly that outcome's input, output and cache counts; the row of any other outcome the least share that, billed for every item, covers the job's estimate, no output, and the estimated flag |
| BatchSettlement.CostRecorded | packages/data-plane/src/recording/cost.ts:25-40 | A ledger row costs its input, output and cached tokens each at its own snapshot rate; nothing where both are free; and its cost is unknown exactly where a rate it needs is |
| BatchSettlement.ReplaySettlesOnce | packages/control-plane/src/batch/batch-settlement.ts:76-111 | After any number of crashed attempts, each on a result stream of its own, a completed run leaves the ledger an uninterrupted one would have, and each new row was reported as landed exactly once over all of them, provided the upstream repeats the first outcome of every item it has shown |
| BatchSettlement.FlushIsStep | packages/control-plane/src/batch/batch-settlement.ts:103-116 | Each confirmed insert is a flush step of the protocol and moves no other job's rows |
| ItemTotals.TotalsWithout | packages/control-plane/src/batch/batch-settlement.ts:127-129 | The totals over a set of rows do not depend on the order they are added in |
| ItemTotals.TotalsCount | packages/control-plane/src/batch/batch-settlement.ts:127-129 | The completed and failed counts are the numbers of rows that succeeded and that did not, and add up to the number of rows |
| BatchCeiling.EstimateInputTokens | packages/control-plane/src/batch/batch-ceiling.ts:35-37 | The least whole number of tokens at four characters a token; negative lengths count as zero |
| BatchCeiling.ComputeCeiling | packages/control-plane/src/batch/batch-ceiling.ts:39-65 | Unknown rate, missing cap or the least whole number of micro-dollars covering every estimate and cap, in that order of precedence |
| BatchCeiling.CapIs | packages/control-plane/src/batch/batch-ceiling.ts:44-60 | An item is capped by its own maximum where it has one, else by the catalogue's, and only by a finite positive one |
| BatchCeiling.FirstOfAt | packages/control-plane/src/batch/batch-settlement.ts:116-129 | What an id is billed for is the first outcome the stream has for it |
| BatchCeiling.OverCeilingWhen | packages/control-plane/src/batch/batch-settlement.ts:90-129 | A batch settles above its ceiling by more than half a micro-dollar per item only if the tokens of each id's first outcome in the stream - input, output and cached, each at its own rate - are worth more than the estimates and caps the ceiling was computed for, and does so once they are worth more by the rounding of both sides |
| BatchCeiling.SettledNear | packages/control-plane/src/batch/batch-settlement.ts:118-129 | The settled cost is what the tokens of each id's first outcome in the stream are worth at the snapshot's rates, cached ones at theirs, give or take half a micro-dollar per item |
| BatchCeiling.SettledExcess | packages/control-plane/src/batch/batch-settlement.ts:90-129 | The settled cost exceeds the ceiling by at most the input billed beyond the estimate, at the batch rate, the cached tokens at theirs, and half a micro-dollar per settled item |
| BatchCeiling.SettledWithinCeiling | packages/control-plane/src/batch/batch-settlement.ts:123-129 | When no item is billed more input than its own estimate, only cached tokens and rounding can exceed the ceiling |
| BatchCeiling.UnreportedWithinCeiling | packages/control-plane/src/batch/batch-settlement.ts:90-93 | When no item reports usage, the even split adds at most one input token per item but one |
| BatchCeiling.MixedExceedsCeiling | packages/control-plane/src/batch/batch-settlement.ts:183-189 | One item without usage beside one that uses exactly its estimate settles 150001 micro-dollars against a ceiling of 100001 |
| SpendCounters.SpendCounter.CheckAndReserve | packages/control-plane/src/budgets/spend-counter.ts:38-47 | Admits exactly when spend, pending and ceiling fit the amount, and then adds the ceiling to that pending key and nothing else |
| SpendCounters.SpendCounter.Release | packages/control-plane/src/budgets/spend-counter.ts:52-60 | Subtracts the ceiling from that pending key, floored at zero, and nothing else |
| SpendCounters.SpendCounter.ReconcileMax | packages/control-plane/src/budgets/spend-counter.ts:22-29 | Raises a counter to the snapshot, never lowers it, and creates a missing one even at zero |
| SpendCounters.SpendCounter.ReconcilePending | packages/control-plane/src/budgets/spend-counter.ts:224-231 | Overwrites that pending key with the given total, and nothing else |
| SpendCounters.SpendCounter.ReadWithPending | packages/control-plane/src/budgets/spend-counter.ts:177-188 | Spend and pending of each key in order, missing keys reading zero |
| SpendCounters.KeyInjective | packages/control-plane/src/budgets/spend-counter.ts:137-154 | Counter keys are equal if and only if owner, scope, scope id, window, period and basis are (ids without colons) |
| SpendCounters.KeyText | packages/control-plane/src/budgets/spend-counter.ts:137-154 | The text of a counter key, segment by segment |
| SpendCounters.PendingKeyInjective | packages/control-plane/src/budgets/spend-counter.ts:172-174 | Different spend keys have different pending keys |
| SpendCounters.PendingIsNoSpendKey | packages/control-plane/src/budgets/spend-counter.ts:164-174 | A pending key is never a spend key |
| SpendCounters.SetPendingMoves | packages/control-plane/src/budgets/spend-counter.ts:164-174 | Writing one pending key moves no spend counter and no other pending key |
| BatchCounters.ReserveIsStep | packages/control-plane/src/budgets/spend-counter.ts:38-47 | On the shared store the check-and-reserve script admits and adds exactly as the protocol's step does |
| BatchCounters.ReleaseIsStep | packages/control-plane/src/budgets/spend-counter.ts:52-60 | The release script is the protocol's release, floor included |
| BatchCounters.QueryIsDbSum | packages/control-plane/src/database/maintenance.ts:74-90 | What the scheduler's query adds up over the table for a block budget's period is the protocol's sum over the jobs that carry the budget's counter among their keys |
| BatchCounters.KeyedRun | packages/control-plane/src/budgets/budget-service.ts:203-209 | In every run whose submissions key their jobs on the counters they reserve on, every state does, so that sum is always the query's |
| BatchCounters.ReconcileIsStep | packages/control-plane/src/budgets/budget.scheduler.ts:111-133 | A counter the scheduler reconciled from its own reads of the table and the ledger holds what the protocol's two reconciles of it write |
| Period.YearStartClosed | packages/control-plane/src/budgets/period.ts:31-33 | The calendar used agrees with the closed day-number formula of ECMAScript from 1970 on |
| Period.DateRoundTrip | packages/control-plane/src/budgets/period.ts:31-33 | Reading year, month and day off an instant and making a day from them are inverse |
| Period.WeekNumberIs | packages/control-plane/src/budgets/period.ts:52-60 | The rounded division is exact, the week number is 1 to 53, and weeks count from the one holding the year's first Thursday |
| Period.WeekCountsThursdays | packages/control-plane/src/budgets/period.ts:50-60 | The week number is the ordinal of the week's Thursday among the Thursdays of its year (section 4.1.4 of ISO 8601:2004) |
| Period.FirstThursday | packages/control-plane/src/budgets/period.ts:57-59 | The Monday computed from January 4th begins the week holding the year's first Thursday |
| Period.WeekUnique | packages/control-plane/src/budgets/period.ts:61-65 | ISO year and week number identify exactly one Monday |
| Period.SamePeriodIff | packages/control-plane/src/budgets/period.ts:30-66 | For every window and any two instants from 1970 on, the period ids are equal exactly when one instant lies in the other's half-open range, and then the ranges are equal |
| Period.PeriodsTile | packages/control-plane/src/budgets/period.ts:30-66 | Every instant lies in its own period, and the next period begins where it ends |
| Period.DayIs | packages/control-plane/src/budgets/period.ts:35-41 | A day's period is that UTC day, named by its date |
| Period.MonthIs | packages/control-plane/src/budgets/period.ts:42-48 | A month's period holds exactly the days of its year and month, and is named by them |
| Period.WeekIs | packages/control-plane/src/budgets/period.ts:50-66 | A week's period is the seven days from its Monday, named by its ISO year and number |
| BudgetService.GroupByKey | packages/control-plane/src/budgets/budget-service.ts:229-235 | Groups have distinct keys, and each holds exactly the budgets with that key |
| BudgetService.Tightest | packages/control-plane/src/budgets/budget-service.ts:237 | A budget of the group with the smallest amount |
| BudgetService.GoverningInOrder | packages/control-plane/src/budgets/budget-service.ts:138-140 | The governing budgets keep the order they are listed in |
| BudgetService.ReserveGroups | packages/control-plane/src/budgets/budget-service.ts:236-261 | Reserves key by key until one refuses or a call fails, with every earlier key's budgets fitting |
| BudgetService.ReserveForBatch | packages/control-plane/src/budgets/budget-service.ts:211-270 | Every outcome of a reservation with its effect on the counters: reserved, rejected with the budget that had no room, no block budget, unenforced or unavailable |
| BudgetService.AllOrNothing | packages/control-plane/src/budgets/budget-service.ts:211-279 | Without faults a reservation succeeds if and only if every governing budget had room; then every one of them has spend plus pending within its amount and each distinct key gained the ceiling once; otherwise every counter reads as before |
| BudgetService.ReleaseForBatch | packages/control-plane/src/budgets/budget-service.ts:287-309 | Subtracts the ceiling once from the counter of every governing budget for the submission's period, in order of first appearance; a call that fails stops it there, with or without its own key |
| BudgetService.AreGoverning | packages/control-plane/src/budgets/budget-service.ts:296-304 | The counters a release visits are exactly those of the governing budgets, each once |
| BudgetService.KeysAppear | packages/control-plane/src/budgets/budget-service.ts:296-304 | A release visits one counter before another exactly as the first budget on it is listed before |
| BudgetService.ReleaseMatchesReserve | packages/control-plane/src/budgets/budget-service.ts:203-209 | With the budgets unchanged a release that reached some of the counters removes there exactly what the reservation of the same submission added, and leaves the ceiling on the others; one that reached all leaves every counter as before |
| BudgetService.CheckBlocked | packages/control-plane/src/budgets/budget-service.ts:134-177 | The first governing budget, pending counted as spent, whose counter has reached its amount in dollars to the nearest micro-dollar, and none exactly if no governing budget has; staleness and faults by the fail mode |
| BudgetService.MicrosOfUsd | packages/control-plane/src/budgets/period.ts:19-23 | A whole number of micro-dollars is within an amount in dollars, or has reached it, by comparison with a million times the amount, halves rounding up |
| BudgetService.GoverningIs | packages/control-plane/src/budgets/budget-service.ts:105-108 | A budget governs exactly if it is an enabled block budget of the whole owner or of that agent |
| BudgetService.AdmittedInUsd | packages/control-plane/src/budgets/budget-service.ts:211-261 | A reservation without faults is admitted if and only if every governing budget has room in dollars for the ceiling on top of spend and pending, and then each governing counter holds exactly that much more |
| BudgetService.FullBudgetBlocks | packages/control-plane/src/budgets/budget-service.ts:158-170 | After a reservation a governing budget has reached its amount in dollars, and so blocks the next request, if and only if the reservation filled it to the micro-dollar |
| BudgetScheduler.RangeSelects | packages/control-plane/src/database/maintenance.ts:74-90 | The database range and filters select exactly the live jobs whose reservation sits on the counter key |
| BudgetScheduler.ReconcileCountsReserved | packages/control-plane/src/budgets/budget.scheduler.ts:123-133 | A reconcile of a block budget's counter counts a live job, of any owner, if and only if its submission reserved on that counter |
| BudgetScheduler.SharedKey | packages/control-plane/src/budgets/budget.scheduler.ts:83-109 | Budgets that share a counter at any two instants meter the same owner, scope, agent, window and basis |
| BudgetScheduler.RunBudgetOccurrence | packages/control-plane/src/budgets/budget.scheduler.ts:66-161 | With each counter's total and rows read at its own turn and a call that may fail anywhere: the counter of every active budget reached carries the ceilings of exactly the live jobs reserved on it and at least the ledger's spend, every other one is unchanged but for a spend that was raised when a call failed; the budgets alerted are exactly the reached alert budgets whose total has reached their amount in dollars and whose marker was not set; the heartbeat is stamped exactly when no call failed, and then every active budget was reached |
| BatchPoller.Poller.Finish | packages/control-plane/src/batch/batch.poller.ts:433-473 | The one place a job becomes terminal: the row settles by compare-and-set, and the ceiling is released only if it matched |
| BatchPoller.Poller.SettleAndFinish | packages/control-plane/src/batch/batch.poller.ts:400-430 | Table, ledger and counters after settling: every distinct item recorded before the row turns terminal and its ceiling is released; a settlement cut short records what it inserted and leaves the row; results that are gone, at once or midway, finish the job without totals; the terminal status told to the caller is the one stored |
| BatchPoller.Poller.ApplyStatus | packages/control-plane/src/batch/batch.poller.ts:329-397 | An unmapped status is not terminal, a live one is stored, a definitive one is held, settled into the ledger and finished |
| BatchPoller.Poller.ExpiredOrLost | packages/control-plane/src/batch/batch.poller.ts:477-486 | A job the upstream no longer knows expires past its window and is lost before it |
| BatchPoller.Poller.ReconcileSubmission | packages/control-plane/src/batch/batch.poller.ts:290-326 | Adopts a listed job; fails an absent one only after the whole window |
| BatchPoller.Poller.AdvanceJob | packages/control-plane/src/batch/batch.poller.ts:231-286 | Table, ledger and counters after one advance on any snapshot: the ledger gains what a settlement read, the ceiling is released exactly when the advance made the job terminal, and the caller is told the status that was stored, and that results were settled exactly if the stored counts are not all zero |
| BatchPoller.Poller.Sweep | packages/control-plane/src/batch/batch.poller.ts:191-228 | A sweep over any listing of live rows advances each one not already in flight, from the table, ledger and counters the one before it left; it contains failures, stops at a shutdown, leaves other rows alone and the in-flight set as it was |
| BatchPoller.EndsIff | packages/control-plane/src/batch/batch.poller.ts:231-430 | A live job, advanced alone, becomes terminal if and only if its provider is gone, the upstream has hidden its submission for the whole window, no longer knows it, or gave a final status whose results were recorded and fit the job, or are gone |
| BatchPoller.OverfullNeverEnds | packages/control-plane/src/batch/batch.poller.ts:400-473 | A job whose upstream returns more distinct results than it has items does not end, whatever is answered, while its provider is there and its upstream knows it |
| BatchPoller.OverfullStays | packages/control-plane/src/batch/batch.poller.ts:329-473 | Held in `finalizing` without a stall note or a cancel request, such a job is left exactly as it is by every advance that is told a final status other than a cancellation, or cannot ask |
| BatchPoller.TwoInOne | packages/control-plane/src/batch/batch.poller.ts:400-473 | A job of one item whose upstream returns two ids is such a job |
| BatchAdvances.EndsWithView | packages/control-plane/src/batch/batch.poller.ts:400-473 | A live job that an advance ends on a status answer is stored with that very status, unless it is a cancellation or the snapshot was cancelling, and then as `cancelled`; without an error kind, with the totals of all its distinct results, or zeros where they are gone |
| BatchAdvances.EndsWithoutView | packages/control-plane/src/batch/batch.poller.ts:231-326 | Every other ending: `failed` with `provider_missing`; `failed` with `submit_unresolved`, or `submit_lost` after a cancel request, and only once the submission was unlisted for six hours; expired, or `failed` with `submit_lost`, where the upstream does not know the job past or before its window; each with zero counts and cost |
| BatchAdvances.SubmittingStores | packages/control-plane/src/batch/batch.poller.ts:240-252 | A submission without an upstream id becomes `submission_unknown`, its stall dated now, exactly from two minutes on and while it is still `submitting` |
| BatchAdvances.ListingStores | packages/control-plane/src/batch/batch.poller.ts:290-326 | The first listed entry that names the job gives it its upstream id and status - `in_progress` where that is unmapped - unless the status is final; an unlisted job is left as it is within its six hours |
| BatchAdvances.FailuresStore | packages/control-plane/src/batch/batch.poller.ts:253-286 | A call that fails before the status is known stores nothing but a cancel that was passed on |
| BatchAdvances.ViewStores | packages/control-plane/src/batch/batch.poller.ts:329-371 | An unmapped status notes the stall, dated from the first such view; a live one is stored with the counts reported beside it, as long as they fit the batch |
| BatchAdvances.HoldStores | packages/control-plane/src/batch/batch.poller.ts:372-430 | A final status whose settlement does not get to its end, or does not fit, leaves the job `finalizing`, or `cancelling` where that or the status is a cancellation |
| BatchAdvances.FinishIff | packages/control-plane/src/database/batch-jobs.queries.ts:148-175 | A finish matches exactly if its counts fit the batch and it finds the job live, and with results held in `finalizing` or `cancelling`; it then ends the job in just that way |
| BatchAdvances.EndingReleases | packages/control-plane/src/batch/batch.poller.ts:454-473 | An advance takes the job's ceiling off every counter that governs it, once and not below zero, exactly if it ends a live job; no other counter moves, and no spend |
| BatchRefinement.Advances | packages/control-plane/src/batch/batch.poller.ts:231-473 | Some answers take the protocol's task to the row, the job's ledger and the counters that a sequential advance leaves, whatever snapshot it decided on, however far its settlement got and where its release failed |
| BatchSweeps.AdvanceIsRun | packages/control-plane/src/batch/batch.poller.ts:231-473 | From any state of the protocol's invariant that the poller's table, ledger and counters show, every sequential advance leaves what some run of its task leaves, and every other job as it was |
| BatchSweeps.SweepIsRun | packages/control-plane/src/batch/batch.poller.ts:202-228 | Every sweep, up to any of its rows, is a run of the protocol: the three stores after it are shown by a state of that run |
| BatchService.BatchService.Submit | packages/control-plane/src/batch/batch.service.ts:183-290 | Row and counters by result, whatever the upstream answers: a job turned away leaves neither row nor reservation, and for a reason that is true; an accepted one holds its ceiling on the counter of every governing budget unless the budgets could not be read, the counters were stale or a call failed in the fail-open mode; a refused one leaves a failed row and no reservation except on counters a failed release did not reach; an unanswered one and one created with a final status keep both |
| BatchService.BatchService.AdmitJob | packages/control-plane/src/batch/batch.service.ts:204-238 | A job no budget governs passes unreserved; a governed one without a ceiling is denied; one with a ceiling is reserved on every governing counter or denied by a budget without room; unreadable budgets, stale counters and failed calls go by the fail mode |
| BatchService.SubmitDecides | packages/control-plane/src/batch/batch.service.ts:204-238 | Without failed calls a governed submission is blocked if and only if some enabled block budget of the owner or the agent is too small for the ceiling in dollars, refused as unbounded if and only if it has no ceiling, and turned away as unenforceable if and only if the fail mode is closed and budgets or counters could not be relied on; else it holds its ceiling on every governing counter exactly if it is governed and enforcement is on |
| BatchService.BatchService.CancelJob | packages/control-plane/src/batch/batch.service.ts:402-436 | A cancel of a job that is over, or being cancelled upstream, changes nothing; without an upstream id or a provider it records the request; if the upstream's cancel fails nothing is written, and otherwise a validating, running or finalizing job becomes `cancelling` with the request recorded |
| BatchAdvances.CancelHonoured | packages/control-plane/src/batch/batch.poller.ts:262-286 | A recorded request is honoured by the first advance that finds an upstream id and can pass it on: the job is `cancelling` from there, and whatever final status is reported to a later advance ends it as `cancelled` |
| BatchRequests.SubmitIsRun | packages/control-plane/src/batch/batch.service.ts:183-290 | Every submission whose calls are answered, run alone, is a run of the protocol's submitter: some replies take it to its end with the same row, or none, and counters that read the same |
| BatchRequests.FaultGivesBack | packages/control-plane/src/budgets/budget-service.ts:262-279 | A reservation that fails at any of its counters is given back, but for the one script that ran unanswered, and the job is then let through or turned away by the fail mode |
| BatchRequests.CancelIsRun | packages/control-plane/src/batch/batch.service.ts:402-436 | Every cancel run alone is a run of the protocol's cancel task: the same row, the ledger and the counters untouched |
| Calibration.DecideMove | packages/control-plane/src/calibration/calibration.run.ts:292-401 | The list, sort and cursor of the decision choose exactly the specified edges, target and chained events, high edge first |
| Calibration.ChoiceIs | packages/control-plane/src/calibration/calibration.run.ts:294-359 | With an edge a candidate exactly when its samples reach the minimum, its failures over samples are at least 0.65 (high) or at most 0.15 (low), one step stays within the drift cap of the anchor and no cooldown runs: both edges move exactly when both are candidates and the joint gap is admissible; else the one whose rate deviates further, ties to high, exactly when the one-step gap is; nothing moves only if no edge is a candidate or no one-step gap is admissible |
| Calibration.EligibleIff | packages/control-plane/src/calibration/calibration.run.ts:292-330 | An edge is a candidate exactly under those conditions on the quotients |
| Calibration.DecisionIs | packages/control-plane/src/calibration/calibration.run.ts:333-371 | Nothing happens exactly if no edge is chosen or the target would leave the drift cap of the global bound; else each chosen edge moves one step inwards |
| Calibration.AppliesIff | packages/control-plane/src/proxy/routing.config.ts:318-345 | A stored pair applies exactly if it is an ordered pair on the scale, was derived from that very base, contracts it by at most the drift cap at either end and leaves its gap open |
| Calibration.StaleHaltedIff | packages/control-plane/src/calibration/calibration.config.ts:119-151 | A pair is stale exactly if it does not apply and is not the base itself; a scope is halted exactly if the gap of the instance or its own is not open |
| Calibration.StrengthIsDeviation | packages/control-plane/src/calibration/calibration.run.ts:309-310 | The stored fraction is the exact deviation of failures over samples from the bound |
| Calibration.CrossMultiplied | packages/control-plane/src/calibration/calibration.run.ts:350-356 | The integer comparison orders two fractions as their quotients |
| Calibration.DecisionUnique | packages/control-plane/src/calibration/calibration.run.ts:292-401 | The decision's contract leaves nothing open |
| Calibration.MoveKeeps | packages/control-plane/src/calibration/calibration.config.ts:119-151 | A move from a usable pair leaves one that applies as it stands: contracted, within the drift cap, gap-admissible, neither stale nor halting its scope, and within a global bound if one was given |
| CalibrationRuns.CalibrationStore.SetCalibrated | packages/control-plane/src/database/port.ts:1074-1147 | The tenant write: nothing unless every expected column matches; else quad, epoch plus the number of events, and one audit row per event |
| CalibrationRuns.CalibrationStore.ClearCalibrated | packages/control-plane/src/database/port.ts:1148-1193 | The user's revert clears whatever pair is present, with one event; without a pair it does nothing |
| CalibrationRuns.CalibrationStore.SetAgentCalibrated | packages/control-plane/src/database/port.ts:1477-1581 | The agent write: nothing unless the pin still is the parent's pair, epoch and generation and the agent's row is the one expected; else its quad, one epoch more and its audit rows; the generation moves exactly on a change of membership |
| CalibrationRuns.CalibrationStore.CalibrateTenant | packages/control-plane/src/calibration/calibration.run.ts:182-253 | One tenant's move from an observation of any age is the state machine's step |
| CalibrationRuns.CalibrationStore.CalibrateAgents | packages/control-plane/src/calibration/calibration.run.ts:427-537 | The agents' pass is the run of one agent move per listed row under one observed parent |
| CalibrationRuns.CalibrationStore.HygieneAgents | packages/control-plane/src/calibration/calibration.run.ts:565-654 | The agents' hygiene is the run of one clear per listed row whose pair no longer applies or whose agent gives no evidence |
| CalibrationRuns.CalibrationStore.RetireAgent | packages/control-plane/src/calibration/calibration.run.ts:565-654 | An agent loses its pair exactly if that no longer applies on the parent's, equals it, or the agent gives no evidence, and its row is still the one listed |
| CalibrationRuns.CalibrationStore.Occurrence | packages/control-plane/src/calibration/calibration.run.ts:92-180 | One occurrence for one tenant is the run of its rebase, its agents' hygiene, its move and its agents' moves under the pair it settled on, or under the row it was listed with when that cannot be read again, and keeps the invariant |
| CalibrationRuns.AgentAnchored | packages/control-plane/src/calibration/calibration.run.ts:503-529 | An agent write commits only in a state where its anchor is the tenant's effective pair |
| CalibrationRuns.EffectivePairSound | packages/control-plane/src/proxy/routing.config.ts:318-398 | What the resolver's own guards give of any stored data: the pair that decides only contracts, drifts at most the cap from the instance defaults even across both levels, and is the instance pair or gap-admissible; the agent's decides exactly when it applies on the tenant's and stays within the global bound. What runs add is the next row |
| CalibrationRuns.StoredPairsSound | packages/control-plane/src/proxy/routing.config.ts:318-398 | In every run every stored pair is sound where it is stored, stale anchors included, and an agent's pair decides exactly when its anchor is the tenant's effective pair, so the global bound never has to step in |
| CalibrationRuns.MovesNeverHalt | packages/control-plane/src/calibration/calibration.config.ts:142-151 | In every run a move that commits, at either scope, neither is stale nor halts its own scope |
| CalibrationRuns.TenantMovesIff | packages/control-plane/src/calibration/calibration.run.ts:182-253 | A tenant's move commits exactly if calibration is still enabled, quad and epoch are still those the sweep listed, the pair is neither stale nor halted and the evidence decides on a move; what it then writes, column by column |
| CalibrationRuns.AgentMovesIff | packages/control-plane/src/calibration/calibration.run.ts:427-537 | An agent's move commits exactly if its row and the parent's pair, epoch and generation are still those read, neither scope is halted, its own pair applies and the evidence decides on a move; what it then writes |
| CalibrationRuns.AuditReplays | packages/control-plane/src/database/port.ts:1106-1145 | In every run replaying the tenant's audit events from the instance pair gives the pair it holds or inherits, and the epoch is the number of events |
| CalibrationRuns.EventsBetweenClears | packages/control-plane/src/calibration/calibration.run.ts:296-331 | In every run at most 2 * floor(maxDrift / step) calibrator events lie between two clears |
| CalibrationRuns.RevertClearsIff | packages/control-plane/src/routing-config/auto-layers.service.ts:275-313 | The tenant revert always clears; the agent revert clears if and only if the row it read is still current, and otherwise silently does nothing |
| CalibrationRuns.RebasesIff | packages/control-plane/src/calibration/calibration.run.ts:109-135 | A rebase commits exactly if the listed pair is stale and still the tenant's, epoch included, whether or not calibration is enabled; it clears the pair with one event |
| CalibrationRuns.RevertLost | packages/control-plane/src/routing-config/auto-layers.service.ts:275-313 | A reachable run in which a calibrator move lands between the agent revert's read and its write, and the revert leaves the pair |
| InflightRegistry.RegistryStore.RunMark | packages/control-plane/src/inflight/inflight-registry.ts:127-137 | Refused under a live marker or past the cutoff; else the entry, its lease and the index member are set |
| InflightRegistry.RegistryStore.RunRenew | packages/control-plane/src/inflight/inflight-registry.ts:140-147 | Extends an existing entry's lease, never creates one |
| InflightRegistry.RegistryStore.RunClear | packages/control-plane/src/inflight/inflight-registry.ts:152-160 | Deletes entry and index member, and keeps a marker through the cutoff |
| InflightRegistry.RegistryStore.RunRelabel | packages/control-plane/src/inflight/inflight-registry.ts:165-170 | Rewrites an existing entry's labels and keeps its expiry |
| InflightRegistry.NoResurrection | packages/control-plane/src/inflight/inflight-registry.ts:127-170 | After a CLEAR at any other millisecond than the cutoff, no later arrival of any scripts of that request, in any number and order, makes its entry exist again |
| InflightRegistry.ResurrectionIff | packages/control-plane/src/inflight/inflight-registry.ts:131-158 | An entry can come back after a CLEAR if and only if the CLEAR ran in the cutoff millisecond itself |
| InflightRegistry.LaterMarksRefused | packages/control-plane/src/inflight/inflight-registry.ts:131-158 | After a CLEAR in the cutoff millisecond, marks in strictly later milliseconds bring nothing back |
| InflightRegistry.LeaseRuns | packages/control-plane/src/inflight/inflight-registry.ts:132-145 | An entry expires one lease after the last accepted MARK or RENEW, whatever relabels ran |
| InflightRegistry.GoneAfterLease | packages/control-plane/src/inflight/inflight-registry.ts:132-145 | Without a CLEAR an entry is gone once the lease has passed since then |
| InflightRegistry.StoredIff | packages/control-plane/src/inflight/inflight-registry.ts:127-170 | In every run of one request a marker is stored exactly if some CLEAR ran before the cutoff, and an entry exactly if some MARK came in time, after no such CLEAR and before no CLEAR at all |
| InflightRegistry.AcceptedIff | packages/control-plane/src/inflight/inflight-registry.ts:127-170 | A MARK is accepted exactly up to the cutoff and unless a CLEAR ran before it; a RENEW or RELABEL exactly if a MARK stands and its lease has not run out |
| InflightRegistry.LabelsAre | packages/control-plane/src/inflight/inflight-registry.ts:165-170 | An entry carries the labels of the last MARK or RELABEL that was accepted |
| InflightRegistry.InflightLease.Settle | packages/control-plane/src/inflight/inflight-registry.ts:295-303 | The handle sends exactly one CLEAR, and nothing after it |
| InflightRegistry.HandleNeverResurrects | packages/control-plane/src/inflight/inflight-registry.ts:263-311 | Whatever a handle sent and however its commands are reordered or repeated, the entry does not exist after the CLEAR's arrival (outside the cutoff millisecond) |
| BudgetCache.NeverStale | packages/control-plane/src/budgets/budget-cache.ts:48-99 | In every run the rows any get receives, cached, joined or stale after an error, come from a load begun after the last invalidation before that get; at most one load per owner and generation is in flight; the cache stays within its cap |
| BudgetCache.FreshAndOwn | packages/control-plane/src/budgets/budget-cache.ts:48-58 | In every run a get is answered at once exactly if the owner has an entry younger than the time to live, and then with rows a load of that owner brought less than that long ago |
| BudgetCache.HitIsNewest | packages/control-plane/src/budgets/budget-cache.ts:50-57 | A fresh hit becomes the most recently used entry, and nothing enters or leaves |
| BudgetCache.WaitersServed | packages/control-plane/src/budgets/budget-cache.ts:60-80 | Every get that waits for a load is served when it brings rows, and, with the entry its starter saw, when it fails; only a failure without one serves nobody |
| BudgetCache.EvictsOldest | packages/control-plane/src/budgets/budget-cache.ts:89-99 | Storing above the cap drops exactly the least recently used of the other owners' entries |
| BudgetCache.Cache.Fetch | packages/control-plane/src/budgets/budget-cache.ts:48-80 | A fresh entry is touched and returned, a load of the current generation joined, else one started |
| BudgetCache.Cache.Store | packages/control-plane/src/budgets/budget-cache.ts:89-99 | Superseded rows are dropped; others cached as most recently used, the oldest evicted above the cap |
| BudgetCache.Cache.OnFailed | packages/control-plane/src/budgets/budget-cache.ts:69-72 | A failed load serves the entry its starter saw, or the error |
| BudgetCache.Cache.OnFinally | packages/control-plane/src/budgets/budget-cache.ts:74-77 | A settled load clears the slot only of its own generation |
| BudgetCache.Cache.Invalidated | packages/control-plane/src/budgets/budget-cache.ts:82-87 | Drops the entry and moves the generation |
| JobListing.RoundTripIff | packages/control-plane/src/database/batch-jobs.cursor.ts:6-27 | A cursor decodes to itself if and only if it has a full timestamp and a non-empty id without separators |
| JobListing.DecodeSound | packages/control-plane/src/database/batch-jobs.cursor.ts:15-27 | Whatever decodes was produced by encoding what it decodes to |
| JobListing.TimestampIs | packages/control-plane/src/database/batch-jobs.cursor.ts:12 | A full timestamp is a UTC instant to the microsecond |
| JobListing.FollowsIs | packages/control-plane/src/database/batch-jobs.queries.ts:98-114 | The query condition selects exactly the rows after the cursor in the listing's order |
| JobListing.OrderIs | packages/control-plane/src/database/batch-jobs.queries.ts:98-125 | The listing's order is strict and total: live before terminal, then later submissions first, then larger ids |
| JobListing.PagesAreTheList | packages/control-plane/src/database/batch-jobs.queries.ts:95-133 | On an unchanging table paging ends and the pages concatenate to the whole list in order, each row once |
| JobListing.NoSkips | packages/control-plane/src/database/batch-jobs.queries.ts:95-133 | Following cursors to the end lists every row that exists throughout, even while rows turn terminal, arrive or disappear between pages |
| SseConnection.WrittenIsStream | packages/control-plane/src/events/sse-connection.ts:31-72 | For any interleaving the queue stays within its limit, and what was written is contiguous runs of the events in order, separated by resyncs, a run after a resync beginning with a snapshot |
| SseConnection.NothingAfterClose | packages/control-plane/src/events/sse-connection.ts:91-101 | Nothing is written after a close, whatever follows |
| SseConnection.QueuedIff | packages/control-plane/src/events/sse-connection.ts:31-46 | An open connection queues an event exactly if there is room and no resync stands for it; a full queue collapses to one resync |
| SseConnection.FlowsOut | packages/control-plane/src/events/sse-connection.ts:48-73 | A socket that keeps taking writes is given the whole queue, in order |
| SseConnection.NothingIdles | packages/control-plane/src/events/sse-connection.ts:48-60 | In every run a connection that is not waiting for its socket has nothing queued |
| SseConnection.ResyncAfterResync | packages/control-plane/src/events/sse-connection.ts:39-42 | For any limit, 0 included, a second resync can follow the first directly: the snapshot that answered it was dropped by another overflow |
| SseConnection.SnapshotFollowsIff | packages/control-plane/src/events/sse-connection.ts:31-46 | In any run every resync that anything follows is followed by a snapshot if and only if no overflow came while a resync was the last frame written and anything was written after it |
| SseConnection.Connection.Offer | packages/control-plane/src/events/sse-connection.ts:31-46 | Pushes, drops or collapses the event and starts the drain loop |
| SseConnection.Connection.Drain | packages/control-plane/src/events/sse-connection.ts:48-60 | Writes until the queue is empty, the connection closes or the socket asks to wait |
| SseConnection.Connection.WriteNext | packages/control-plane/src/events/sse-connection.ts:63-73 | One write: swallowed by an ended socket, closing on an exception |
| RateLimit.InProcessLimiter.Hit | packages/control-plane/src/auth/rate-limit.ts:54-63 | Decision and window after a hit |
| RateLimit.InProcessLimiter.Sweep | packages/control-plane/src/auth/rate-limit.ts:66-69 | From ten thousand keys on, removes exactly the windows that are over; below that nothing |
| RateLimit.OncePerWindow | packages/control-plane/src/auth/rate-limit.ts:54-63 | At most the limit passes within one window (the limit taken to be at least 1) |
| RateLimit.TwiceAtMost | packages/control-plane/src/auth/rate-limit.ts:54-63 | At most twice the limit passes in any closed interval of one window length |
| RateLimit.WindowIs | packages/control-plane/src/auth/rate-limit.ts:54-63 | Hits leave the window that one of them opened - the first hit, or the first past the end of the window before: it counts every hit since and ends one length after it |
| RateLimit.PassesIff | packages/control-plane/src/auth/rate-limit.ts:54-63 | The next hit passes if and only if it is past the end of that window or fewer than the limit have come in it, so the limit's worth does pass; the wait is the least whole number of seconds to its end |
| RateLimit.FirstPasses | packages/control-plane/src/auth/rate-limit.ts:54-59 | A first hit passes, with nothing to wait for |
| RateLimit.SweepsInvisible | packages/control-plane/src/auth/rate-limit.ts:65-69 | Sweeps interleaved anywhere change no decision |
| RateLimit.OwnHitsOnly | packages/control-plane/src/auth/rate-limit.ts:54-63 | A key's window depends on its own hits alone |
| ProgressMath.CumulativeProgress | packages/control-plane/src/budgets/progress-math.ts:8-26 | A point at the start and one per bucket begun before `asOf`, each with the sum of the buckets so far |
| ProgressMath.PointsExact | packages/control-plane/src/budgets/progress-math.ts:7-26 | Every point is the exact spend of the rows created before it, times strictly increase and end at `asOf`, and the last point is the total |
| ProgressMath.PrefixIsSpent | packages/control-plane/src/database/budget-progress.queries.ts:235-250 | The first n buckets hold exactly what the rows created before their end cost |

## Left out

- HTTP controllers, request parsing, dependency wiring, queue and connection handling, migrations, metrics, logging and notifications: they decide nothing proved here.
- The upstream batch API is its answers; hashing, JSON and base64 are taken to be injective.
- Row columns that no decision here reads: `lastPolledAt`, `updatedAt`, `resultsExpireAt`, prices on the job row outside settlement.
- Provider lookup, credentials and routing of a submission; its parsed items and target are given.
- Expiry of spend and pending keys: a counter is taken to outlive its period. The expiry of the reconcile heartbeat is the `recent` parameter.
- Floating point: money and rates are exact reals or integers, with one rounding function; `BatchCeiling` and `BudgetService.ToMicros` round as the code does.
- Output caps and token counts that are not whole numbers.
- Dates before 1970 and beyond the range of the platform's `Date`.
- The analytics queries that gather calibration evidence, and the cooldown's event list with its cap: evidence and cooldown are arbitrary inputs.
- Agents' audit events are recorded but only the tenant's log is replayed.
- A tenant without a settings row, on which every calibration write does nothing.
- The in-flight listing and its sweep of index members, and the expiry of the index beyond what the scripts set.
- Key strings of the in-flight registry: keys are pairs of owner tag and request id.
- The Redis half of the rate limiter and its rule table; `retryAfterSec` of the shared limiter.
- BatchRequests.SubmitIsRun: takes a submission whose reservation and release calls are all answered. One with a call that fails has the contract of `BatchService.BatchService.Submit`, and `BatchRequests.FaultGivesBack` for the protocol's side of a failed reservation.
- `JobListing.NoSkips`: says nothing about a walk that never ends because rows keep arriving.
- The listing's filters by owner and agent: the table is one owner's, in listing order, as the query returns it.
- Frame text and heartbeats of the event stream; a socket that waits may resume at any time.
- `progressAllowance` and bucket widths: single expressions.
- Authentication, layer arbitration, pricing catalogue, routing targets and the dashboard.
