# Goque, modelled and proved

Goque is a job queue for Go. A client stores jobs in a backend, claims due ones queue by queue, runs a
worker on each, and writes the outcome back. This project models its storage state machine, the Postgres
finalizer that replaces a loop by one statement, the executor and the completer that batches outcomes, the
dispatcher with its weighted round-robin and its caps, the start and stop protocol, and the synchronous
engine with the fake built on it; and it proves what these promise over all inputs and over all runs.

`dafny verify dfyconfig.toml` checks everything.

## How the model is laid out

| files | what they model |
|---|---|
| `Instants`, `Rows`, `Options` | int64 instants and durations with explicit wrap-around, rows, operations, the library's record inside a job's metadata |
| `Store` | what each backend operation does to the stored jobs, as functions and relations on values |
| `Sorting`, `MemoryBackend` | the in-memory backend: a class with `nextID` and the map of rows, its loops proved against `Store` |
| `SqlFinalizer` | the one-statement finalizer as a relation between tables, and its equality with the loop |
| `Executor`, `Flushing`, `Completer` | outcomes, regrouping by kind, and the completer as a class over the backend |
| `Runs`, `Guarantees`, `Overtaking` | arbitrary interleavings of all clients' steps, and what holds of every one of them |
| `Histories`, `Promises`, `Outcomes` | a stored row told from what happened to it; when jobs are run, rescued, kept and asked to stop; what becomes of what workers return |
| `Deployment` | the backend in use, each call a step of such a run |
| `Spoilt` | runs on which an unstorable instant does harm |
| `Credits`, `Dispatching`, `Fairness`, `Entitlements`, `Quotas`, `Saturation`, `Dispatcher` | the share arithmetic, one pass as a function, successive passes and their shares under a steady and under any demand, what one pass asks for, repeated quiet passes, and the dispatcher as a class whose counters other goroutines lower |
| `Drain` | Start, Stop and Fake as interleaved steps of goroutines |
| `Passes`, `Traces`, `Process`, `FakeClient` | synchronous passes, their histories, and rounds of passes |
| `Retry` | the exponential backoff curve |

Three devices recur. A method of the source that changes state is a method here, and its contract equates the
new state with a function of the old one; the theorems are about that function. Where the source leaves a
choice to the scheduler, to a map's iteration order or to the network, the method chooses with `*` or takes
the choice as an argument, and the contract holds for every choice. And a theorem about whole runs is an
invariant of a step relation, proved step by step.

Where the code and its comments differ, the model follows the code:

- A pass reports a job as retried or snoozed even when the backend refused the operation because its instant
  is not storable. `Passes.ReportsAreTrueOfStorableInstants` says exactly when the report is true, and
  `Spoilt.ReportsCanBeFalse` shows a run on which it is false.
- One unstorable instant makes a whole batch of retries (or snoozes) fail, so a flush can lose operations that
  would have succeeded one by one. `Flushing.FlushEqualsOneByOne` says exactly when it does, and
  `Spoilt.GroupingCanLose` shows a run on which it does.
- An execution that has lost its job can still get a call refused that would have settled somebody else's:
  `Guarantees.SupersededIsHarmless` says exactly when, and `Spoilt.SupersededCanSpoil` shows a run.
- The budget of a pass is looked at after each fetched batch, so a queue entry can run up to one batch more
  than the ten thousand jobs the comment names (`process.go:105-107`).
- Cancellation is looked at once per fetched batch, not between single jobs (`process.go:103-105`).
- `WithTimeout` with less than a millisecond sets no timeout, and the metadata document `null` passes the
  validation that asks for an object and then panics (`Options.TimeoutsInWholeMilliseconds`,
  `Options.BuiltRows`).
- The exponential curve is not capped for every base and cap: `Retry.CappedExactlyWhenSafe` says for which it
  is, and `Retry.UnsafeTurnsNegative` what happens to the others.

## Model

| member | source | states |
|---|---|---|
| `Instants.Wrap64` | backend/time.go:39 | the two's complement result of an int64 subtraction: congruent to the true one modulo 2^64, and equal to it when that fits |
| `Instants.SubDuration` | backend/time.go:34-44 | fails exactly when the instant or the true difference is not storable, minimum duration included; otherwise yields the true difference |
| `Instants.SubDurationClamped` | backend/time.go:53-69 | is the mathematical clamp of the difference that starts from the clamped instant |
| `Instants.ClampedDifference` | backend/postgres/finalize.go:30-32 | the clamped difference is monotone in the instant, antitone in the boost, storable, equal to the SQL clamp, and equal to the checked difference where that succeeds |
| `Retry.ExponentialDelay` | retry.go:37-54 | the loop computes the curve; where no doubling can overflow, a base of at least one doubles at most 62 times however large the attempt |
| `Retry.CurveIsCappedPower` | retry.go:37-54 | where no doubling can overflow, the delay is min(Max, Base * 2^(attempt-1)) |
| `Retry.SafeInRange` | retry.go:24-36 | bases below 2^62 with caps up to 2^62 are such curves |
| `Retry.CappedExactlyWhenSafe` | retry.go:37-54 | for every non-negative base and every cap: the documented curve at all attempts iff the base is below 2^62 and the cap is at most the first doubling of the base that reaches 2^62 |
| `Retry.UnsafeTurnsNegative` | retry.go:37-54 | every other curve has an attempt with a negative delay |
| `Retry.CurveNeverFalls` | retry.go:37-54 | a safe curve never waits less at a later attempt, and never more than the cap |
| `Retry.BeyondTheRangeDelaysTurnNegative` | retry.go:37-54 | two inputs beyond the range, and the negative delays they give |
| `Retry.PeakIsLeast` | retry.go:40 | no doubling of the base reaches 2^62 before the one the condition names |
| `Retry.UncappedCurveWraps` | retry.go:37-54 | without a cap the curve is the power of two modulo 2^64 |
| `Retry.CurveInFull` | retry.go:37-54 | the delay for every base, cap and attempt: the wrapped doublings until one reaches the cap, which then stays; never above the cap; without a cap just the wrapped doublings |
| `Retry.Exact` | retry.go:39-45 | after n rounds of the loop the variable is the capped power of two |
| `Retry.Reaches` | retry.go:39-45 | a positive base has reached its cap after 62 doublings |
| `Retry.Sticks` | retry.go:41-44 | once the cap is reached, further rounds would not change the result of leaving the loop there |
| `Options.EncodedDecodes` | options.go:190-207 | what is written under the reserved key is read back, and every other member is untouched |
| `Options.TimeoutsInWholeMilliseconds` | options.go:209-221 | a timeout reaches the executor unchanged iff it is a whole number of milliseconds; it is lost iff it is shorter than one |
| `Options.BumpingCommutes` | options.go:223-227 | bumping the document is bumping the record that the other proofs use |
| `Options.SnoozesAddUp` | options.go:223-227 | n bumps add n and change nothing else in the document, however often repeated |
| `Options.BuiltRows` | options.go:229-273 | a row is built iff delay and schedule do not conflict, arguments and retry policy encode, and the metadata is absent or an object; it then starts with zero counters and an empty history, carries what its caller asked for and the snoozes its caller wrote, and is scheduled for now plus the delay, for the time asked for, or for now |
| `Rows.BumpSnoozes` | options.go:223-227 | the snooze count goes up by one, whether or not there was any metadata |
| `MemoryBackend.Backend.constructor` | backend/memory/memory.go:32-34 | a new backend holds no job and has assigned no id |
| `MemoryBackend.Backend.Enqueue` | backend/memory/memory.go:52-83 | stores the whole batch under the next ids, or nothing when any row's priority is unstorable; the caller gets back the rows as stored |
| `Promises.RowsRefused` | backend/memory/memory.go:55-66 | a batch is refused iff the time a row is scheduled for, its own or else the clock, or that time less its boost, is no 64-bit count of nanoseconds |
| `MemoryBackend.Backend.Priorities` | backend/memory/memory.go:55-66 | every priority is worked out before anything is stored; one failure refuses the batch |
| `MemoryBackend.Backend.Assigned` | backend/memory/memory.go:68-79 | the five fields the backend assigns, and no others, change |
| `MemoryBackend.Backend.Fetch` | backend/memory/memory.go:88-117 | claims the first of the due available jobs of one queue in claim order, as many as the limit allows, raises Attempt and Generation of each, and touches nothing else |
| `MemoryBackend.Backend.ListCandidates` | backend/memory/memory.go:91-96 | lists exactly the claimable rows, each once, whatever the map's order |
| `MemoryBackend.InClaimOrder` | backend/memory/memory.go:97-102 | sorting loses no candidate, repeats none and leaves no tie |
| `MemoryBackend.Backend.ClaimEach` | backend/memory/memory.go:106-115 | the stored rows and the copies handed out are claimed alike |
| `MemoryBackend.FirstInOrder` | backend/memory/memory.go:97-115 | claiming a prefix of the sorted candidates is what a fetch may answer |
| `Store.Settle` | backend/memory/memory.go:146-240 | a settled row no longer runs, and the fields that no finalizer writes are as they were |
| `MemoryBackend.Backend.Finalize` | backend/memory/memory.go:119-136 | the loop leaves the jobs that replaying the batch entry by entry leaves, and reports exactly the entries that found nothing to settle, in order |
| `MemoryBackend.Backend.Complete` | backend/memory/memory.go:146-158 | new jobs and error of a batch of completions |
| `MemoryBackend.Backend.Retry` | backend/memory/memory.go:163-183 | one unstorable instant refuses the whole batch untouched; otherwise every live entry is rescheduled |
| `MemoryBackend.Backend.Cancel` | backend/memory/memory.go:187-201 | new jobs and error of a batch of cancellations; an empty reason leaves no history entry |
| `MemoryBackend.Backend.Kill` | backend/memory/memory.go:205-218 | new jobs and error of a batch of kills |
| `MemoryBackend.Backend.Snooze` | backend/memory/memory.go:222-240 | one unstorable instant refuses the whole batch untouched; otherwise every live entry is rescheduled and its attempt given back |
| `MemoryBackend.Backend.Heartbeat` | backend/memory/memory.go:244-259 | renews exactly the rows whose presented generation runs, and names those asked to stop, in order |
| `MemoryBackend.Backend.MoveDue` | backend/memory/memory.go:263-277 | makes min(limit, number due) due jobs available, any of them, and changes nothing else |
| `MemoryBackend.MoveLoop` | backend/memory/memory.go:266-275 | the bounded scan in arbitrary order picks that many due rows |
| `MemoryBackend.Backend.RescueStale` | backend/memory/memory.go:281-298 | returns min(limit, number abandoned) rows to retryable at the clock, keeping Attempt and Generation |
| `MemoryBackend.RescueLoop` | backend/memory/memory.go:284-296 | the bounded scan in arbitrary order rescues that many abandoned rows |
| `MemoryBackend.Backend.SetCancelRequested` | backend/memory/memory.go:304-310 | flags the row if there is one, and nothing else |
| `MemoryBackend.Backend.Clean` | backend/memory/memory.go:328-351 | removes min(limit, number expired) finished rows past their retention, and nothing else |
| `MemoryBackend.PastRetention` | backend/memory/memory.go:331-346 | a state without a retention is not cleaned; a finished job is once it was finished before the clock less its retention |
| `MemoryBackend.CleanLoop` | backend/memory/memory.go:331-349 | the bounded scan in arbitrary order removes that many expired rows |
| `MemoryBackend.Backend.Reset` | backend/memory/memory.go:370-374 | removes every job and keeps the id counter |
| `Store.FirstLiveEntryWins` | backend/memory/memory.go:119-136 | a batch settles a row with the first entry that presents its live token, and leaves every other row alone |
| `Store.StaleAreTheLosers` | backend/memory/memory.go:119-136 | exactly the entries that are not first with a live token are reported stale, in batch order |
| `Store.BatchUsesUpItsTokens` | backend/memory/memory.go:119-136 | no token presented by a batch is live after it |
| `Store.BatchRevivesNothing` | backend/memory/memory.go:119-136 | a batch makes no token live |
| `Store.SupersededBatchIsHarmless` | backend/memory/memory.go:119-136 | a batch of superseded tokens changes nothing |
| `Store.SupersededEntriesDropOut` | backend/memory/memory.go:119-136 | a batch leaves the same jobs without the entries of a superseded execution |
| `Store.SupersededEntriesSpoilNothingElse` | backend/memory/memory.go:163-171 | a whole call leaves the same jobs without the entries of a superseded execution, iff they do not carry the only unstorable instant beside something live |
| `Store.ReplayIsHarmless` | completer.go:214-237 | repeating a call, at any later clock, changes nothing |
| `Store.OrderIsIrrelevant` | completer.go:158-191 | with one operation per token the outcome of a batch does not depend on its order |
| `Promises.BatchesAnswered` | backend/memory/memory.go:119-240 | a finalization is refused whole iff a retry or snooze of it carries an instant that is no 64-bit count; otherwise it answers with the entries that settled nothing |
| `Promises.ClaimedByTheClock` | backend/memory/memory.go:88-117 | a fetch claims available jobs of its queue scheduled for now or earlier and no others, all of them when the limit leaves room, and changes their state, counters, claim and sign of life only |
| `Promises.PromotedByTheClock` | backend/memory/memory.go:263-277 | a promotion makes scheduled and retryable jobs available whose time has come, all of them when the limit leaves room, and changes nothing else |
| `Promises.RescuedByTheTTL` | backend/memory/memory.go:281-298 | a rescue takes running jobs whose last sign of life is older than the TTL and no others, all of them when the limit leaves room, and schedules them for now |
| `Promises.CleanedByRetention` | backend/memory/memory.go:328-351 | a cleaning removes jobs finished longer ago than jobs in their state are kept and no others, all of them when the limit leaves room |
| `Promises.AnswersInOrder` | backend/memory/memory.go:244-259 | the answer to a heartbeat follows the order of its entries |
| `Promises.AnswersOne` | backend/memory/memory.go:244-259 | and names one iff the job runs under its generation and was asked to stop |
| `Promises.TheZeroTime` | backend/memory/memory.go:71 | the zero time is midnight of 1 January of year 1, counted in leap and other days |
| `SqlFinalizer.SetClauseIsSettle` | backend/postgres/finalize.go:34-53 | each SET clause writes what the loop body writes, given a storable instant |
| `SqlFinalizer.JoinedRow` | backend/postgres/finalize.go:17-24 | a row that a winning entry joins ends as the loop leaves it |
| `SqlFinalizer.UnjoinedRow` | backend/postgres/finalize.go:17-24 | a row that no winning entry joins is left alone by the loop too |
| `SqlFinalizer.EveryOutcomeIsTheLoops` | backend/postgres/finalize.go:11-28 | every outcome SQL allows the statement is the one of the in-memory loop |
| `SqlFinalizer.TheLoopIsAnOutcome` | backend/postgres/finalize.go:11-28 | the loop's outcome is one SQL allows |
| `SqlFinalizer.StatementIsTheLoop` | backend/postgres/finalize.go:11-28 | for every batch, duplicates and mixed generations included, a table is an outcome of the statement iff it is the loop's |
| `SqlFinalizer.Ordinals` | backend/postgres/finalize.go:17-26 | the returned ordinals are those of the entries that won and joined |
| `SqlFinalizer.RunFinalize` | backend/postgres/finalize.go:156-192 | the same stale ids in the same order as the in-memory backend, from ordinals returned in any order |
| `SqlFinalizer.Finalize` | backend/postgres/finalize.go:55-154 | any of the five operations has the in-memory backend's rows and error, unstorable instants included |
| `Executor.ConclusionsAreHonest` | executor.go:72-135 | every outcome becomes an operation under the execution's own token, recording its own attempt, retrying only within the budget, killing only beyond it, counting a snooze iff it snoozes |
| `Executor.ConclusionsByPrecedence` | executor.go:93-132 | the operation is the one that the worker's outcome calls for: cancel beats snooze beats retry-at beats the backoff, the last attempt of the budget kills; the instants, texts, stack and metadata are those of the error that won and of the worker's copy |
| `Executor.EndsOneWay` | executor.go:93-132 | and there is only one such operation |
| `Runs.RowEvent` | backend/memory/memory.go:52-374 | every step of every client changes a row that outlives it by one of seven events, and settles only a running row by its own execution's operation |
| `Runs.FinalizeEvent` | backend/memory/memory.go:119-136 | a finalization settles a row with an operation that its execution ended with, or leaves it |
| `Runs.IssuedIsFresh` | backend/memory/memory.go:106-115 | a claim's tokens were never issued before, and are live after it |
| `Runs.EventKeepsRow` | backend/memory/memory.go:106-298 | every event keeps a row's counters, history and finalization mark consistent |
| `Runs.StepKeepsWorld` | backend/memory/memory.go:52-374 | the invariant of the whole system is kept by every step |
| `Runs.RunKeepsWorld` | backend/memory/memory.go:52-374 | it holds in every state of every run |
| `Histories.HappenedSo` | backend/memory/memory.go:52-374 | what a step does to a job can be read off the step: for a finalization it is the first entry under the running token, if the call is not refused |
| `Histories.OneMoreEvent` | backend/memory/memory.go:52-298 | one more event keeps a row the summary of its history |
| `Histories.RowIsItsHistory` | backend/memory/memory.go:52-374 | in every state of every run each stored row is told by its history: scheduled for what it was last enqueued, retried, snoozed or rescued for, ranked by that less its boost, claimed by the clients that fetched it in that order, last seen at its last claim or heartbeat, with the failures and the metadata its executions brought, finished when its last execution finished it, and in the state of its last event |
| `Promises.NotBeforeItsTime` | backend/memory/memory.go:88-117 | a waiting job is promoted and claimed only by a clock that has reached the instant it waits for |
| `Promises.BackoffIsWaitedFor` | backend/memory/memory.go:163-240 | a job retried or snoozed until an instant is next promoted, and next claimed, when that instant has come |
| `Promises.DelayIsWaitedFor` | backend/memory/memory.go:68-79 | a job enqueued for an instant, or else for the time of its enqueue, is first promoted, and first claimed, when it has come |
| `Promises.ClaimedInTurn` | backend/memory/memory.go:97-115 | whoever is claimed, every claimable job of the queue that is scheduled, less its boost, for earlier, or as early with a smaller id, is claimed by the same fetch and before it |
| `Promises.LeaseHolds` | backend/memory/memory.go:281-298 | an execution that showed a sign of life at h keeps its job through every rescue whose clock is at most its TTL later, until it is finalized or everything is wiped |
| `Promises.SignsOfLife` | backend/memory/memory.go:106-115 | a claim and a heartbeat are signs of life at their clocks |
| `Promises.StopRequestsArrive` | backend/memory/memory.go:244-310 | a job that was asked to stop is named in the answer to every later heartbeat of whoever runs it |
| `Promises.KeptForItsRetention` | backend/memory/memory.go:328-351 | a job that disappears without a wipe had been finished for longer than jobs that ended like it are kept |
| `Outcomes.OperationsHaveAnEnd` | executor.go:72-135 | every operation that may be delivered is the one that some execution's outcome called for when it ended |
| `Outcomes.ExecutionsHaveAClaim` | backend/memory/memory.go:106-115 | and every execution was handed the row that a fetch claimed |
| `Outcomes.JobsBecomeWhatWorkersReturn` | executor.go:72-135 | however an outcome travels and whenever it arrives, a row it settles becomes what the worker of that row's own claim returned: its state, schedule, attempt, history with text and stack, and the user's metadata |
| `Deployment.Deployment.Enqueue` | backend/memory/memory.go:52-83 | a call to Enqueue is a step of a run, or refused |
| `Deployment.Deployment.Fetch` | backend/memory/memory.go:88-117 | a call to Fetch is a step of a run, and its executions are on record |
| `Deployment.Deployment.Conclude` | executor.go:72-135 | the end of an execution is a step, and its operation is on record |
| `Deployment.Deployment.Finalize` | backend/memory/memory.go:119-240 | a call with recorded operations, as late and as often as may be, is a step |
| `Deployment.Deployment.Heartbeat` | backend/memory/memory.go:244-259 | a call to Heartbeat is a step |
| `Deployment.Deployment.MoveDue` | backend/memory/memory.go:263-277 | a call to MoveDue is a step |
| `Deployment.Deployment.RescueStale` | backend/memory/memory.go:281-298 | a call to RescueStale is a step |
| `Deployment.Deployment.Clean` | backend/memory/memory.go:328-351 | a call to Clean is a step |
| `Deployment.Deployment.SetCancelRequested` | backend/memory/memory.go:304-310 | a call to SetCancelRequested is a step |
| `Deployment.Deployment.Reset` | backend/memory/memory.go:370-374 | a call to Reset is a step; so whatever is made of a backend is a run, and all of the above holds of it |
| `Guarantees.SupersededForever` | backend/memory/memory.go:119-136 | once an execution is finalized, rescued, cleaned away or wiped, its token is never live again |
| `Guarantees.SupersededIsHarmless` | backend/memory/memory.go:119-259 | from then on a finalization or heartbeat call leaves the jobs it would leave without that token's entries, unless those entries carry the only unstorable instant beside something live; exactly then the call is refused and leaves everything as it was |
| `Guarantees.TakesEffectOnce` | completer.go:214-237 | however often an outcome is delivered, it takes effect at most once |
| `Guarantees.TokensAreIssuedOnce` | backend/memory/memory.go:88-117 | no two claims of a run hand out the same token |
| `Guarantees.CountersAreConserved` | backend/memory/memory.go:107-113 | in every reachable state Generation is the length of AttemptedBy and is Attempt plus the snoozes recorded since enqueue; Attempt is never negative, and at least one while running |
| `Guarantees.HistoryIsBounded` | executor.go:106-132 | in every reachable state, rescues included, recorded attempts strictly increase, every entry is below MaxAttempts but the last one of a dead or cancelled job when it records the attempt that ended it, and there are at most max(1, MaxAttempts) of them, fewer than MaxAttempts on an unfinished job that has any |
| `Guarantees.LifecycleOnce` | backend/memory/memory.go:328-374 | a step removes a job only by cleaning it when finished and past its retention or by wiping everything, and changes a finished job only by flagging it |
| `Guarantees.TerminalIsForever` | backend/memory/memory.go:119-136 | a finished job stays as it is, but for a cancellation request |
| `Guarantees.IdsAreNeverReused` | backend/memory/memory.go:67-80 | an id that was assigned and is gone never names a job again |
| `Guarantees.NothingIsLost` | backend/memory/memory.go:52-374 | every id ever assigned is stored, or a step of the run removed its job by cleaning or wiping |
| `Guarantees.FinalizedMeansFinished` | backend/memory/memory.go:119-240 | FinalizedAt is set exactly on finished jobs |
| `Flushing.FlushEqualsOneByOne` | completer.go:142-191 | for buffers with one operation per token, grouping by kind leaves the jobs that sending the operations singly in push order leaves, iff no unstorable instant spoils a live operation of its own kind |
| `Flushing.FlushAppliesTheGroups` | completer.go:142-191 | five successful calls apply the five groups in the fixed order |
| `Flushing.OneByOneAppliesTheStorable` | completer.go:214-237 | single calls apply what is storable |
| `Flushing.GroupingIsFree` | completer.go:149-191 | regrouping alone changes nothing |
| `Flushing.GroupingLoses` | completer.go:149-191 | a spoilt group really loses something |
| `Flushing.BuffersAreFlushable` | executor.go:72-135 | in every reachable state, any buffer of executions' operations with storable instants is flushed as if sent one by one |
| `Flushing.FlushSettlesWithTheFirst` | completer.go:166-191 | of several outcomes of one execution in a buffer, a flush stores the completion if there is one, else the retry, cancellation, death or snooze, in this order, and among equals the one pushed first |
| `Spoilt.GroupingCanLose` | completer.go:142-191 | a reachable state and a buffer of two concluded operations, one of them a snooze past the storable range, whose flush leaves nothing of the other, while sending them singly writes it |
| `Spoilt.ReportsCanBeFalse` | process.go:50-78 | in that state the call for the unstorable snooze arrives and is refused: the result says snoozed, and the job runs on |
| `Spoilt.SupersededCanSpoil` | backend/memory/memory.go:222-240 | after a rescue, an operation whose token is dead keeps a live one of the same call from being written |
| `Completer.Split` | completer.go:147-165 | the five groups, each in buffer order |
| `Completer.GroupsPartition` | completer.go:149-165 | grouping neither loses nor repeats an operation |
| `Completer.Completer.constructor` | completer.go:53-67 | a new completer is open and empty |
| `Completer.Completer.Attempt` | completer.go:214-237 | one to six backend calls, as counted where they are made; six unless one was answered as done, stale entries or not, or the lifetime, which only Stop ends, was over, and one once it is; the first useful answer ends it; however many of them reached the store, it shows the batch once or not at all; success means that it was applied and storable |
| `Completer.Completer.Call` | completer.go:198-212 | a group that is not empty is sent once, under one clock; it is delivered, or given up, after six tries or when the lifetime is over, and then every operation of it is counted as dropped |
| `Completer.Completer.Flush` | completer.go:142-191 | every operation is sent with its kind under one clock; the store holds what the calls that arrived leave, in the fixed order; with nothing dropped that is a flush in which every call succeeded |
| `Completer.Completer.Push` | completer.go:73-90 | an operation that finds room goes to the end of the channel; otherwise it waits until the loop has taken one, or is refused and counted as dropped, and then the channel and the store are as they were |
| `Completer.Completer.Receive` | completer.go:114-129 | the oldest operation of the channel goes to the buffer; a full buffer is sent, and the store holds what those calls left |
| `Completer.Completer.Turn` | completer.go:113-138 | either branch of the select: what no longer waits in channel or buffer was sent, and the store holds exactly what the sent groups left there |
| `Completer.Completer.Tick` | completer.go:130-137 | the timer sends what is in the buffer, and leaves the channel alone |
| `Completer.Completer.Empty` | completer.go:113-129 | a closed channel is received from until it is empty |
| `Completer.DeliveredIsSpent` | completer.go:214-237 | of any sequence of sent groups, whichever calls of them arrived: the token of every delivered operation is dead in the store afterwards |
| `Completer.SentIsDeliveredOrGivenUp` | completer.go:207-212 | what was sent was delivered or given up, and nothing was both |
| `Completer.SendingsConcat` | completer.go:142-191 | groups sent one after the other add up: in the store, in what was delivered, in what was given up and in the number of calls |
| `Completer.Completer.Stop` | completer.go:92-106 | afterwards channel and buffer are empty, everything that waited was sent, the store holds exactly what those calls left there, and no delivered operation's token is live |
| `Completer.Completer.Close` | completer.go:92-99 | the channel is closed once, and only then does the time to drain begin to run |
| `Completer.Completer.Finish` | completer.go:113-129 | the loop returns when channel and buffer are empty |
| `Overtaking.NobodyCutsIn` | backend/time.go:46-69 | once everything new is scheduled after a waiting job's effective time plus the largest boost, no step puts another job ahead of it |
| `Overtaking.ClaimedOrCloser` | backend/memory/memory.go:88-117 | a fetch that could claim the job claims it, or claims somebody who was ahead of it |
| `Overtaking.ClaimsBringCloser` | backend/memory/memory.go:88-117 | so every such fetch strictly shrinks the set ahead |
| `Overtaking.OvertakingIsBounded` | backend/memory/memory.go:52-298 | over any stretch of a run, a waiting job is passed over at most as often as there were jobs ahead of it |
| `Overtaking.ChancesRunOut` | backend/memory/memory.go:88-117 | and the next fetch after that claims it |
| `Credits.Shares.PassConservesCredit` | dispatcher.go:139-150 | whatever the demand, a pass leaves the sum of the credits as it was |
| `Credits.Shares.LeaderIsUnique` | dispatcher.go:143-148 | the ranking has one first queue: the most credit, and among equals the first name |
| `Credits.Shares.CreditsSumToZero` | dispatcher.go:139-150 | under one fixed demand, credits that start at zero always sum to zero |
| `Credits.Shares.CreditIsEarnedMinusPaid` | dispatcher.go:140-149 | after k passes a queue holds k times its weight less the total weight times its wins |
| `Credits.Shares.CreditsAreBounded` | dispatcher.go:139-150 | with n queues of total weight W every credit stays between -(W-1) and (n-1)(W-1) |
| `Credits.Shares.FirstRoundIsExact` | dispatcher.go:139-150 | after W passes all credits are zero again |
| `Credits.Shares.Periodic` | dispatcher.go:139-150 | and the schedule repeats with period W |
| `Credits.Shares.SharesAreExact` | dispatcher.go:139-150 | in any W consecutive passes a queue is ranked first exactly as often as its weight, and never without demand |
| `Fairness.CreditsAlwaysSumToZero` | dispatcher.go:139-150 | credits that start at zero sum to zero after any passes, however the demand changes from one to the next |
| `Fairness.SteadyCredits` | dispatcher.go:139-150 | while the same queues have free slots, the credits of the dispatcher's passes are those of the share arithmetic |
| `Fairness.SharesOfPasses` | dispatcher.go:131-151 | and in any W consecutive such passes, W being the weight of the queues that want jobs, each of them is served first exactly as often as its weight, and no other at all |
| `Entitlements.OutsideTheLeader` | dispatcher.go:139-150 | a group of queues without the one that pays stays within its limit, because it stands between the group with one demanded member less and the group with the payer in it |
| `Entitlements.PassKeepsBalance` | dispatcher.go:139-150 | with n queues of weight W in all: if before a pass no k queues together held more than k(n-k)W, then so after it, whatever the demand |
| `Entitlements.CreditsStayBounded` | dispatcher.go:131-151 | after any passes, however the demand changes from one to the next, every credit is between -(n-1)W and (n-1)W |
| `Entitlements.EarnedLessPaid` | dispatcher.go:139-150 | a credit is the weight earned on the passes that found the queue with free slots, less the totals paid on those that served it first |
| `Entitlements.SharesUnderAnyDemand` | dispatcher.go:131-151 | so what a queue earned and what it paid since the start are never further apart than (n-1)W, under any demand |
| `Entitlements.NobodyStarves` | dispatcher.go:131-151 | whatever the other queues do, a queue that keeps free slots is served first again before it has earned more than 2(n-1)W waiting |
| `Fairness.RankedIsUnique` | dispatcher.go:143-148 | any ordered permutation of the demands is the ranking: no two demanded queues tie |
| `Dispatching.FirstServedIsTheLeader` | dispatcher.go:143-149 | the queue at the head of the sorted demands is the one the share theorem is about |
| `Dispatching.EarnedByDemands` | dispatcher.go:140-142 | crediting the demands one by one credits exactly the demanded queues, once |
| `Dispatching.RankedByEarned` | dispatcher.go:143-148 | sorting the demands by their updated credits is the ranking of the pass |
| `Dispatching.FirstRankedPays` | dispatcher.go:149 | charging the head of the ranking gives the credits after the pass |
| `Dispatching.PassLogByWeight` | dispatcher.go:151-181 | the fetches of a pass follow from the counters as read, the credits and the answers |
| `Dispatching.ServeStep` | dispatcher.go:151-181 | one turn of the fetch loop, and what the later turns do |
| `Quotas.VisitsOfAPass` | dispatcher.go:151-183 | a pass fetches from the queues of its ranking in order, each once, and leaves one out only when the room is gone |
| `Quotas.FetchInNumbers` | dispatcher.go:152-169 | with room for n jobs left, a queue of weight w among demanded queues of weight W is asked for k jobs with (k-1)W < nw <= kW, unless it has fewer slots; in strict mode for all there is room and slots for; and the room shrinks by what came |
| `Quotas.LimitIsTheShare` | dispatcher.go:152-156 | the rounded-up quota in numbers, without a division |
| `Quotas.TheNextIsAskedToo` | dispatcher.go:151-183 | so as long as what a queue has to leave by weight comes to one job, the next one is asked too |
| `Quotas.RankedInWords` | dispatcher.go:139-151 | whoever is served earlier holds more credit, its weight of this pass included, or as much and has the name that is earlier in the dictionary; in strict mode it stands earlier among the queues |
| `Saturation.LimitIsPositive` | dispatcher.go:152-156 | with a free slot and global room the ceiling quota asks for at least one job and for no more than either |
| `Saturation.ClaimedWithinBounds` | dispatcher.go:151-181 | a queue is asked at most once per pass, within its slots, its work and the global room |
| `Saturation.SomethingIsClaimed` | dispatcher.go:151-181 | a pass that meets a demanded queue with work claims something |
| `Saturation.RankedIsAServiceOrder` | dispatcher.go:131-151 | ranking loses no demanded queue and repeats none; strict priority keeps the queue order |
| `Saturation.PassMovesJobs` | dispatcher.go:122-184 | a quiet pass moves waiting jobs to running within both caps |
| `Saturation.PassFillsUp` | dispatcher.go:122-184 | a quiet pass claims at least one job unless nothing more can be claimed |
| `Saturation.SaturatedWithinMaxWorkers` | dispatcher.go:122-184 | within MaxWorkers quiet passes the pool is full or every queue is at its cap or out of work, and it stays so |
| `Saturation.StrictPriority` | dispatcher.go:139-156 | in strict mode a lighter queue claims only if the pass leaves every heavier one at its cap or out of work |
| `Dispatcher.Dispatcher.constructor` | dispatcher.go:68-74 | counters and credits start at zero, and no pass is on record |
| `Dispatcher.Dispatcher.Caps` | dispatcher.go:122-184 | in every state of every interleaving: jobs inside runJob per queue <= its counter <= Concurrency, in all <= the client's counter <= MaxWorkers, and that counter <= the sum of the queues' |
| `Dispatcher.Dispatcher.CreditsSumToZero` | dispatcher.go:122-184 | before and after every pass, the dispatcher's credits are those of the passes on record, and sum to zero |
| `Dispatcher.Dispatcher.CreditsStayBounded` | dispatcher.go:122-184 | and none of them leaves -(n-1)W to (n-1)W |
| `Dispatcher.Dispatcher.Interfere` | dispatcher.go:172-177 | any number of finishing jobs at any point keep the caps, and only lower the counters |
| `Dispatcher.Dispatcher.LowersGlobal` | dispatcher.go:175 | a returned job lowers the client's counter first |
| `Dispatcher.Dispatcher.LowersQueue` | dispatcher.go:174 | and its queue's counter next |
| `Dispatcher.Dispatcher.StartJob` | dispatcher.go:170-177 | a claimed job is counted on its queue and on the client before it runs, within both caps |
| `Dispatcher.Dispatcher.ReadDemands` | dispatcher.go:131-138 | the queues with free slots and their total weight, from one reading per counter; the slots found are those free at first and at most as many more as jobs took steps meanwhile, and they are still there afterwards |
| `Dispatcher.Dispatcher.Rank` | dispatcher.go:139-150 | credits and order are those of the share arithmetic |
| `Dispatcher.Dispatcher.Earn` | dispatcher.go:140-142 | every demanded queue earns its weight |
| `Dispatcher.Dispatcher.ServeOne` | dispatcher.go:157-178 | one fetch and the start of its jobs, within the caps while others finish |
| `Dispatcher.Dispatcher.ServeAll` | dispatcher.go:151-183 | the fetches are those of the pass, whatever the jobs do meanwhile |
| `Dispatcher.Dispatcher.DispatchOnce` | dispatcher.go:122-184 | a pass keeps the caps; its fetches and credits are functions of the counters as read, the credits and the answers; what it read is what was free at first and at most as much more as jobs finished; with no job finishing it is a quiet pass |
| `Dispatcher.QuietDispatchIsAPass` | dispatcher.go:122-184 | such a pass is one of those that fill the pool up |
| `Drain.StepKeepsOk` | dispatcher.go:42-322 | the invariant of the start and stop protocol is kept by every step of every goroutine |
| `Drain.RunKeepsOk` | dispatcher.go:42-322 | it holds in every state of every run |
| `Drain.NeverTwoAtOnce` | fake.go:68-114 | started, stopping and fake-driven are pairwise exclusive |
| `Drain.NoPushAfterClose` | completer.go:92-106 | no operation is pushed to a completer from the moment its channel is closed |
| `Drain.HeartbeatOutlivesJobs` | dispatcher.go:296-301 | while any claimed job is in flight, counted by the wait group or not yet, its session's heartbeat loop is alive and not cancelled |
| `Drain.OverMeansOver` | dispatcher.go:295-309 | when a session is over none of its loops and jobs is left, its channel is closed, and its completer's loop has returned |
| `Drain.SessionsDoNotOverlap` | dispatcher.go:42-67 | a session starts only when nothing of the earlier ones is left, their completers' loops included, and on a channel of its own |
| `Drain.DrainNeverSticks` | dispatcher.go:295-309 | while a client is stopping, some goroutine can always get further |
| `Drain.ProgressIsBounded` | dispatcher.go:295-309 | unless more is claimed, only boundedly many such steps are left, in any interleaving |
| `Drain.DrainEnds` | dispatcher.go:280-309 | so a stop always completes once the dispatchers claim nothing more, and then nothing of the session is left, its completer's loop included |
| `Passes.FetchClaimsOnce` | process.go:128-138 | within a pass a fetch claims no job that the pass has claimed before |
| `Passes.RunIsRecorded` | process.go:139-145 | what the store holds of a job that ran is its row as settled, or as claimed if the outcome was lost or refused |
| `Passes.ReportsAreTrueOfStorableInstants` | process.go:55-78 | the reported outcome names the stored state iff the call reached the store and its instant was storable |
| `Passes.ReportedErrorsAreRecorded` | process.go:55-78 | the reported error text is that of the one entry the call added to the job's history, and no text is reported when none was added |
| `Passes.FlushOfOne` | process.go:50-53 | flushing one operation is one call |
| `Passes.FetchTouches` | process.go:132 | in a quiet pass a fetch finds what was claimable when the drains began |
| `Passes.RunTouches` | process.go:140 | and an execution spends the attempt of the row it settles |
| `Passes.NothingBecomesClaimable` | process.go:115-151 | a quiet pass makes no job claimable |
| `Passes.PassSpends` | process.go:108-152 | a job that runs in a quiet pass can run once less afterwards, and every job that still can did run |
| `Passes.OneMoreRound` | fake.go:222-234 | a round adds to a job's executions what it takes from the runs it has left |
| `Passes.RunsLeftInNumbers` | fake.go:212-234 | the runs left of a row, in its fields: none iff it does not wait in these queues for a time that has come, else what is left of its budget, but one at least |
| `Traces.ClaimsAreCounted` | process.go:108-152 | every claim that the history of a pass shows, and nothing else in it, raises the generation of its job by one |
| `Traces.EmptyFetch` | process.go:132-138 | wherever the history of a pass shows a fetch that came back empty, nothing of its queue was claimable in the store just then, and the fetch changed nothing |
| `Traces.SectionEmptied` | process.go:126-150 | one more queue entry that ends so extends the course of the pass by the runs since the entry before it ended |
| `Traces.StaysGapless` | process.go:108-152 | a history stays gapless when an event follows that is possible in the store and at the clock where it ends |
| `Process.SyncFinalizer.Push` | process.go:50-53 | the outcome is written at once, or lost, and remembered |
| `Process.SyncFinalizer.Take` | process.go:55-78 | the remembered outcome becomes a result once |
| `Process.Engine.RunJob` | executor.go:72-135 | one execution settles its own row at most, under its own token, by the operation that its worker's outcome calls for, at the clocks as read after it, while workers may enqueue |
| `Process.Engine.Outcome` | executor.go:92-132 | the operation is the one that what the worker returned calls for, at the clock read when it did |
| `Process.Engine.RunBatch` | process.go:139-145 | a fetched batch is run in order, one result per job, and the history records one write per job |
| `Process.Engine.Promote` | process.go:115-123 | batches of due jobs become available, each at a fresh reading of the clock, until one is not full or a thousand were; with a standing clock that is all of them, up to a million |
| `Process.Engine.Drain` | process.go:127-149 | one queue entry runs jobs of its queue only, at most the budget and one batch; without error its last event is a fetch, at the clock as just read, that came back empty, and nothing of the queue is claimable in the store it leaves |
| `Process.Engine.WorkQueues` | process.go:126-150 | the queue entries are worked one after the other, and the history shows no promotion after the first claim |
| `Process.Engine.ProcessReady` | process.go:108-152 | the history of a pass leads without gap from the store it found to the store it leaves, every call at a clock just read: promotions first, until a batch is not full; then exactly what is claimed is run, each job at most once, and what is written and reported of it is what its worker returned; the runs fall into sections in the order of the queues, each within budget; without error each section ended with a fetch of its queue that came back empty, the last one at the end; a quiet pass over few enough jobs never fails and spends their runs |
| `FakeClient.Fake.constructor` | fake.go:82-98 | the tracked queues begin as the configured ones and those of the stored jobs |
| `FakeClient.Fake.Advance` | fake.go:128-137 | the clock never goes back; a negative duration fails the test and moves nothing |
| `FakeClient.Fake.SetNow` | fake.go:143-157 | the clock never goes back; an earlier instant fails the test and moves nothing |
| `FakeClient.Fake.TrackQueue` | fake.go:158-167 | one more queue is tracked, and none fewer |
| `FakeClient.Fake.TrackedQueues` | fake.go:169-178 | exactly the tracked queues, each once, sorted by name |
| `FakeClient.Fake.RunRound` | fake.go:236-247 | one pass over the tracked queues, reporting its executions in order under the round's number; an error fails the test |
| `FakeClient.Fake.RunReady` | fake.go:197-210 | the same as round 1 |
| `FakeClient.Fake.RunUntilIdle` | fake.go:222-234 | what is returned is what the histories of the rounds show, round after round, each from the store the one before left, the last one running nothing; a job's generation rises by the number of its executions; with a frozen clock, workers that neither enqueue nor snooze, and job counts within the budgets, each ready job runs at most max(1, MaxAttempts - Attempt) times, any maxRounds above the largest of these never fails, and in the end no job could run |

## Left out

- The Postgres drivers, schema, fetch, maintenance, migrations and advisory locks: database behaviour that is not visible in the source. Only the finalize statement is modelled, with exact instants (no truncation of clocks to microseconds).
- The dispatching of payloads to typed workers, the registry, middleware, logging and the error and panic handlers: a worker is an arbitrary outcome, and may rewrite the user's part of its metadata.
- Workers that rewrite the counters or the reserved record of the row they are handed, and enqueue middleware that edits the library's fields of a row: the proofs about runs start from rows as `Options.BuiltRows` describes them.
- Aliasing: rows are values, so that Enqueue fills in the caller's rows by pointer shows only as the returned `stored`, and that the backend clones slices does not show at all.
- Fields of a row that nothing here reads or writes: version, output, retry policy bytes, and the reserved ones.
- Integer widths other than those of instants and durations: ids, attempts, generations and credits do not wrap.
- `time.Time` beyond the storable range is one unbounded count of nanoseconds, so the saturation of Add and Sub in that far range is not modelled.
- Random jitter in retry delays and in the poll interval, real timers, call timeouts and backoff waits: when they end is arbitrary.
- Linear, Fixed, Intervals and Named curves, and the encoding of retry policies: one-line functions. Which curve a job has is not modelled, so the backoff of a retry is whatever comes with the outcome.
- Layering of client, kind and call options: easy members.
- The heartbeat loop's three-failures rule and its timing against the rescue TTL: it depends on real clocks. Self-fencing itself is an outcome that never arrives, which runs allow.
- What Stop returns when its own context ends first, and Start's refusal of a client without queues or workers: neither changes the state that the protocol is about.
- Completer.Completer.Attempt: shows one completer alone with the store, so that what its calls left is still there afterwards; calls of other clients in between are covered by the theorems about runs, which let any batch arrive any number of times.
- Dispatcher.Dispatcher.DispatchOnce: takes the backend's answers as arguments, one per queue, so what the fetches do to the store is not part of this contract.
- Process.Engine.RunJob: what a worker returns is a function of the row it is handed, given from outside; two executions are never handed the same row, so any course of outcomes is one such function. No other client uses the store during a pass, apart from enqueueing.
- Process.Engine.ProcessReady: the backend is the in-memory one, whose Fetch and MoveDue never fail; the early returns for a failing backend are not modelled, nor is the error for a client without workers.
- Runs.RunKeepsWorld: runs assume that the clock of an enqueue, a finalization and a rescue is storable, which the backend does not check; clocks are until the year 2262.
- That Attempt never exceeds MaxAttempts: it can, because a rescue does not look at the budget. The history bound is what holds.
- MemoryBackend.MoveLoop, MemoryBackend.RescueLoop and MemoryBackend.CleanLoop: the scans of the map are methods that take the map and return it, called by the methods of the class that store it.
- `slices.SortFunc`: sorting is a function that yields the ordered permutation, not the library's algorithm.
