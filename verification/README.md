# Flicker, verified

Flicker is a durable workflow engine: a workflow is re-executed from the top after every
suspension and retry, named steps that have a saved row are skipped, and everything that must
survive is kept in three SQLite tables. This project models the engine in Dafny and proves what
its design promises: that a replayed run means what one uninterrupted run means, that concurrent
runners cannot corrupt a record, that parallel branches are confluent, that events are settled
exactly once, that workflows end, and what its static contract extractor covers.

`dafny verify dfyconfig.toml` checks everything.

## How it is laid out

- `Prelude`, `Names`, `Timestamps`, `Backoff`: text order, step names, RFC 3339 stamps (section
  5.1 of RFC 3339) with their calendar, and the 64-bit backoff shift.
- `Database`, `StoreOps`: the three tables, each statement or transaction as one function, and
  what every write keeps. `Store` is the store itself, a class whose methods update the tables in
  place, each proved against its function.
- `Clocks`: listing, promoting and timing out told by the stored instants.
- `Workflow`: programs as trees of framework calls (`Step`, `Provide`, `Sleep`, `Wait`,
  `Parallel`), one execution of a program (`Exec`), and the phases of one call (`Perform`).
  `Calls` says case by case what a call does and where the body goes on. `Trails` is the reference meaning, the trail a program's saved values lead along; `Replay`
  proves replay transparency against it, `Interleave` runs branches as interleaved threads and
  proves confluence. `Runtime` and `Executor` are the imperative counterpart: session,
  contexts, providers and the body run on them, proved equal to `Exec`.
- `Outcomes`, `FineMachine`: how an execution's end becomes one write, and the engine as a
  concurrent state machine in which every store call and lease call of any number of runners,
  promoters, senders and cancellers is a step of its own, and any call may fail. `FineSafety`,
  `FineLeases`, `FineCancel` hold its invariants; `FineRace` shows a delivery that is lost, and
  `FineEvents` exactly when none is.
- `Driver`: the engine with whole executions, promotions, timeouts and deliveries atomic, as
  RunOnce, Promote, TimeOutSubscriptions and SendEvent make them. `DriverEvents` and
  `Termination` (with `Advance` and `Charges`) hold its theorems, `Waiting` what lasts until its
  time; `FineDriver` proves every run of it a run of the concurrent machine. `Leases`, `Runners`
  and `Engines` are the runner and the engine in place, proved against it.
- `TypeShapes`, `StaticSteps`, `StaticCoverage`: the contract extractor.

## What is assumed

- JSON encoding is an abstract codec; where it matters, what is encoded is decoded to the same
  value. A value whose continuation is missing makes the body panic, which counts as one more
  transient error.
- A body is deterministic: a function of the workflow's id, its payload and the replies of its
  calls, from any of which it may make its correlation keys. It passes the errors of its calls
  straight up, except a wait's timeout.
- Step names are unique, as context.go:64-74 asks. The event and replay theorems need less: that
  parallel branches that ask for one name ask for it alike (`Trails.Agreeing`), which bodies
  without Parallel, and branches with distinct slash-free names, always do.
- The clock, the signal, store failures inside calls, step functions and the times a body asks to
  sleep until come from outside, by the name of the call.
- In `Termination`, step functions do not themselves ask to suspend, and the clock does not go back.
- Times are UTC nanoseconds since Go's zero time; stored times are text and are compared as text.

## What turned out otherwise

- Stored times are compared as text whose fraction is trimmed, so two times within one second can
  compare the wrong way round (`Timestamps.TextOrderCounterexample`); `TextOrderExactly` says
  exactly when. A promotion can therefore come up to a second early.
- The backoff shift wraps around at 64 bits and can then be negative
  (`Backoff.OverflowCounterexample`); `Backoff.DelayDoublesExactly` says when a policy never
  notices.
- A delivery that falls between a wait's lookup and the insert of its subscription is lost
  (`FineRace.DeliveryCanBeLost`). With interleaved calls every wait keeps exactly one outcome if
  and only if no subscription is inserted for a step that has a row or a subscription by then
  (`FineEvents.OneOutcomeExactly`); with whole executions atomic that never happens
  (`DriverEvents.OneEventOutcome`).
- The shape of a type can name one generic type twice down a path, as two instances of it
  (`TypeShapes.InstancesRepeatAName`); by identity no type is expanded twice
  (`TypeShapes.ExpandedOnce`).
- A step named by a raw string literal is extracted with its backquotes and so not covered
  (`StaticCoverage.RawLiteralIsMissed`); names with escapes likewise (`StaticSteps.NameIsFaithful`).

## Model

| member | source | states |
|---|---|---|
| Names.StepNameReadBack | context.go:54-60 | the scope path and the step name can be read back from the joined name, when path parts are non-empty and no part or name holds a slash |
| Names.StepNameInjective | context.go:54-60 | so two such steps share a stored name only if they are the same step of the same scope |
| Names.CounterNameInjective | provider.go:36-54 | `prefix:n` determines prefix and n, whatever the prefix holds |
| Names.CountersNeverCollide | context.go:83-91 | sleeps and values of slash-free provider prefixes share a stored name only with the same scope, prefix and count |
| Names.SiblingsDisjoint | context.go:105-136 | a name under one branch's scope is never under a sibling's |
| Timestamps.FieldsDenoteSeconds | sqlite/sqlite.go:704-710 | the calendar fields printed for an instant denote that instant again (proleptic Gregorian, leap years included) |
| Timestamps.StampReadsBack | sqlite/sqlite.go:661-710 | scanWorkflow reads back exactly the instant formatTime wrote, for every year 0000-9999 and for the zero time |
| Timestamps.CalendarExactly | sqlite/sqlite.go:661-702 | the scan takes a year, month, day, hour, minute and second if and only if they are the fields of the instant they denote |
| Timestamps.TextOrderExactly | sqlite/sqlite.go:262-313 | a stored `<=` test agrees with the instants if and only if the pair is not shadowed: in one second, with the earlier's trimmed fraction a proper prefix of the later's |
| Timestamps.TextOrderSound | sqlite/sqlite.go:262-313 | in particular for instants in different seconds or with equally many fraction digits |
| Timestamps.TextOrderCounterexample | sqlite/sqlite.go:704-710 | a concrete pair half a second apart whose texts sort the wrong way round |
| Backoff.ComputeDelay | runner.go:150-153 | the delay resolveOutcome assigns is the 64-bit shift capped at MaxDelay, and never above MaxDelay |
| Backoff.DelayDoubles | runner.go:150-153 | without overflow the delay is min(BaseDelay * 2^attempts, MaxDelay) |
| Backoff.DelayDoublesExactly | runner.go:150-153 | and for a policy's own MaxDelay it is so if and only if BaseDelay * 2^attempts fits 63 bits or the wrapped shift is at or above MaxDelay as well |
| Backoff.EveryDelayDoublesExactly | runner.go:150-153 | so it is so under every cap if and only if BaseDelay * 2^attempts fits 63 bits |
| Backoff.DelayGrows | runner.go:150-153 | within that range the delay does not shrink as attempts grow |
| Backoff.RunDelayBounded | runner.go:141-156 | without overflow the delays of a whole run sum to at most min(BaseDelay * (2^(MaxAttempts-1) - 1), (MaxAttempts-1) * MaxDelay) |
| Backoff.OverflowCounterexample | runner.go:150-153 | a policy whose shift wraps to a negative delay |
| Database.TimeOutOneMore | sqlite/sqlite.go:553-592 | one more turn of the timeout loop is the set-level update with one more subscription |
| Database.TimeOutEach | sqlite/sqlite.go:512-599 | settling expired subscriptions one by one, in any order, is the set-level update: each step gets the marker, each subscription goes, each suspended workflow wakes with one version bump |
| StoreOps.ApplyAdvances | sqlite/sqlite.go:178-282 | no store write changes a record's status, attempts or retry_after without raising its version, or lowers a version, or drops a record |
| StoreOps.VersionDetermines | sqlite/sqlite.go:178-282 | so over any run of writes a record's version determines its status, attempts and retry_after |
| StoreOps.SubscriptionsConserved | sqlite/sqlite.go:423-599 | over any run of writes, subscriptions saved are those still open plus delivered plus timed out |
| StoreOps.DeliveryWakes | sqlite/sqlite.go:494-510 | a delivery to a suspended workflow makes it schedulable at once, on the next version and otherwise unchanged; any other record is left alone |
| StoreOps.TimeoutWakes | sqlite/sqlite.go:578-592 | timing out wakes exactly the suspended workflows with an expired subscription, once each |
| StoreOps.CreatedRecord | sqlite/sqlite.go:132-165 | a new record is stored field by field as given, on version 1 with its creation time, under a free id only; nothing else changes |
| StoreOps.SignalledRecord | sqlite/sqlite.go:391-410 | a signal is the one field of the one record that changes; the version stays |
| Clocks.ScheduledExactly | sqlite/sqlite.go:284-292 | a record is schedulable if and only if it is pending and its retry_after is empty or the instant stored there has come, by the exact rule for the texts |
| Clocks.ScheduledFrom | sqlite/sqlite.go:284-292 | for an instant not shadowed by the clock's: if and only if it is pending and the instant is at most now |
| Clocks.ListedExactly | sqlite/sqlite.go:284-313 | a list holds only records whose turn has come, each once, ordered by creation; without a limit all of them, with one as many, and none left out that was created earlier |
| Clocks.PromotedExactly | sqlite/sqlite.go:262-282 | promoting wakes exactly the suspended records whose instant has come, field by field, and leaves every other record, row and subscription |
| Clocks.TimedOutExactly | sqlite/sqlite.go:512-599 | timing out removes exactly the subscriptions whose deadline has come; the others stay as they are, those without a deadline always |
| Clocks.TimedOutRows | sqlite/sqlite.go:560-577 | exactly the steps of those get the timeout marker, every other row stays |
| Clocks.TimedOutWorkflows | sqlite/sqlite.go:578-592 | exactly their workflows wake, if suspended; every other record stays |
| Clocks.GoneFrom | sqlite/sqlite.go:512-530 | for a deadline not shadowed by the clock's time: gone if and only if it is at most now |
| Clocks.WritesKeepStamps | sqlite/sqlite.go:704-710 | writers that stamp their times keep every time column empty or the text of an instant |
| Clocks.StampedScans | sqlite/sqlite.go:661-702 | a record whose times were stamped scans, one with a text that is no time does not |
| Store.SqliteStore.Create | sqlite/sqlite.go:132-165 | inserts with version 1 and created_at now, refuses a taken id |
| Store.SqliteStore.Get | sqlite/sqlite.go:167-176 | the stored row, or an error for a missing id or an unreadable time |
| Store.SqliteStore.UpdateStatus | sqlite/sqlite.go:178-195 | sets status and result on exactly the named version, conflict otherwise |
| Store.SqliteStore.SetError | sqlite/sqlite.go:197-214 | sets status and error on exactly the named version, conflict otherwise |
| Store.SqliteStore.SetRetry | sqlite/sqlite.go:216-237 | back to pending at the stamped time with one more attempt, on exactly the named version |
| Store.SqliteStore.Suspend | sqlite/sqlite.go:239-260 | suspended until the stamped time, on exactly the named version |
| Store.SqliteStore.PromoteSuspended | sqlite/sqlite.go:262-282 | wakes exactly the suspended rows whose non-empty retry_after text is at most now, and counts them |
| Store.SqliteStore.ListSchedulable | sqlite/sqlite.go:284-313 | the earliest-created schedulable records, each once, as many as the limit allows; it fails only when one of those has an unreadable time |
| Store.TakeEarliest | sqlite/sqlite.go:290-297 | ORDER BY created_at LIMIT: sorted, distinct, and nothing left out was created earlier |
| Store.SqliteStore.SaveStepResult | sqlite/sqlite.go:315-333 | insert or replace of one step row |
| Store.SqliteStore.GetStepResult | sqlite/sqlite.go:335-346 | the step's row, or not found |
| Store.SqliteStore.ListStepResults | sqlite/sqlite.go:348-375 | every row of the workflow exactly once |
| Store.SqliteStore.GetSignal | sqlite/sqlite.go:379-389 | the stored signal, or an error for a missing id |
| Store.SqliteStore.SetSignal | sqlite/sqlite.go:391-410 | sets the signal alone, without a version bump |
| Store.SqliteStore.SaveSubscription | sqlite/sqlite.go:423-441 | inserts with the stamped deadline, refuses a taken correlation key |
| Store.SqliteStore.ResumeSubscription | sqlite/sqlite.go:443-510 | payload row, subscription gone, suspended workflow woken, in one step; not found changes nothing |
| Store.SqliteStore.TimeOutSubscriptions | sqlite/sqlite.go:512-599 | the loop over the expired rows equals the set-level update, whatever order the query yields, and returns their number |
| Outcomes.AsWalksChain | runner.go:126-139 | errors.As over the Unwrap chain: a permanent failure, a suspension, a cancellation is found if and only if the chain holds one, and the first one counts |
| Outcomes.DecidedOnChain | runner.go:118-162 | the decision by what the chain holds: any cancellation, else the first permanent failure with its inner error's text, else the first suspension, else the retry budget |
| Outcomes.OutcomeRecorded | runner.go:118-162 | on a current record exactly the record written out for that case, read off the error's chain, and nothing else; on a stale one nothing |
| Replay.ExecGrows | run.go:37-122 | an execution only adds rows, subscriptions and calls, under names it is first to track; a called step had no row, a new subscription's step still has none |
| Trails.OneKey | context.go:146-194 | a wait without a row is asked for with one correlation key by the saved values, whatever the key is made from, unless parallel branches ask for its name differently |
| Trails.DistinctBranchesAgree | context.go:105-136 | which branches with distinct slash-free names never do |
| Trails.ClashingBranches | context.go:54-60 | two branches whose slashes make two step names one await it on two keys |
| Replay.ExecFollows | run.go:37-122 | what an execution tracks lies on the way its saved values lead, its subscriptions are for that way's waits under their keys, and its response is where that way ends |
| Replay.Rerun | run.go:37-75 | a finished execution run again on its rows, or on more, gives the same response, writes nothing and calls nothing |
| Replay.HistoryIsSound | runner.go:52-100 | along any history of executions, deliveries and timeouts every row stays as first written and lies on that way; an open wait has no row |
| Replay.ReplayMeansTrail | run.go:37-122 | a suspended, retried and replayed run that returns gives the response its saved values lead to, and exactly the rows of that way |
| Replay.ReplayIsUninterrupted | run.go:37-122 | and the same response and rows as one uninterrupted execution whose calls yield the saved values |
| Replay.RerunCallsNothing | run.go:37-75 | re-running on the final rows calls no step function, whatever the functions would now do |
| Replay.SavedNeverCalledAgain | run.go:37-75 | no later execution calls a step function whose value was saved |
| Replay.CancelledDoesNothing | run.go:26-35 | where calls see the cancel signal, an execution writes nothing, subscribes to nothing and calls no step function |
| Calls.SignalStops | run.go:26-35 | a set signal stops a call with the cancellation error before it reads, calls or writes anything |
| Calls.SavedIsReturned | run.go:37-75 | a saved row is handed back as its decoded value, the timeout or an error, without a call and without a write |
| Calls.MissingIsCalled | run.go:77-120 | without a row the step's function is called, its value saved and handed back, each with its errors |
| Calls.WaitSubscribes | context.go:158-172 | a wait without a row subscribes under its key with the deadline now + timeout and suspends until then; a taken key is an error and stores nothing |
| Calls.ValueGoesOn | run.go:60-120 | the body goes on with exactly the value a step or provider handed back, whatever it is |
| Calls.SleepGoesOn | context.go:83-99 | a sleep goes on if its saved time has come by the call's clock, and suspends until exactly that time if not |
| Calls.WaitGoesOn | context.go:174-194 | a wait goes on with its payload, or with the timeout |
| Calls.JoinGoesOn | parallel.go:40-104 | Parallel goes on with the values of all its branches in their order |
| Calls.StepIsDurable | run.go:37-122 | a step's value is what the body goes on with, both when it is computed and when a later execution finds its row |
| Calls.EventArrives | context.go:146-194 | a delivery, or a timeout, settled on a wait is what the next execution goes on with |
| Calls.TrailGoesOn | run.go:37-75 | the trail goes from a saved row to the continuation for exactly its decoded value or timeout |
| Runtime.Session.TrackStep | context.go:64-78 | a name seen before is refused, a new one recorded |
| Runtime.Session.ReadThrough | run.go:37-48 | the prefetched rows with the store behind them read as the store |
| Runtime.Session.Unmarshal | run.go:60-71 | a stored value, the timeout marker as its error, or any other stored error |
| Runtime.Session.Run | run.go:14-122 | track, signal, read-through, execute, write-through, in that order with every early exit: state and result are those of the specification, and no other workflow's rows change |
| Runtime.Provider.Get | provider.go:36-54 | counts up and runs the step named prefix:count |
| Runtime.WorkflowContext.Run | run.go:14-24 | runs the step under its resolved name |
| Runtime.WorkflowContext.SleepUntil | context.go:83-99 | the time is saved under the next sleep name; before it, the saved time suspends the workflow |
| Runtime.WorkflowContext.Child | context.go:105-136 | a child scope with the joined prefix and fresh counters, sharing the session |
| Runtime.WorkflowContext.WaitForEvent | context.go:146-194 | no row yet: subscribe until the deadline and suspend; a row: the payload or the timeout error |
| Runtime.WorkflowContext.Provide | providers.go:14-44 | time, ID and custom providers each count on their own |
| Executor.FoldErrors | parallel.go:72-101 | the loop over the branches' errors returns the specified join error |
| Executor.RunBranches | parallel.go:40-70 | each branch in a scope of its own, its error kept under its index |
| Executor.Execute | registry.go:64-87 | running a body on a context ends in exactly the state and outcome of the specified execution, and touches no other workflow's rows |
| Interleave.SchedulesConfluent | parallel.go:40-104 | for branches with distinct slash-free names and keys of their own, every interleaving that runs to the end leaves the rows, subscriptions, tracked names and result of running the branches in order |
| Interleave.WaitlessIsHomed | parallel.go:40-104 | bodies without waits need no more for that than distinct slash-free branch names |
| Interleave.SomeThreadMoves | parallel.go:45-70 | no such interleaving is stuck before all branches are done |
| Interleave.JoinErrorIs | parallel.go:72-104 | the join error is the lowest-index non-suspend error, else a suspend at the latest resume time, else none |
| FineSafety.OutcomesAreSafe | runner.go:118-162 | for any interleaving of runners with stale records, leases or not: versions determine status, attempts and retry_after; completed, failed and cancelled are never left; no version of a workflow has two committed outcomes |
| FineSafety.RetryBudgetHolds | runner.go:141-156 | attempts equals the committed retries and stays within max(MaxAttempts-1, 0) in every reachable state, although decided from snapshots |
| FineSafety.SuspendedHaveTimes | sqlite/sqlite.go:239-260 | if every suspension names a non-zero four-digit-year time, every reachable suspended record waits for one it can read, even when its event came before the suspension was committed |
| FineSafety.NoneStranded | sqlite/sqlite.go:262-282 | promoting then leaves nothing suspended if and only if the text test takes every stored time as reached |
| FineSafety.SecondPastIsReached | sqlite/sqlite.go:262-282 | which is so at any time a full second past all of them |
| FineLeases.SingleExecutor | runner.go:37-45 | with one lease store the lease set is exactly the ids being executed, one execution each, in every reachable state |
| FineLeases.WrittenOnce | run.go:37-122 | a plain step's row, once written, never changes, and its function is never called again, although the write is insert-or-replace |
| FineLeases.PrefetchInvisible | run.go:37-48 | reading through prefetched rows equals reading the store for every name if and only if the prefetched rows still stand |
| FineLeases.PlainReadsAreStoreReads | runner.go:52-63 | which holds for plain steps at every moment of every run |
| FineCancel.CancelIsSafe | runner.go:82-100 | once the cancel signal is set and left alone, at most one more outcome other than cancelled is committed, and only calls that had passed their signal check before it call a step function |
| FineRace.DeliveryCanBeLost | context.go:158-172 | with whole executions not atomic, a delivery between a wait's lookup and its insert is lost: a reachable state and three store calls that replace the delivered row by the timeout marker |
| FineEvents.OneOutcomeExactly | context.go:158-172 | for any runners, leases or not, and any interleaving: in every state of a run each wait has at most one live subscription, and none once it has its row, if and only if no subscription is inserted for a step that has a row or a live subscription |
| FineEvents.OutcomesAreFinal | sqlite/sqlite.go:443-599 | and then a wait's row never changes once written; with one lease store no row does |
| FineEvents.AtMostOneExactly | sqlite/sqlite.go:443-599 | that state is exactly the one in which no deliveries and timeouts to come can replace a row |
| Driver.RunOnceIsARun | engine.go:361-378 | every record of a RunOnce is still current when its turn comes, so the loop equals single executions in order |
| FineDriver.RecordIsRun | runner.go:31-116 | a whole execution with its outcome is, up to rows, a run of one runner of the concurrent machine: list, lease, prefetch, signal, every call of the body, outcome, release |
| FineDriver.DrivenIsARun | engine.go:322-378 | so every run of the driven engine in which nobody cancels mid-execution is a run of the concurrent machine, and what holds of all interleavings holds of it |
| FineDriver.OutcomeWaitsForCalls | parallel.go:66-70 | a body's outcome is reached exactly when none of its calls is under way |
| FineDriver.TakesInTurn | sqlite/sqlite.go:284-292 | a runner takes exactly the records that are pending and due by the text test |
| FineDriver.LeasedOrDropped | runner.go:31-45 | it drops out where the type is unknown or the shared lease is held, and holds the lease otherwise |
| DriverEvents.OneEventOutcome | context.go:146-194 | from an empty store, whatever the correlation keys are made from (the request, the workflow's id, saved values): a live subscription and a row for its step never coexist, a step has one subscription at most, rows are never replaced, and a wait once subscribed is ever after open or settled, not both |
| DriverEvents.LiveUntilSettled | sqlite/sqlite.go:443-599 | a subscription stays until the delivery on its key or its timeout, and that action writes the step's row as payload or marker |
| Waiting.RetryWaitsItsDelay | runner.go:141-156 | a transient failure with attempts left leaves the record pending with one more attempt, due its delay after the failure: a full second or more before that no list, RunOnce or promotion touches it, a full second after it is schedulable |
| Waiting.SuspensionLasts | runner.go:137-139 | a suspension leaves the record suspended until its time: a full second or more before it nothing lists or promotes it, a full second after it a promotion does |
| Waiting.WaitLastsItsTimeout | context.go:158-172 | every subscription an execution makes is until now + the timeout of a wait of the body under that key, and whatever follows short of its delivery it outlives every timeout cycle a full second or more before that |
| Waiting.WaitEnds | sqlite/sqlite.go:512-599 | and ends with the marker in a cycle a full second or more after it |
| Waiting.CancelledAtNextTurn | runner.go:82-100 | once the signal is set, the workflow's next turn leaves it cancelled and changes nothing else |
| DriverEvents.CompletedMeansTrail | registry.go:64-87 | a completed workflow's result is the marshalled response its saved values lead to, and its rows are exactly those of that way |
| Advance.SuspensionIsNew | context.go:83-99 | an execution of a sequential program whose saved sleeps are over suspends only by a sleep or a wait it saved just now |
| Charges.ExecutionIsCharged | runner.go:118-162 | each execution ends the workflow or is charged to a new step row, a new subscription or an attempt |
| Termination.Terminates | engine.go:322-378 | a workflow of at most n sequential durable operations is terminal after n + max(MaxAttempts, 1) rounds of Promote, TimeOutSubscriptions and a RunOnce that lists it anywhere among others, whose clocks reach its retry_after, whatever promotions in time, events, cancellations and other workflows come between |
| Leases.MemoryLeaseStore.Acquire | lease.go:35-45 | given exactly when nobody holds it |
| Leases.MemoryLeaseStore.Release | lease.go:47-53 | removes the lease, silently if there is none |
| Leases.MemoryLeaseStore.IsHeld | lease.go:55-61 | whether the lease is held |
| Runners.ChooseOutcome | runner.go:126-161 | the branch taken is the specified decision |
| Runners.ResolveOutcome | runner.go:118-162 | one write, committed exactly on the version the record was read at |
| Runners.Prefetch | runner.go:52-63 | the loop over the listed rows builds the map of the workflow's rows |
| Runners.LocalRunner.Run | runner.go:31-116 | lease, prefetch, signal check, execution and outcome, in that order, end in the specified tables; the lease is given back; a held lease or an unknown type changes nothing; it reports a record that is gone or has moved on |
| Engines.Engine.RunOnce | engine.go:361-378 | the earliest schedulable records nobody else executes are each run, whatever befalls the others; the first error is returned |
| Engines.Engine.Promote | engine.go:324-330 | one promotion cycle |
| Engines.Engine.TimeOutSubscriptions | engine.go:334-340 | one timeout cycle |
| Engines.Engine.SendEvent | engine.go:345-356 | delivers the marshalled payload; an unmarshallable payload or an unknown key changes nothing |
| TypeShapes.Resolver.ResolveType | contract/resolve.go:19-109 | terminates on every finite graph of named types, cyclic or not, leaves the path set as found, and equals the pure path-set recursion |
| TypeShapes.Resolver.ResolveStruct | contract/resolve.go:130-161 | exported fields in order, with the json name cut at the comma |
| TypeShapes.CommaAt | contract/resolve.go:150-155 | the first comma, or the end |
| TypeShapes.JsonNameExactly | contract/resolve.go:145-155 | a field's json name is its tag exactly up to the first comma, and none for an empty tag or "-" |
| TypeShapes.NamedIsUnderlying | contract/resolve.go:28-67 | a named type's shape is that of the type it stands for, kind, fields, key and element, under its own name and package and with itself cut below |
| TypeShapes.ExpandedOnce | contract/resolve.go:19-67 | for every type of every finite graph of named types, generic instances and types without a package included: down any path of the shape no named type is expanded twice, and one is cut only below its own expansion |
| TypeShapes.GrowErases | contract/resolve.go:19-109 | the shape is the tree of those expansions and cuts without its tags |
| TypeShapes.LabelledOnce | contract/resolve.go:31-37 | where package and name determine the named type, none of them comes twice down a path |
| TypeShapes.InstancesRepeatAName | contract/resolve.go:31-37 | which two instances of one generic type break: one name twice, though no type is |
| TypeShapes.AcyclicUnfolds | contract/resolve.go:19-109 | on acyclic graphs the shape is the full unfolding |
| StaticSteps.NameIsFaithful | contract/walk.go:213-236 | the extracted name is the runtime's if and only if it is an interpreted literal without escapes or a constant of plain characters; raw literals keep their backquotes |
| StaticSteps.KindTellsSpelling | contract/walk.go:213-236 | literal, constant and dynamic tell how the name is written |
| StaticSteps.SpelledAsItIs | contract/walk.go:225-232 | a constant's extracted text is its value if and only if it holds no quote, no backslash and nothing that cannot be printed |
| StaticSteps.BranchNameIsFaithful | contract/detect.go:95-117 | a branch's extracted name is its real one if and only if all its characters are plain |
| StaticSteps.Walker.InspectNode | contract/walk.go:49-113 | steps, providers and errors are appended in the order of the source |
| StaticSteps.Walker.ExtractBranch | contract/walk.go:176-210 | a branch body is walked on its own; its errors and providers are kept, its steps go to the branch |
| StaticSteps.AllAreHoisted | contract/walk.go:200-204 | errors and providers are those of every call, however deep in branches |
| StaticCoverage.ExtractedStepsCover | contract/walk.go:49-236 | every name an execution tracks is matched by the extracted steps: branch names as prefixes, `:*` any counter, `<dynamic>` anything |
| StaticCoverage.RawLiteralIsMissed | contract/walk.go:215-222 | a step named by a raw literal is tracked but not covered |

## Left out

- OpenTelemetry spans and metrics, logging and the semantic conventions: no effect on the state.
- The SQL engine, connections, pragmas and the migration: a statement or a transaction is one atomic step.
- JSON and reflection: an abstract codec stands for them.
- The engine's Start loop: its goroutines, pool, tickers, nudge channel and drain timer; the fine machine's stale snapshots stand for what dispatch hands to the pool.
- Registration, options, factories and instance handles.
- Context cancellation: on the fine machine a runner may give up before executing and before committing, and any call may fail at any point, which is what a cancelled context can bring about.
- A lease that cannot be released, and a save that fails after it was written.
- Workflows that swallow the errors of calls, change between replays, or call the store themselves.
- The parent's context used inside a branch: names then clash at run time, which the model's tracking reports as the code does, but confluence is not claimed.
- Step functions that call the framework, custom providers' Get sites and branches passed as variables, in the static coverage theorem.
- The type parameter of a step and the package lookups of the contract extractor: recognised calls are given by the syntax tree.
- Store.SqliteStore.Get: without the column updated_at, whose unreadable text fails the scan as well; nothing else reads it.
- Store.SqliteStore.ListStepResults: without the order by created_at, which the prefetch does not depend on, and without unreadable times in step rows.
- Runtime.Session.Run: the signal and failures of the store come from outside, by the name of the call, and not from the store object, since other processes write it meanwhile.
- Runtime.WorkflowContext.Provide: two providers made with one prefix share a counter here, where the code's would clash on their first names.
- Executor.RunBranches: takes the branches one after another; Interleave.SchedulesConfluent is what makes any other schedule the same.
- Executor.Execute: without unmarshalling the request and the factory, which come before the body.
- Runners.LocalRunner.Run: without a failing prefetch, lease store or commit; the fine machine has them as giving up.
- Termination.Terminates: for sequential bodies, since a parallel body woken by one branch's event suspends again on another's sleep and needs more rounds than this bound; and promotions between rounds only when the suspended workflow's time is reached, since one by text order may come before the instant.
- FineDriver.DrivenIsARun: for executions in which no call sees a cancel signal set since the runner's own check; FineCancel.CancelIsSafe is about those.
- DriverEvents.OneEventOutcome: whole executions are atomic; FineEvents.OneOutcomeExactly is what holds of interleaved calls.
- FineLeases.WrittenOnce: for plain steps; FineEvents.OutcomesAreFinal says when wait rows stay as well.
- TypeShapes.LabelledOnce: for graphs where package and name determine the named type; TypeShapes.ExpandedOnce, by identity, is for all.
