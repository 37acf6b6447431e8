# durablepg in Dafny

durablepg is a workflow engine on PostgreSQL. A run is a row with a cursor, a lease and write-once
checkpoints; workers claim rows under fresh tokens, interpret a compiled list of operations (steps,
sleeps, event waits) and write back through statements that are fenced by the token and an unexpired
lease. This project models the statements, the worker, the event registration protocol, the lease table
with its heartbeat, dispatch, the builder and the engine's registry, and proves what they guarantee
together, for every run of the system: any number of workers, crashes, lost answers, statements that
execute after their sender gave up, and any interleaving of maintenance.

`dafny verify dfyconfig.toml` checks all of it.

## How it is organised

| files | content |
|---|---|
| `Basics`, `Text`, `Backoff` | options, JSON values, instants; trimming and decimals; the two backoff formulas |
| `Workflow` | compiled definitions, step contexts, and `Interpret`: one uninterrupted left-to-right execution |
| `Rows`, `Tables` | what each statement does to one row, and to the tables |
| `Selection`, `Store` | the statements as methods that update the tables in place, proved against `Rows` and `Tables` |
| `Worker` | one claim as an automaton: the local moves of `drive` and the execution of what it sent |
| `DrivePath` | paths of that automaton that agree with what the world answers, the statements they send, and that the answers determine both |
| `Turns`, `Drive` | the operations and the loop of `drive` as methods, proved to be such a path and to compute `Interpret` |
| `Protocol` | the whole system as a state machine over 13 kinds of step, and its traces |
| `RunInvariant`, `ClaimInvariant`, `CoreInvariant`, `LeaseInvariant`, `EventInvariant`, `EventSteps`, `SystemInvariant` | the invariant, kept by every step |
| `EventHistory` | where noted lookups and prunings come from in a trace |
| `Theorems`, `Progress`, `Witnesses` | the results over whole traces, bounds on progress, and concrete runs |
| `Occurrences`, `Columns`, `Causes` | what a step is to a run, told by labels and columns alone; every column of every row as the trace made it; the steps that ended a run or wrote a checkpoint |
| `Schedule` | when exactly a run can be claimed: sleeps, retries, lost leases, queues |
| `Contexts`, `Provenance` | what user code sees, field by field; where keys, deadlines, errors and events come from |
| `Settling`, `Capabilities`, `ShortLease` | from every reachable state, continuations that end or complete a run; what else can always be done; the shortest lease that allows completion |
| `Leases`, `HeartbeatTrace` | the lease table and heartbeat; heartbeat events and protocol steps interleaved |
| `Dispatch`, `DispatchLimit`, `Draining` | dispatch, completion and WaitForIdle as interleaved steps; when the limit bounds the engine; that waiting can end |
| `Builder`, `Engine` | recording and compiling definitions; registry, Enqueue, Cancel |
| `Uuid`, `Sanitize` | time-ordered identifiers; storable error text |

## Reading the model

- A statement is one atomic step; a wait or an emission is a transaction of several steps under an
  advisory lock. `now` is transaction start, `statement` is statement start and `clock` is what
  `clock_timestamp()` reads; the three are kept apart as the SQL does.
- A statement that was sent stays outstanding until the server executes it, even when the worker has
  cancelled, failed or crashed in between. A lost answer needs no step of its own.
- A step function is a relation between its context and the results it may return; an event-key resolver
  is a function of its context, as its documentation demands. `Deterministic` is required only where a
  theorem compares results.
- A batch claim is a sequence of claim steps at one clock reading; renewal, recovery, promotion and
  emission change all their rows in one step.
- Facts about the past that no column stores (emitted and pruned events, the latest token of a run, what a
  wait saw when it looked, how it was settled) are kept as history, which no step's effect on rows, claims,
  events or locks depends on.
- The drive loop runs against an environment that fixes, by position, what every call answers. `Ends` says
  which statements it sends and what it returns; `LoopIsDetermined` says that there is only one such outcome.
- `Occurrences` repeats no function of `Rows`: it decides by label, state and columns, with numbers written out,
  so that what the statements do and what the trace theorems say of it are two separate accounts.
- Time is one monotone clock in nanoseconds, so that the truncation of durations to milliseconds is
  visible.

Five findings the code's comments do not spell out:

- The local deadline of a claim never outlives the database lease exactly when the lease length is a
  whole number of milliseconds (`ConservativeIffWholeMillis`, with a two-step run that shows the failure
  otherwise). Mutual exclusion of user code nevertheless holds for every lease length
  (`MutualExclusion`), because an expired lease is offered again only after at least 250 ms.
- A wait can time out although an event that answers it was committed before the wait began and was alive
  when it began: if the event expires and is pruned before the wait gets its lock and looks, nobody sees it
  (`TimeoutCanMissAnAnswer`). That is the only way (`HonestOutcome`), and a timeout hides no such event exactly
  when none was pruned before the lookup (`StrictTimeoutIffNotPruned`).
- MaxConcurrency bounds one StartWorker call, not the engine: claims that outlive a drain run beside
  those of the next worker (`LimitIsPerWorker`). A new worker stays within the engine-wide limit, whatever
  happens, exactly when nothing is in flight as it begins (`LimitIffNoneFlying`); waiting for idle first is enough
  (`LimitAfterIdle`).
- New accepts a lease shorter than a millisecond, and SQL receives it as zero: every such lease has run out as
  soon as it is granted, no row is ever advanced, and a run can complete exactly when the lease lasts at least
  a millisecond (`CompletionNeedsAMillisecond`).
- A negative step timeout is noticed only after the step's name has been taken: such a call fails and still
  adds the name, and no other failing call changes anything (`Builder.Builder.Step`).

## Model

| member | source | states |
|---|---|---|
| `Theorems.ReplayEquivalence` | worker.go:376-435 | In every reachable state a completed run holds exactly the values, and the output, that one uninterrupted execution computes from its input and its wait outcomes, however often it was claimed, crashed or retried. |
| `Theorems.CompletedRunsAgree` | worker.go:376-435 | Two completed runs in any two histories with the same identity, input and wait outcomes have the same checkpoints and output. |
| `Theorems.ContextIsStored` | worker.go:437-447 | What user code sees, even under a lost lease, is the run's identity, workflow name and input, and for each earlier position exactly its checkpoint, now and at any later time. |
| `Theorems.ContextStability` | worker.go:437-447 | Any two invocations of one position of a run, at any two times and by any two claims, get equal contexts and equal idempotency keys. |
| `Theorems.ContextShowsExactlyEarlier` | types.go:84-90 | In user code a name is readable if and only if it belongs to an earlier step or wait, and it reads that operation's checkpoint. |
| `Theorems.IdempotencyKeysIdentify` | types.go:190-196 | Equal idempotency keys, of any two invocations at any two times, mean the same run and the same position. |
| `Theorems.NoLostWakeup` | worker.go:483-522 | A run waiting on a key never coexists with a logged event for it that was created before the deadline and alive when the wait transaction began. |
| `Theorems.HonestOutcome` | queries.go:76-93 | Each settled wait has exactly one outcome. Received: the payload of an event with the run's resolved key that, by creation time and then number, was the greatest one alive at the wait's BEGIN and not pruned when the wait looked, or the first answer committed after it was parked, created before its deadline. Timed out: the deadline had passed, and every answer committed by then had expired at the wait's BEGIN or was pruned before it looked. |
| `Theorems.StrictTimeoutIffNotPruned` | queries.go:140-144 | No answer alive at the wait's BEGIN was committed before the timeout if and only if no prune statement had deleted such an answer before the wait looked; the lookup is exhibited as a state of the trace. |
| `EventHistory.LooksArePast` | queries.go:140-144 | Every lookup noted in a state of a trace was made in an earlier state of it. |
| `EventHistory.PrunedByAStatement` | queries.go:198-206 | The events noted as pruned are exactly those that a prune statement of the trace deleted. |
| `EventHistory.TimeoutLook` | queries.go:176-197 | For every noted timeout there is an earlier state in which the wait looked, and it knew as pruned exactly what had been deleted by then. |
| `Theorems.LiveHolderView` | worker.go:376-394 | While a claim's token is on the row, in the loop or failing, its attempt is the row's and everything before the cursor is settled; in the loop its values are exactly the stored checkpoints, it stands at or past the cursor and everything between is settled. |
| `Theorems.WriteOnceAndAbsorbing` | queries.go:103-127 | Over any run: a checkpoint never changes or disappears, cursor and attempt never decrease, identity columns stay, and a terminal row stays as it is. |
| `Theorems.ColumnsMatchState` | queries.go:49-55 | Lease columns are set if and only if leased, wait columns if and only if waiting, counters stay within the limit and reach it exactly in failed runs, and a waiting run has no checkpoint at its cursor. |
| `Theorems.CanonicalOutput` | builder.go:208-222 | Along every path to completion the output is the checkpoint at the greatest step or wait position, absent if and only if there are only sleeps, and the cursor is the operation count. |
| `Theorems.DeadlineWithinLease` | worker.go:330-338 | A claim's confirmed local deadline exceeds the lease on the row by at most the sub-millisecond part of the lease length. |
| `Theorems.DeadlineConservative` | worker.go:330-338 | With a lease length in whole milliseconds the local deadline never outlives the lease. |
| `Theorems.MutualExclusion` | queries.go:160-175 | Two claims of one run are never both in user code with unexpired local deadlines, for any lease length. |
| `Theorems.RejectedWritesNothing` | queries.go:5-6 | A statement whose token or lease does not pass the fence leaves every row as it was. |
| `Theorems.AcceptedWriteIsCurrent` | queries.go:5-6 | If a claim's statement changed anything, its token was the run's latest, still on the row with an unexpired lease, and only that row changed. |
| `Theorems.FencedForever` | queries.go:5-6 | From the moment a token is superseded or its lease has run out, no statement sent under it ever changes a row or checkpoint again, and a renewal that names it has the effect of one that does not. |
| `Theorems.DeadIsNotRenewed` | queries.go:96-102 | A renewal that names a dead token leads to the same state as one without it. |
| `Theorems.DedupAcrossTime` | queries.go:63-75 | Two runs with the same workflow name and deduplication key, at any two moments, are the same run. |
| `Theorems.CompletedIsInterpreted` | worker.go:426-435 | A completed row that satisfies the invariant holds the interpretation's values and output. |
| `Theorems.HolderSeesAll` | worker.go:376-394 | The invariant of a claim whose token is on the row gives it the complete, exact view of the checkpoints. |
| `Theorems.DeadStays` | queries.go:5-6 | No step revives a dead token, and a statement sent under one changes no row. |
| `Schedule.ClaimableExactly` | queries.go:40-60 | In every state of every trace: a run can be claimed by a worker of a queue at a given time if and only if some earlier step made it due by then, nobody claimed or cancelled it since, and it was enqueued on that queue. |
| `Schedule.SleepLasts` | queries.go:133-139 | After an accepted sleep the run can be claimed exactly from the transaction's start plus the duration of the sleep operation in whole milliseconds, neither earlier nor later, and stands behind it. |
| `Schedule.RetryWaits` | worker.go:524-536 | After the n-th recorded failure below the limit the run can be claimed exactly from the transaction's start plus the n-th delay: 250, 500, 1000, ... 60000 ms. |
| `Schedule.RecoveryWaits` | queries.go:160-175 | After the n-th lease lost in a row below the limit the run can be claimed exactly from the recovery's clock plus the n-th delay. |
| `Schedule.SettledIsDue` | queries.go:80-89 | A wake or a timeout makes a run due at once. |
| `Schedule.NextClaimIsDue` | queries.go:40-60 | The next claim after a step that made a run due comes no earlier, whatever happens in between. |
| `Schedule.SleepIsNext` | worker.go:407-408 | The sleep a statement carries out is the run's next operation, with that operation's duration. |
| `Columns.ColumnsStep` | queries.go:36-219 | Every step does to every column of every row exactly what its label and the columns it finds decide, with delays, truncations and stored values written out. |
| `Columns.EnqueuedOnce` | queries.go:63-75 | Every run comes from exactly one enqueueing step, starts with that step's columns and keeps its workflow, queue, limit, input and key. |
| `Columns.LeaseFailuresCountRecoveries` | queries.go:160-175 | The lost-lease count is the number of recoveries since the run's last accepted commit, sleep or parked wait. |
| `Columns.LastErrorIsLatest` | queries.go:153-175 | The error column is the text of the last failure or lost lease, unless the run got on since. |
| `Columns.LeaseIsLastGrant` | queries.go:49-55 | A leased row carries the token of its last claim, and its lease ends a lease length, in whole milliseconds, after its last claim or renewal. |
| `Causes.EndsHaveCauses` | queries.go:103-175 | A run is completed, failed or cancelled if and only if a step of the trace completed it, exhausted its limit or cancelled it unfinished. |
| `Causes.CheckpointIsFirstWrite` | queries.go:103-127 | A position holds a checkpoint if and only if some commit, delivery, wake or timeout wrote there, and it holds the first thing written. |
| `Contexts.ContextDescribesRun` | worker.go:437-447 | Every invocation of user code gets the identity, workflow name and input its run was enqueued with, the key of its position, and exactly the checkpoints of the earlier steps and waits. |
| `Contexts.ResultsFitTheirContext` | worker.go:399-406 | Every stored step result is one the step may return in the context so described. |
| `Contexts.KeyIsResolved` | builder.go:38-57 | The event key of a wait is what its resolver gives in the context so described, without the white space around it, and none if nothing is left. |
| `Contexts.WaitingForItsKey` | queries.go:145-152 | A waiting run waits for exactly that key, until its wait's timeout in whole milliseconds after the start of the transaction that parked it. |
| `Provenance.DeadlineIsLastConfirmed` | worker.go:195-222 | A claim's local deadline is a lease length after its claim was sent or after the last pass whose confirmation it noted. |
| `Provenance.ErrorsAreRaised` | worker.go:368-375 | The error a claim reports is one that its user code, a statement or its transaction raised. |
| `Provenance.WaitsBeginWhenOpened` | worker.go:483-488 | A wait transaction's start is the clock at which its claim opened it. |
| `Provenance.EmittedAsSent` | engine.go:258-287 | The n-th committed event is numbered n, has the key and payload of its emitting call, was created when that transaction began and expires a lifetime in whole milliseconds later. |
| `Progress.EveryChangeIsProgress` | queries.go:103-175 | Every change of a row other than a renewal strictly lowers a non-negative measure, so a row changes only finitely often; that it can always be brought to an end is `Settling.NeverStuck`. |
| `Settling.NeverStuck` | queries.go:160-197 | In every reachable state each run has a continuation, in which nobody cancels it, that ends it. |
| `Settling.CanComplete` | worker.go:376-435 | In every reachable state each unfinished run whose user code can return has a continuation that completes it, whatever locks, stale claims and open transactions there are, if the lease is at least a millisecond and losing the present one would not fail the run. |
| `Settling.OnePass` | worker.go:386-435 | From any claim at work, one pass of the loop can complete the run, or leave it at work or ready and strictly nearer to its end. |
| `Settling.FreesLock` | worker.go:483-496 | Whoever holds an event lock can roll back, after which a wait finds it free and everything it depends on as it was. |
| `Settling.SomeLatest` | queries.go:140-144 | The event lookup always has an answer. |
| `Capabilities.FailureIsRecorded` | worker.go:524-536 | In every reachable state a claim that failed while holding its run can record it: one attempt more, its error text, the lease given back, the run ready or, at the limit, failed. |
| `Capabilities.LeaseCanBeRenewed` | worker.go:195-222 | In every reachable state a held lease can be renewed and the claim told: row and claim move on to a lease length from now. |
| `Capabilities.CanBeAnswered` | engine.go:258-287 | In every reachable state a waiting run whose deadline is ahead can be answered with any payload, whoever holds its lock, and is then due with that payload recorded. |
| `Capabilities.CanCancel` | queries.go:213-217 | In every reachable state an unfinished run can be cancelled at once. |
| `Capabilities.CanEnqueue` | queries.go:63-75 | In every reachable state a well-formed request creates its run exactly when the identifier is free and no run of the workflow owns the key, and changes nothing otherwise. |
| `Capabilities.SweepsExactly` | queries.go:160-197 | A lease can be recovered if and only if the last claim or renewal's lease length had passed before the statement, and a wait timed out if and only if its deadline had come by then. |
| `ShortLease.CompletionNeedsAMillisecond` | worker.go:330-330 | Where a registered workflow's code can return, some history completes a run if and only if the lease is at least a millisecond. |
| `ShortLease.UntouchedUpTo` | queries.go:5-6 | With a shorter lease no state of any trace has a completed or waiting run, a checkpoint, a cursor above zero or an unexpired lease. |
| `Progress.ClaimsSpendBudget` | queries.go:40-60 | At every point of a trace, the claims of a run so far plus its remaining budget stay within a bound fixed by its attempt limit and operation count. |
| `Progress.ClaimsAreBounded` | queries.go:40-60 | In any trace a run is claimed at most that often, however many workers there are. |
| `Progress.AttemptCountsFailures` | queries.go:153-159 | The attempt column equals the number of accepted failure statements of the run, in every trace. |
| `Progress.AttemptStep` | queries.go:153-159 | A step raises a run's attempt by one exactly when it is an accepted failure statement, and no other step touches it. |
| `Witnesses.DeadlineCanOutliveLease` | worker.go:330-338 | With a fractional lease length, a two-step run in which a claim's deadline is later than its lease. |
| `Witnesses.ConservativeIffWholeMillis` | worker.go:330-338 | Local deadlines stay within leases in all runs if and only if the lease length is a whole number of milliseconds. |
| `Witnesses.TimeoutCanMissAnAnswer` | queries.go:140-144 | A run, with the 24-hour event lifetime of the engine, in which a wait times out although an event that answers it was committed before it began and was alive when it began; it was pruned before the wait looked. |
| `Witnesses.RecoveryCompletes` | queries.go:160-175 | A worker dies inside a step, its lease is recovered, a second claim completes the run with the step's value: the guarantees are not vacuous. |
| `SystemInvariant.SysStep` | queries.go:36-219 | Every step of the system keeps the whole invariant and moves every row forward. |
| `SystemInvariant.Reachable` | queries.go:36-219 | Every state of every trace satisfies the invariant. |
| `SystemInvariant.RowsLater` | queries.go:36-219 | Between any two moments of a trace a row only moves forward. |
| `CoreInvariant.CoreStep` | worker.go:376-435 | Every step keeps all rows justified and all claims consistent with their rows, stale ones included. |
| `LeaseInvariant.LeaseStep` | leases.go:53-84 | Every step keeps local deadlines tied to granted leases and released leases unclaimable before their backoff. |
| `EventSteps.EventStep` | engine.go:258-287 | Every step keeps the event protocol: lock ownership, lookups that stay current under the lock, no answered wait left parked, honest outcomes. |
| `RunInvariant.CommitKeeps` | queries.go:103-127 | An accepted commit keeps the row's invariant and is progress. |
| `RunInvariant.CompleteKeeps` | queries.go:128-132 | Completion with the canonical output keeps the row's invariant. |
| `RunInvariant.ParkSleepKeeps` | queries.go:133-139 | Parking past a sleep keeps the row's invariant and is progress. |
| `RunInvariant.ParkWaitKeeps` | queries.go:145-152 | Parking on a wait keeps the row's invariant with the cursor on the wait. |
| `RunInvariant.FailKeeps` | queries.go:153-159 | A recorded failure keeps the row's invariant, failing exactly at the limit. |
| `RunInvariant.RecoverKeeps` | queries.go:160-175 | Lease recovery keeps the row's invariant, failing exactly at the limit. |
| `RunInvariant.WakeKeeps` | queries.go:80-89 | Waking a waiter with its outcome recorded keeps the row's invariant. |
| `RunInvariant.TimeOutKeeps` | queries.go:176-197 | Timing a waiter out keeps the row's invariant. |
| `RunInvariant.CancelKeeps` | queries.go:213-217 | Cancelling keeps the row's invariant and ends the run. |
| `ClaimInvariant.MovedOk` | worker.go:376-435 | Each local move of a claim keeps its view, its context and what it sends consistent with its row. |
| `ClaimInvariant.ExecutedOk` | worker.go:459-522 | Executing anything a claim sent, on time or late, keeps row and claim consistent. |
| `ClaimInvariant.BystanderKeeps` | worker.go:376-435 | A claim that lost its row stays consistent with it while others move the row on. |
| `Rows.FirstCheckpointWins` | queries.go:103-127 | For every row: a rejected commit changes nothing and says so; after an accepted one the position holds the first value ever stored there, all other checkpoints stay, the cursor is past it, the reply tells what is stored, and exactly a completing commit ends the run with that value and gives the lease back. |
| `Backoff.FormulasAgree` | worker.go:557-570 | The Go formula and the SQL formula give the same delays for every n: 250 ms, then twice the one before, never above 60 s. |
| `Backoff.DelayMonotoneAndBounded` | worker.go:557-570 | Delays never shrink with the attempt, never exceed the cap, and the shift never overflows 63 bits. |
| `Workflow.ContextReadsExactlyEarlier` | types.go:84-90 | On complete checkpoints a context reads a name if and only if an earlier operation has it. |
| `Workflow.ContextDependsBelow` | worker.go:437-447 | Checkpoints at or above a position do not show in its context. |
| `Workflow.IdempotencyKeysDiffer` | types.go:190-196 | The key text determines run, position and name. |
| `Workflow.JustifiedIsInterpreted` | worker.go:376-435 | Checkpoints that are justified one by one by their own contexts are the interpretation. |
| `Workflow.Resolve` | builder.go:38-57 | A resolved event key is trimmed and not empty. |
| `Basics.ReadOutcome` | types.go:133-158 | Reading a stored outcome tells a timeout from a payload and returns exactly that payload. |
| `Text.DecimalRoundTrip` | worker.go:442-442 | The position in a step key can be read back. |
| `Drive.Drive` | worker.go:376-435 | Whatever the world answers, the loop follows the claim automaton step by step on exactly those answers, sends exactly the statements of that path and returns what its last step says: it stops only where its context is cancelled, errs with the error that occurred, loses the lease when a statement matched no row. Positions rise, no position without a value is passed without its statement, and only the last statement is not a commit. Undisturbed it ends in the completing commit or in completeRun. On a deterministic definition, with stored values answered truthfully, every step result and the output it sends are the interpretation's. |
| `Drive.DriveIsDetermined` | worker.go:376-435 | Any two results and statement sequences that meet the contract of the loop, for one start and one set of answers, are equal. |
| `DrivePath.LoopIsDetermined` | worker.go:376-435 | From one start and one set of answers there is only one sequence of statements, one result and one final state, so the contract of the loop leaves no other behaviour. |
| `DrivePath.StepDetermined` | worker.go:386-425 | In every state of a claim the answers allow at most one step. |
| `DrivePath.ReachesNext` | worker.go:386-425 | Extending a path by a step sends what that step sends and, at the end of the loop, returns what that step says. |
| `Turns.WaitForEvent` | worker.go:483-522 | The wait transaction errs exactly with what broke at BEGIN, lock or lookup and then sends nothing; otherwise it delivers the event it found or parks exactly when it found none, and follows the automaton. |
| `Turns.Deliver` | worker.go:497-507 | A value is stored exactly when the commit matched a row and the transaction committed, the earlier value winning; lost exactly when no row matched; an error exactly when the commit or the COMMIT failed, with that error. |
| `Turns.ParkForEvent` | worker.go:510-521 | Parked exactly when a row was affected and the transaction committed, lost exactly when none was, an error exactly when the statement or the COMMIT failed, with that error. |
| `Turns.CommitValue` | worker.go:459-473 | Stored exactly when the commit was accepted, with an existing checkpoint winning; lost exactly when no row came back; an error exactly when the statement failed. |
| `Turns.Close` | worker.go:475-481 | A statement that gives the lease back succeeds exactly when it affected a row; no row means the lease is lost; an error is kept apart from that. |
| `Turns.StepTurn` | worker.go:399-406 | A step sends its result exactly when it returned one, and then goes as its commit goes. |
| `Turns.WaitTurn` | worker.go:409-418 | An unresolvable key fails before any statement; otherwise the wait runs under the resolved key. |
| `Turns.TakeTurn` | worker.go:396-421 | One operation of any kind sends and returns exactly what the answers say, as steps of the automaton. |
| `Drive.Complete` | worker.go:426-434 | Running past the last operation sends completeRun with the output value and ends, loses the lease or errs exactly as its answer says. |
| `Drive.ExecuteClaim` | worker.go:368-380 | A failure is recorded exactly for an error of drive in a claim that was not cancelled, with that error; an unregistered workflow sends nothing and records nothing. |
| `Drive.StepIsInterpreted` | worker.go:399-406 | With everything below filled in from the interpretation, a step returns the interpretation's value. |
| `Drive.SaidOnCourse` | worker.go:396-421 | A turn taken on course stores the interpretation's value at its position. |
| `Drive.OutputAgrees` | worker.go:426-429 | The value at the output index is the interpretation's output. |
| `Leases.LeaseTable.Insert` | leases.go:26-38 | A new claim is in the table, live, with its deadline. |
| `Leases.LeaseTable.Release` | leases.go:32-37 | Releasing removes exactly that claim. |
| `Leases.LeaseTable.Snapshot` | leases.go:40-50 | The two lists pair exactly the live claims with their runs, each once. |
| `Leases.LeaseTable.ApplyRenewal` | leases.go:52-67 | Exactly the sent and renewed claims are extended, exactly the sent and missing ones cancelled, all others untouched. |
| `Leases.LeaseTable.Expire` | leases.go:69-84 | Only claims with a deadline after now stay live, and the result is exactly their minimum, absent when there is none. |
| `Leases.Sweep` | leases.go:69-84 | The loop of expire on the table's contents. |
| `Leases.Heartbeat.constructor` | worker.go:180-183 | The first renewal is one interval away. |
| `Leases.Heartbeat.Arm` | worker.go:185-189 | The timer is set no later than the next renewal and no later than any confirmed deadline, and to one of them. |
| `Leases.Heartbeat.Fire` | worker.go:195-209 | Too early it does nothing; otherwise it takes exactly the live claims and a bound after now that no confirmed deadline precedes. |
| `Leases.LiveExactly` | leases.go:52-84 | Over every run of the heartbeat: a claim is live if and only if it came in, was not released, was not found past its deadline and was not left out of an answer since. |
| `Leases.EntryStep` | leases.go:26-84 | What each event does to each entry, and that a pass sends exactly the live claims. |
| `Leases.PassesAreSpaced` | worker.go:195-199 | Passes are at least an interval apart. |
| `Leases.SteadyClaimLives` | worker.go:180-222 | Over every run of passes, answers, errors and expiries: a claim started at or after a pass is live in every state, as long as at most k renewals fail in a row, answers confirm it, and (k + 1) times interval plus lateness is below the lease length. |
| `Leases.PunctualityIsExact` | engine.go:109-111 | That bound is exact for every k: it holds if and only if in every such run, of any length and from its first pass on, the claim stays live; when it fails, a whole run of k failed passes ends in the cancellation. With k = 0 and nothing late it is the check in New. |
| `HeartbeatTrace.TableWithinLease` | leases.go:52-84 | Heartbeat events and protocol steps in any interleaving: while a claim's entry is in the table and its token is on the row, the deadline in the table exceeds the lease in the database by at most the sub-millisecond part of the lease length. |
| `HeartbeatTrace.TablesExcludeEachOther` | leases.go:52-84 | The tables of any two workers, or one, in one state of the system: two claims of one run are never both in user code before the deadlines in the tables that hold them. |
| `HeartbeatTrace.TableExcludesOthers` | leases.go:52-84 | While a claim is in user code before the deadline in its table, no other claim of the run is in user code before its own confirmed deadline. |
| `HeartbeatTrace.HearsWhatWasRenewed` | worker.go:211-222 | Whatever happens between a renewal's execution and its answer: of the claims it was sent for, exactly those held under their tokens at the execution go on, with the deadline a lease length after the pass, and the others are cancelled. |
| `HeartbeatTrace.JointKeeps` | worker.go:195-232 | Every step of the system, claim, heartbeat event, executed renewal and answer keeps each deadline in the table covered by the lease granted to its claim, and an answer on its way covered likewise. |
| `Leases.CurrentStep` | worker.go:180-222 | Every event keeps the distance between the last pass and the last confirmation within the failures counted so far. |
| `Leases.LateClaimUntouched` | leases.go:52-67 | A claim inserted after a renewal was sent is untouched by its answer, over any events in between. |
| `Dispatch.EngineStep` | worker.go:242-285 | Every step of dispatch, completion and waiting keeps the counters equal to what they count. |
| `Dispatch.CapacityBound` | worker.go:249-267 | In every interleaving, lease entries are at most in-flight claims, which are at most the limit, per worker. |
| `Dispatch.ClaimsAreRegistered` | worker.go:376-380 | Every claim's workflow is registered, then and later, so the unregistered branch of drive is not taken. |
| `Dispatch.IdleMeansNoClaims` | engine.go:379-397 | When WaitForIdle returns nil no claim of any worker of the engine is running or starting. |
| `Dispatch.StaysIdle` | engine.go:363-397 | After that nothing runs until StartWorker is called again. |
| `Draining.WaitCanReturn` | engine.go:379-397 | In every reachable state in which no worker runs, WaitForIdle can be called and there is a continuation in which it returns nil. |
| `DispatchLimit.EngineLimit` | worker.go:253-257 | If every worker begins when nothing is in flight, the claims in flight under all workers together stay within the limit, in every state of every run. |
| `DispatchLimit.LimitAfterIdle` | engine.go:379-397 | The same when every worker begins with no active claim, as after WaitForIdle returned nil. |
| `DispatchLimit.LimitIffNoneFlying` | worker.go:249-257 | In every reachable state in which a worker can begin: whatever it and the claims left over do, the engine-wide limit holds if and only if nothing is in flight as it begins. |
| `DispatchLimit.LimitExceeded` | worker.go:289-303 | A worker that begins while a claim is in flight can take the engine over its limit by itself. |
| `DispatchLimit.LimitIsPerWorker` | worker.go:289-303 | A run in which more claims are in flight than the limit of one, after a drain timed out. |
| `Selection.First` | queries.go:43-46 | The candidate that comes first by time and identifier. |
| `Selection.Take` | queries.go:43-46 | An ordered batch: within the limit, without repetition, nothing left out comes before anything taken. |
| `Store.Store.InsertRun` | queries.go:63-75 | The owner of the workflow name and deduplication key if there is one, else nothing when the identifier is taken, else a new ready row with the given columns, due at the given time or now, and nothing else set. |
| `Store.Store.ClaimReady` | queries.go:40-60 | The rows that are unlocked, ready, due, in the worker's queue and of a supported workflow, first by due time and then identifier, within the limit; fewer than the limit means no such row is left. Each is leased for the lease length in whole milliseconds under a token that no other row carries; no other row changes. |
| `Store.ClaimEach` | queries.go:49-55 | The leasing of a batch, one row at a time. |
| `Store.Store.RenewLeases` | queries.go:96-102 | Exactly the pairs whose row is held under the token are answered, and exactly their leases end a lease length from now. |
| `Store.Store.CommitStep` | queries.go:103-127 | Accepted exactly when the row is held under the token and not past the position; then a value stored there earlier stays and is the answer, the cursor moves on, error and lost-lease count are cleared, and a completing commit ends the run with that value. |
| `Store.Store.CompleteRun` | queries.go:128-132 | One row is affected exactly when it is held under the token; it is completed with the output and gives the lease back. |
| `Store.Store.ParkSleep` | queries.go:133-139 | One row is affected exactly when it is held under the token; it is ready at the next position and due when the sleep, in whole milliseconds from the transaction's start, is over. |
| `Store.Store.ParkWait` | queries.go:145-152 | One row is affected exactly when it is held under the token; it waits on the key until the timeout, in whole milliseconds from the transaction's start. |
| `Store.Store.FailOrRetry` | queries.go:153-159 | One row is affected exactly when it is held under the token; it fails at the limit, and below it is due after the delay of that attempt, written out in milliseconds. |
| `Store.Store.CancelRun` | queries.go:213-217 | One row is affected exactly when the run was not finished. |
| `Store.Store.FindLatestEvent` | queries.go:140-144 | The unexpired event of the key that is greatest by creation time and then number, or none when all have expired. |
| `Store.Store.EmitEvent` | queries.go:76-93 | The event is logged under an unused number, exactly the runs waiting on the key with a deadline ahead become due now with the payload recorded unless something was, and the count is theirs. |
| `Store.Store.RecoverLeases` | queries.go:160-175 | At most 1024 unlocked rows whose lease ended before the statement, the longest ended first; each is given back with one more lost lease and the delay of that count, or fails at the limit; nothing else changes, and fewer than 1024 means none is left. |
| `Store.Store.PromoteTimedOut` | queries.go:176-197 | At most 1024 unlocked rows whose deadline has come, the earliest first; each becomes due now with the timeout recorded unless something was; nothing else changes, and fewer than 1024 means none is left. |
| `Store.Store.PruneEvents` | queries.go:198-206 | Only expired unlocked events go, longest expired first; a short batch leaves none. |
| `Store.RecoverExpiredLeases` | worker.go:145-178 | Up to eight batches, each with its own statement start, clock and row locks: every row is untouched or recovered once, by one of them, and a short batch leaves no expired row that is not locked. |
| `Store.RenewEach` | queries.go:96-102 | The renewal over the pairs, one row at a time. |
| `Store.WakeEach` | queries.go:80-93 | The waking of waiters, one row at a time, with their number. |
| `Builder.Builder.AddName` | builder.go:65-78 | A trimmed, non-empty, unused name is taken; anything else changes nothing. |
| `Builder.Builder.Step` | builder.go:81-104 | A step is appended exactly when function, name and timeout are acceptable; its name is taken exactly when function and name are, whatever the timeout. |
| `Builder.Builder.Sleep` | builder.go:107-115 | A sleep is appended exactly when its duration is positive. |
| `Builder.Builder.WaitEvent` | builder.go:118-133 | A wait is appended exactly when key, timeout and name are acceptable, and it always resolves to the trimmed key. |
| `Builder.Builder.WaitEventFunc` | builder.go:136-150 | A wait with a resolver is appended exactly when resolver, timeout and name are acceptable. |
| `Builder.Compile` | builder.go:186-223 | Compilation succeeds exactly with a name, a positive version and operations, and then the definition is well formed. |
| `Builder.Positions` | builder.go:208-222 | The names map lists exactly the recording positions and the output index is the last of them. |
| `Engine.Intervals` | engine.go:100-111 | 30 s and 10 s where none is given, and an error exactly when the heartbeat is not strictly shorter than the lease. |
| `Engine.Engine.Register` | engine.go:137-150 | A definition is added exactly when it compiles and its name and version are free; registered ones never change. |
| `Engine.Engine.LatestWorkflow` | engine.go:169-179 | The definition with the greatest version of the name, or none when the name is unknown. |
| `Engine.Engine.SupportedWorkflows` | engine.go:181-191 | The two lists pair up to exactly the registered names and versions. |
| `Engine.Engine.Enqueue` | engine.go:194-246 | A bad or unknown request changes nothing. A held idempotency key returns its owner, even when the identifier is taken, and changes nothing. Otherwise a taken identifier is an error that changes nothing, and a free one gets exactly one new ready row of the resolved version with the request's queue, limit, input, key and due time. |
| `Engine.Engine.Cancel` | engine.go:335-353 | An unfinished run is cancelled, a finished one keeps and reports its state, an unknown one is reported. |
| `Uuid.NewUuid` | engine.go:400-422 | The text is the canonical layout of the random bytes with time, version and variant written over them. |
| `Uuid.DecodesBack` | engine.go:400-422 | For times below 2^48 the text decodes, in one way only, to that time, version 7, the RFC variant and the remaining random bits. |
| `Uuid.LaterIsGreater` | engine.go:399-422 | A strictly later millisecond gives a lexicographically greater text, whatever the random bytes. |
| `Uuid.LayoutRoundTrip` | engine.go:411-421 | The text reads back to its bytes. |
| `Uuid.NoColon` | types.go:195-195 | Generated identifiers are admissible: not empty and without a colon, which keeps idempotency keys apart. |
| `Sanitize.SanitizeError` | worker.go:537-548 | For every message: valid UTF-8 without NUL of at most 4000 bytes, a prefix of the cleaned message that loses at most three bytes to alignment, and a storable message is unchanged. |
| `Sanitize.Truncate` | worker.go:540-547 | The longest valid prefix that fits. |
| `Sanitize.ToValid` | worker.go:539-539 | Each run of invalid bytes becomes one replacement character. |
| `Sanitize.RuneIsEncoding` | worker.go:539-539 | Text starts with a character if and only if it starts with the UTF-8 encoding, by section 3 of RFC 3629, of a code point that is no surrogate. |
| `Sanitize.CleanedRun` | worker.go:539-539 | A run of bytes in which no character starts becomes one U+FFFD. |
| `Sanitize.CleanedAfterValid` | worker.go:539-539 | Valid text before anything else stays as it is. |
| `Sanitize.NulReplaced` | worker.go:539-539 | Each NUL becomes one U+FFFD. |
| `Sanitize.CleanedKeepsValid` | worker.go:539-539 | Cleaning changes a message if and only if it was not valid UTF-8. |
| `Sanitize.ValidPrefix` | worker.go:543-546 | A prefix of valid text is valid if and only if it ends before the start of a character. |

## Left out

- Engine.Engine.Cancel: the two statements run one after the other here, so a state that changes between them is not shown; terminal states cannot change in between, by `WriteOnceAndAbsorbing`.
- Drive.ExecuteClaim: error text is passed on as it is; its cleaning is `SanitizeError`, which works on bytes.
- The uuid type of the id column: enqueueing admits any non-empty identifier without a colon, which is all that `IdempotencyKeysIdentify` needs of it.
- Leases.LeaseTable.Insert: a claim's context is a flag of its table entry, so a context that is kept after release, and cancellation of the whole worker, are not represented.
- Store.Store.ClaimReady: rows other transactions have locked are a parameter; when they are locked is not modelled. The tokens the database generates are required to differ from each other and from those in use.
- Turns.WaitTurn: every resolver failure carries the same error text; the resolver's own message is not modelled.
- PostgreSQL itself: snapshots, row-lock queues, deadlocks and microsecond rounding. Two event keys may share one advisory lock, as hashing allows.
- More than one clock, and clocks that step back.
- JSON text: encoding, decoding and normalisation of values, including the checkpoint list a claim returns.
- Notifications, LISTEN, polling and ticker timing: they change when work is found, not what is done with it.
- Migrations, schema names and identifier quoting.
- RunStatus and RunOutput, which only read a row, and the compatibility aliases.
- Logging, panics inside step functions beyond being failures, and step timeouts beyond the sign check.
- Failure of the random source.
