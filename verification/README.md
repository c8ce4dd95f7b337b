# Prescott

Prescott runs containerised tasks on cron schedules. A tick registers a run of its task, limited by the
task's `times`; the run waits in a bounded queue, is executed in a container and recorded in a table. Users
belong to groups, hold roles there, and log in with refresh sessions. This project models these parts in
Dafny and proves what they are meant to guarantee.

The models follow the code's own form: classes with methods where the program updates objects, functions
where it computes. Wherever several calls or several activities matter, a class is proved against a step
function on values, and the theorems are about all sequences of steps.

## The task-run engine

`RunEngine` is a step system. The code between two awaits is one step, every database statement is one
step, and cron callbacks, requests, queued executors, environment builds and the starting server interleave
without restriction. Any statement may fail, and the server may crash between any two steps and start again
over the same database. `Reached(m, actions)` is the state after the actions `actions` with queue cap `m`;
an action that is not possible changes nothing, so every sequence of actions is a run.

| part of the code | where | in the model |
|---|---|---|
| cron callback, registration under the lock | src/plugins/task/task.service.ts:61-81 | RunEngine.CallbackStep |
| `runTask`, `runTaskImpl` and its catch clause | src/plugins/task/task.service.ts:87-126 | RunEngine.ExecStep |
| `stopTask`, called by a request or by a failed run | src/plugins/task/task.service.ts:176-186 | RunEngine.StopStep |
| `createTask`, `startTask`, `deleteTask`, `updateTask`, `register` | src/plugins/task/task.service.ts:141-209 | RunEngine.RequestStep |
| the dispatched build | src/plugins/task/task-executor.service.ts:54-58 | the `BuildEnv` activity |
| `registerFromDatabase`, before the server listens | src/plugins/task/task.service.ts:23-49, src/server.ts:8-11 | RunEngine.BootStepState |
| the queue | src/workdir/contract/queue/in-memory-task-queue.ts:22-49 | RunEngine.Enqueue, RunEngine.ExecuteNext |

`RunEngineControl`, `RunEngineInvariant` and `RunEngineSteps` hold the inductive invariant and its proof,
`RunEngineTheorems` and `RunEngineContainers` what it means, `RunEngineClaims` which closures and activities
stand for which runs, `RunEngineContinuations` and `RunEngineRelaunches` which runs can still be started and which
containers launched, `RunEngineWitness` two concrete runs. `RunEngineEffects` tells what every step changes and
where every activity comes from, `RunEngineRecords` what the rows tell about the past, `RunEngineEndings` why a
task stops, and `RunEngineRequests` what requests, ticks and runs do when nothing disturbs them.

## The other parts

- `RunTable`, `TaskRunService`, `ResourceMutex`: the run table, registration and the lock as single calls.
- `TaskQueue`, `ListSchedule`: the queue over all event sequences, and its timing for a batch of jobs.
- `TaskLifecycle`, `TaskNames`: schedule entries, builds, images and containers, with requests atomic.
- `StepCompiler`: from steps to a shell line, and the meaning of that line.
- `Paging`, `MetricAggregate`: searching and aggregating a run's log and metrics.
- `CaseCodec`: names between the program and the database.
- `RefreshSessions`, `GroupRoles`: sessions, groups, roles and permissions, with requests atomic.

## What the code does, where one might expect otherwise

- A container is launched before its row is marked, so after a crash in between it may be launched again. Once
  the row is marked this cannot happen, and the mark itself is written at most once.
- Deleting or updating a task deletes its running containers only. Containers that have exited are left to their
  executors, and when the server has crashed in between they stay. ExitedContainerStays is such a run.
- A build that fails starts no cron job. The task then has no ticks until an update or a restart.
- Starting a stopped task does not start its cron job: the stop keeps the entry, and the start returns early
  when there is one.
- A closure queued before a stop survives it and may, after a start, take a stopped row to `running`. A stopped
  row for which no closure or activity stands, for instance after a crash, stays stopped.
- A pending row may be left without a closure: when its executor finds the task inactive or fails early, and when
  the server crashes. The next restart queues it again if its task is active then.
- The owner of a group cannot delete it while a task refers to it: that reference has no cascade.
- `next` is one more than the `from` of the following page. The pages abut at `next - 1`.
- A page size below 1 is accepted: a negative one returns every match from `from` on, and so does 0 with `from` 0.
- `ROLES.some(roles.includes)` throws when it is evaluated. Both this literal reading and the evident intention
  are modelled. As intended, a role manager who is not the owner may make another member a manager.
- An expired session still bars a login from its address for as long as its row exists.

## Model

| member | source | states |
|---|---|---|
| RunEngineSteps.InvAlways | src/plugins/task/task.service.ts:23-198 | The inductive invariant (limits, ranks, lock set, one claim per run, exact queue slots, what activities remember of the database, a quiet start) holds after every sequence of ticks, requests, resumptions, failures, crashes and restarts |
| RunEngineSteps.ApplyKeeps | src/plugins/task/task.service.ts:23-198 | Every single step, whichever activity takes it and whatever fails in it, keeps the invariant |
| RunEngineTheorems.LimitAndRanks | src/plugins/task/task-run.service.ts:68-96 | In every reachable state a task with `times = n` has at most n run rows, and its rows carry exactly the ranks 1..count, each once |
| RunEngineTheorems.EverRegistered | src/plugins/task/task-run.service.ts:77-96 | Deleted rows included, no more than `times` runs are ever registered for a task, over the whole past |
| RunEngineTheorems.CountStaysCurrent | src/plugins/task/task-run.service.ts:73-90 | When a callback is about to insert, the count it read under the lock is still the number of rows and below the limit, and the limit it read before the lock is still that of the task |
| RunEngineTheorems.LockSetIsExact | src/lib/async.utils.ts:48-53 | A label is in the lock set if and only if some activity is between entering and leaving the section for it, through every failure of the guarded code |
| RunEngineTheorems.MutualExclusion | src/lib/async.utils.ts:44-49 | At most one activity is inside the section of a task |
| RunEngineTheorems.LockTestsBounded | src/lib/async.utils.ts:39-47 | In every interleaving each caller tests the lock at most `retryNumber` times |
| RunEngineTheorems.SlotsAreExact | src/workdir/contract/queue/in-memory-task-queue.ts:31-49 | Within the engine the `running` counter equals the number of executors in flight, never exceeds the cap, and equals the cap while a closure waits |
| RunEngineRecords.FinalStatusIsExitCode | src/plugins/task/task.service.ts:114-115 | In every reachable state a run is `succeed` or `failed` because, at an earlier step, the wait of its executor for its container was answered, and it is `succeed` exactly when the answer was the exit code 0 |
| RunEngineTheorems.RowLifecycle | src/plugins/task/task-run.service.ts:98-124 | Every step of every run moves the status of a row only along pending to running or stopped, stopped to running, running to succeed or failed, keeps its owner, rank and creation time, and new rows are pending |
| RunEngineTheorems.RowsAreFilled | src/plugins/task/task-run.service.ts:98-124 | In every reachable state running, succeed and failed rows have a handle and a start time; stopped, succeed and failed rows have a finish time; pending rows have none of these |
| RunEngineTheorems.NoWayBack | src/plugins/task/task-run.service.ts:98-124 | Over any stretch of a run a row only makes progress: `pending` is not entered again, `succeed` and `failed` are final |
| RunEngineTheorems.LaunchedAtMostOnce | src/plugins/task/task.service.ts:101-113 | The `running` update of one run is executed at most once, over any run with any number of crashes and restarts |
| RunEngineTheorems.LaunchesAreCounted | src/plugins/task/task.service.ts:101-113 | Conservation: the `running` updates of a task counted over the whole past are exactly its runs on record as launched |
| RunEngineTheorems.AtMostTimesLaunches | src/plugins/task/task.service.ts:61-126 | A task with `times = n` has at most n runs ever started, whatever crashes, stops, restarts and deletions come between |
| RunEngineTheorems.TimesNeverChange | src/plugins/task/task.service.ts:200-208 | The `times` of a task is the same before and after any stretch of a run, although updates write back a configuration read several awaits earlier |
| RunEngineTheorems.OneClaimPerRun | src/plugins/task/task.service.ts:35-49 | In every reachable state two activities never stand for one run, waiting closures (queued, or about to be queued by a starting server) are for pairwise different runs, and none of them is for the run of an activity |
| RunEngineClaims.RetiredForGood | src/plugins/task/task.service.ts:101-126 | A run that is not pending and for which no closure or activity stands keeps its row exactly as it is, over every continuation with any crashes and restarts, for as long as it has a row |
| RunEngineClaims.RetiredIsNeverLaunched | src/plugins/task/task.service.ts:101-113 | No step of any continuation starts such a run |
| RunEngineClaims.StoppedBeforeCrashStaysStopped | src/plugins/task/task.service.ts:23-49 | A run that is stopped when the server crashes is never started, and its row stays as it is |
| RunEngineContinuations.CanStartIff | src/plugins/task/task.service.ts:35-126 | From every reachable state, for every run row: some continuation starts the run if and only if the cap is at least 1 and the row is pending, or stopped while a closure or an activity stands for it |
| RunEngineContinuations.StartedIsNotStartedAgain | src/plugins/task/task.service.ts:101-113 | What has been started once is not started again in any continuation |
| RunEngineClaims.ClaimEndsIff | src/plugins/task/task.service.ts:101-113 | While a row stays pending, a step ends the claim on it if and only if the server crashes, or its executor finds the task gone or inactive or fails before the update |
| RunEngineClaims.NewRunIsClaimed | src/plugins/task/task.service.ts:69-79 | A new row comes with an activity that stands for it |
| RunEngineClaims.PendingButFreeWasGivenUp | src/plugins/task/task.service.ts:61-113 | A pending row for which nothing stands was given up in one of these ways at some step of the run |
| RunEngineClaims.RestartClaimsExactly | src/plugins/task/task.service.ts:23-49 | When a server has started again after a crash, with no other steps in between, exactly the pending runs of the active tasks have a closure or an activity |
| RunEngineEndings.RestartRegistersExactly | src/plugins/task/task.service.ts:23-33 | When a server has started again after a crash, with no other steps in between, exactly the active tasks have entries, each idle, with a cron job and a build under way |
| RunEngineContainers.LaunchSpends | src/plugins/task/task.service.ts:112-113 | Once the container of a run has been launched nothing else in this server process can launch it |
| RunEngineContainers.LaunchedAgainOnlyAfterCrash | src/plugins/task/task.service.ts:112-113 | If the container of a run is launched twice, the server has crashed after the first launch, and the `running` update has not been executed before the second |
| RunEngineContainers.MarkedIsNotLaunchedAgain | src/plugins/task/task.service.ts:112-113 | Once the `running` update of a run has been executed its container is never launched again, whatever crashes follow |
| RunEngineRelaunches.CanLaunchIff | src/plugins/task/task.service.ts:101-113 | From every reachable state, for every run row: some continuation launches the container of the run, for the first time or again, if and only if the cap is at least 1 and the row is pending, or stopped while a closure or an activity has its launch still ahead |
| RunEngineRelaunches.AfterCrashIff | src/plugins/task/task.service.ts:23-49 | After a crash the container of a run can be launched, whether it was launched before or not, if and only if the cap is at least 1 and the row is still pending |
| RunEngineWitness.ContainerIsLaunchedTwice | src/plugins/task/task.service.ts:23-49 | A reachable run in which a crash between launch and update does make the container start twice, so the condition above cannot be dropped |
| RunEngineWitness.StoppedRunIsLaunched | src/plugins/task/task.service.ts:176-198 | A concrete reachable run in which a closure queued before a stop takes the stopped row to `running` after a start |
| RunEngineRecords.HandleIsContainer | src/plugins/task/task-run.service.ts:98-107 | Handle and start time of a row are those of one `running` update for this run, and the handle is that of the container that an earlier step launched for it |
| RunEngineRecords.FinishedWhen | src/plugins/task/task-run.service.ts:109-124 | The finish time of a row is the moment of the step that ended the run, or that stopped it while it was pending |
| RunEngineRecords.RunWasTicked | src/plugins/task/task.service.ts:61-79 | Every row goes back to a tick of the cron job of its task, whose callback found the task there and active |
| RunEngineRecords.TaskWasRequested | src/plugins/task/task.service.ts:151-158 | Every task goes back to a received request to create a task with just its `times` |
| RunEngineRecords.BodyWasRequested | src/plugins/task/task.service.ts:200-208 | The configuration of a task is that of a received request: the creation, or an update of this very task |
| RunEngineEffects.ActivityIsRequested | src/plugins/task/task.service.ts:141-209 | Between any two statements of a request: the request was received while the server was listening, began this very activity, and named the task and values with which it goes on |
| RunEngineEffects.StepChangesRuns | src/plugins/task/task-run.dao.ts:21-60 | Every step of every activity: a row is inserted pending, marked running with handle and start, finished with its status and time, stopped if it was pending, deleted with its task, or exactly as before |
| RunEngineEffects.StepChangesTasks | src/plugins/task/task.dao.ts:42-66 | Every step: a task row is inserted active, activated, deactivated, given a new configuration, deleted, or exactly as before |
| RunEngineEffects.ResumeMovesOn | src/plugins/task/task.service.ts:61-209 | Every resumption of every activity, whatever it is answered: whether it is the last one, and otherwise what the activity does next and with which values |
| RunEngineEffects.FirstInFirstOut | src/workdir/contract/queue/in-memory-task-queue.ts:22-39 | Within the engine: what was handed to the queue since the last crash is, in this order, what has been begun followed by what waits |
| RunEngineEffects.RestartInOrder | src/plugins/task/task.service.ts:23-49 | A starting server takes the active tasks by id and queues the pending runs of each by rank |
| RunEngineEndings.LastRunStopsTask | src/plugins/task/task.service.ts:120-125 | When the container of an ended run is deleted, its executor goes on to stop the task if and only if the rank of the run is the `times` of the task |
| RunEngineEndings.DeactivatedOnlyBy | src/plugins/task/task.service.ts:87-126 | A task becomes inactive only by a received request to stop it, by a run of it in which something has failed, or by the run whose rank is its `times` |
| RunEngineEndings.FailedRunStopsTask | src/plugins/task/task.service.ts:87-98 | `stopTask` is called by an executor only for the task of its run, after a call or a statement of that run has failed |
| RunEngineEndings.RefusedOnlyAtLimit | src/plugins/task/task.service.ts:69-72 | A callback is refused only when the task has as many rows as its `times` allows, or is gone: no room comes back until the callback ends |
| RunEngineEndings.StepChangesEntries | src/workdir/contract/scheduler/cron-task-scheduler.ts:18-50 | Every step: an entry is made idle, started by the end of a build, stopped, dropped, lost in a crash, or as before |
| RunEngineEndings.GoingJobWasBuilt | src/plugins/task/task-executor.service.ts:54-58 | A cron job that goes was started by the end of a build of its task |
| RunEngineRequests.TickUndisturbed | src/plugins/task/task.service.ts:61-81 | A tick of an active task with room and a free lock, undisturbed: exactly one new pending row, of rank count + 1, a free lock again, and its closure about to be queued |
| RunEngineRequests.RefusedUndisturbed | src/plugins/task/task.service.ts:69-72 | A tick of a task at its limit, undisturbed: its cron job is stopped, and nothing else changes |
| RunEngineRequests.HandOverUndisturbed | src/workdir/contract/queue/in-memory-task-queue.ts:22-39 | A closure handed to the queue is begun at once in a free slot, and otherwise waits at the end |
| RunEngineRequests.RunUndisturbed | src/plugins/task/task.service.ts:101-117 | A run of an active task, undisturbed: its row tells container, start, end and, by the exit code, the status; nothing else changes |
| RunEngineRequests.LastUndisturbed | src/plugins/task/task.service.ts:120-125 | After the run of the last rank, undisturbed: the cron job of the task is stopped and the task inactive, and nothing else changes |
| RunEngineRequests.FailureGoesToStop | src/plugins/task/task.service.ts:87-98 | Whatever call or statement of a run fails, its executor goes on to stop the task of the run, and the database is as before |
| RunEngineRequests.DoneUndisturbed | src/workdir/contract/queue/in-memory-task-queue.ts:40-49 | The slot of an executor that is done goes to the run at the head of the queue, if one waits |
| RunEngineRequests.CreateUndisturbed | src/plugins/task/task.service.ts:141-162 | In every run a request to create a task, undisturbed: an active row as requested under an id without entry, an idle job and a build |
| RunEngineRequests.BuildUndisturbed | src/plugins/task/task-executor.service.ts:54-58 | A build that ends makes the job of its task go if that has one, and a build that fails changes nothing |
| RunEngineRequests.StopUndisturbed | src/plugins/task/task.service.ts:176-186 | A request to stop an active task, undisturbed: it is inactive, its job is stopped, exactly its pending runs are, and nothing else changes |
| RunEngineRequests.StartUndisturbed | src/plugins/task/task.service.ts:188-198 | A request to start a stopped task, undisturbed: it is active; an entry that is there stays as it is, and only a task without one gets an idle job and a build |
| RunEngineRequests.UpdateUndisturbed | src/plugins/task/task.service.ts:200-209 | A request to update a task, undisturbed: the new configuration, the same `times` and activity, a new idle job and a build |
| RunEngineRequests.DeleteUndisturbed | src/plugins/task/task.service.ts:164-174 | A request to delete a stopped task, undisturbed: no row, run or entry of it, and everything else as before |
| RunTable.RanksAreExactlyOneToCount | src/plugins/task/task-run.service.ts:68-90 | Distinct ranks within 1..n on n rows are exactly 1..n: no gap and no repetition |
| TaskRunService.TaskRunService.TryToRegister | src/plugins/task/task-run.service.ts:77-96 | Registers if and only if the lock was obtained, the statements succeed and the limit leaves room; the new rank is count + 1; ranks of every limited task stay 1..n; the lock is released on every way out |
| TaskRunService.TaskRunService.IsRunAllowed | src/plugins/task/task-run.service.ts:68-75 | Without a limit always, otherwise exactly while the count is below the limit; the rank is one more than the count |
| TaskRunService.NextRankKeepsRanks | src/plugins/task/task-run.service.ts:84-90 | A row with rank count + 1 keeps the ranks of its task 1..n |
| ResourceMutex.InMemoryMutex.TryEnter | src/lib/async.utils.ts:39-49 | One test: it gives up after `retryNumber` tests, otherwise enters if and only if the label is free, and locks that label alone |
| ResourceMutex.InMemoryMutex.Run | src/lib/async.utils.ts:30-54 | Enters on the first of `retryNumber` tests that finds the label free, whatever others do to the lock set in between, and fails after exactly `retryNumber` tests if none does |
| TaskQueue.InvAlways | src/workdir/contract/queue/in-memory-task-queue.ts:22-49 | After every sequence of events: FIFO prefix, starts split into running and completed, cap respected, no idle slot while something waits |
| TaskQueue.CountLaw | src/workdir/contract/queue/in-memory-task-queue.ts:22-49 | Closed form: started = min(enqueued, completed + cap), for every integer cap and every sequence of events |
| TaskQueue.BoundedAndWorkConserving | src/workdir/contract/queue/in-memory-task-queue.ts:31-37 | In-flight work never exceeds the cap, and with a free slot nothing waits |
| TaskQueue.FifoAndConservation | src/workdir/contract/queue/in-memory-task-queue.ts:22-49 | Jobs start in the order of arrival, the rest still waits, and every job is exactly once in completed, in flight or waiting |
| TaskQueue.FailureTolerant | src/workdir/contract/queue/in-memory-task-queue.ts:40-63 | Whatever the executors do, no call of `executeNext` ends with an error, and the whole run is the one in which they all return |
| TaskQueue.BareQueueRejects | src/workdir/contract/queue/in-memory-task-queue.ts:40-63 | Why: with executors queued undecorated the `finally` block would still give every slot back, but each error of an executor would become one unhandled rejection |
| TaskQueue.InMemoryTaskQueue.CallDecorated | src/workdir/contract/queue/in-memory-task-queue.ts:55-62 | A decorated executor ends normally, however the executor ends |
| TaskQueue.InMemoryTaskQueue.Settle | src/workdir/contract/queue/in-memory-task-queue.ts:40-49 | Whether the awaited function returned or threw, the slot is given back and taken again if something waits, and the call then ends as the function did |
| TaskQueue.InMemoryTaskQueue.Finished | src/workdir/contract/queue/in-memory-task-queue.ts:40-63 | Both together, for every way an executor may end: the slot is given back, the invariant is kept, and no error gets out |
| TaskQueue.InMemoryTaskQueue.Add | src/workdir/contract/queue/in-memory-task-queue.ts:22-29 | The program follows the specification, with its invariant; what is started now and what still waits are the old queue with the job at its end |
| TaskQueue.InMemoryTaskQueue.StartNext | src/workdir/contract/queue/in-memory-task-queue.ts:31-39 | Starts the head of the queue if and only if load and queue allow it |
| ListSchedule.TimelineOk | src/workdir/contract/queue/in-memory-task-queue.ts:22-49 | While something waits all slots have been busy since time 0: started work = cap times elapsed time + work left in flight, for every timing |
| ListSchedule.StartBound | src/workdir/contract/queue/in-memory-task-queue.ts:22-49 | Job k of a batch starts no later than (d0 + ... + d(k-1)) / m: once that time has passed it has started, and not after it |
| ListSchedule.MakespanBound | src/workdir/contract/queue/in-memory-task-queue.ts:22-49 | No job ends later than (sum of all d) / m + (1 - 1/m) * (longest d), and once that time has passed nothing waits, nothing is in flight and all jobs have completed |
| ListSchedule.TimeCanPass | src/workdir/contract/queue/in-memory-task-queue.ts:31-49 | From every state of a batch the clock can be taken past every moment: some job in flight ends first, and its slot goes on |
| ListSchedule.BatchCanEnd | src/workdir/contract/queue/in-memory-task-queue.ts:31-49 | So every run of a batch can be continued until all its jobs have ended |
| ListSchedule.WithinTwiceAnyPlacement | src/workdir/contract/queue/in-memory-task-queue.ts:22-49 | The same with 2 - 1/m times the makespan of any placement of the jobs on m machines, an optimal one included |
| TaskLifecycle.InvAlways | src/plugins/task/task.service.ts:141-198 | With atomic requests, in every run: every active task has a schedule entry, every entry belongs to an existing task, every run row has a task, names are unique |
| TaskLifecycle.ConflictIff | src/plugins/task/task.service.ts:146-149 | A creation is refused if and only if the same group already has a task with the same configured name |
| TaskLifecycle.Isolation | src/plugins/task/task-executor.service.ts:99-155 | No event of one task touches the row, runs, schedule entry, containers or image of another task |
| TaskLifecycle.StopIsComplete | src/plugins/task/task.service.ts:176-186 | A stop answers by existence and activity of the task; when it is done the task is inactive, its entry and exactly its pending runs are stopped, its containers do not run, except those whose stopping failed or that were not listed, and nothing else has changed |
| TaskLifecycle.DeleteIsComplete | src/plugins/task/task.service.ts:164-174 | A deletion succeeds exactly on existing stopped tasks and leaves no row, run, entry or image; the containers of the task that remain are exactly those that had exited before, or whose deletion failed |
| TaskLifecycle.UpdateIsComplete | src/plugins/task/task.service.ts:200-209 | An update succeeds exactly on existing tasks: name, limit, activity and runs stay, entry and build are new and the entry is idle; the containers that remain are exactly those that had exited before, or whose deletion failed |
| TaskLifecycle.ExitedContainerStays | src/workdir/contract/env/docker/docker-env-runner.ts:64-76 | A concrete run in which no call fails and yet a container outlives its task: the server restarts while it runs, it exits, and the listing behind the deletion shows running containers only |
| TaskLifecycle.DeletedForGood | src/plugins/task/task.service.ts:164-174 | A deleted task has no row and no entry in any continuation, builds that end late included |
| TaskLifecycle.LateStartChangesNothing | src/workdir/contract/scheduler/cron-task-scheduler.ts:41-46 | In every run, a `scheduler.start` that comes when the task has no row changes no row, entry, run or container |
| TaskLifecycle.CreateIsComplete | src/plugins/task/task.service.ts:141-162 | A creation is refused without effect or gives exactly one new active row, one idle entry and one build, under an id that had none |
| TaskLifecycle.StartIsComplete | src/plugins/task/task.service.ts:188-198 | A start answers by existence and activity of the task, makes it active, and adds an idle entry and a build exactly when there was no entry |
| TaskLifecycle.BuiltStarts | src/plugins/task/task-executor.service.ts:54-58 | A build that ends starts the entry of its task if it has one, leaves the image, takes one build away and changes no other entry or image |
| TaskLifecycle.NewTaskTicksIff | src/plugins/task/task-executor.service.ts:32-59 | After a creation, and until something stops, replaces or removes the entry or a build of the task fails, the cron job goes if and only if the build has ended |
| TaskLifecycle.RescheduledTaskTicksIff | src/plugins/task/task.service.ts:23-33 | The same after an update of a task, and for every active task after a restart |
| TaskLifecycle.NoRunsLeftIsComplete | src/plugins/task/task.service.ts:120-125 | After the last run the task is inactive, its entry is stopped, its image gone, and none of its containers runs, except those that could not be stopped; nothing else changes |
| TaskLifecycle.UnscheduledStops | src/plugins/task/task-executor.service.ts:94-97 | A callback without room stops the entry of its task and changes nothing else |
| TaskLifecycle.RestartIsComplete | src/plugins/task/task.service.ts:23-33 | After a restart exactly the active tasks have entries, all idle, with one build each; rows, runs, containers and images stay |
| TaskLifecycle.StartTicksIff | src/plugins/task/task.service.ts:188-198 | Starting a stopped task makes it active with an entry; its cron job goes if and only if it had no entry or would have gone anyway |
| TaskLifecycle.StoppedThenStartedIsIdle | src/plugins/task/task-executor.service.ts:32-59 | A task stopped when no build is under way has no cron ticks, started again or not, until it is updated or deleted or the server restarts |
| TaskLifecycle.FailedBuildIsIdle | src/plugins/task/task-executor.service.ts:54-58 | A task whose only build fails has no cron ticks, in every continuation, until it is updated or the server restarts |
| TaskLifecycle.TaskService.CreateTask | src/plugins/task/task.service.ts:141-162 | Refines the create step of the lifecycle: refused without effect when the group has the name, otherwise an active row under an id never used and an entry that is not started |
| TaskLifecycle.TaskService.DeleteTask | src/plugins/task/task.service.ts:164-174 | Refines the delete step: refused without effect for a missing or active task, otherwise rows, runs, entry, image and running containers go, and exited containers stay |
| TaskLifecycle.TaskService.StopTask | src/plugins/task/task.service.ts:176-186 | Refines the stop step: refused without effect for a missing or inactive task, otherwise only pending runs are stopped and other runs keep their status |
| TaskLifecycle.TaskService.StartTask | src/plugins/task/task.service.ts:188-198 | Refines the start step: an existing entry is left as it is, ticking or not |
| TaskLifecycle.TaskService.UpdateTask | src/plugins/task/task.service.ts:200-209 | Refines the update step: running containers and the image go, the entry is new, and name, `times` and activity of the task stay |
| TaskLifecycle.TaskService.RegisterFromDatabase | src/plugins/task/task.service.ts:23-33 | A new process has entries and builds for exactly the active tasks |
| TaskLifecycle.TaskExecutorService.ScheduleExecutable | src/plugins/task/task-executor.service.ts:32-59 | Nothing if the entry exists, otherwise an entry that is not started and one build |
| TaskLifecycle.TaskExecutorService.FinishBuild | src/plugins/task/task-executor.service.ts:54-58 | A finished build leaves the image, and the cron job of the task goes if its entry still exists |
| TaskLifecycle.TaskExecutorService.CallForAllChildren | src/plugins/task/task-executor.service.ts:138-155 | Every running container of exactly this image is stopped or deleted, failing ones excepted, and no other container changes, exited ones included |
| TaskLifecycle.TaskExecutorService.DeleteExecutable | src/plugins/task/task-executor.service.ts:99-104 | Entry, image and running containers of the task go, and nothing else |
| TaskLifecycle.TaskExecutorService.StopExecutable | src/plugins/task/task-executor.service.ts:118-126 | The entry is stopped, not removed, and the containers of the task are stopped |
| TaskNames.IdentifierTellsTask | src/plugins/task/task.utils.ts:21-22 | An identifier is `prescott_` followed by the decimal digits of the id, which read as that id |
| TaskNames.IdentifierInjective | src/plugins/task/task.utils.ts:21-22 | Different tasks have different identifiers `prescott_<id>` |
| TaskNames.UniqueNameInjective | src/plugins/task/task.utils.ts:18-19 | `<groupId>_<name>` determines group and name, for all ids and names, underscores in names included |
| StepCompiler.BuildTaskCmd | src/plugins/task/task.utils.ts:5-16 | The builder loop yields the specified line for every list of steps |
| StepCompiler.LineReadsAsCompiled | src/plugins/task/task.utils.ts:5-16 | For operator-free scripts the line, read character by character, is the list with one command per step, joined where the step does not ignore failures |
| StepCompiler.CommandLineMeansSteps | src/plugins/task/task.utils.ts:5-16 | Read as AND-OR lists (section 2.9.3 of the POSIX.1-2017 Shell Command Language) and evaluated for any outcomes, step i runs iff all steps from the last ignoring one up to it succeeded, and the exit status is zero iff all steps from the last ignoring one on succeeded |
| StepCompiler.NoExitAgrees | src/plugins/task/task.utils.ts:8-13 | An evaluation in which `exit` ends the shell agrees with that of the lists on every list without `exit` |
| StepCompiler.ExitEscapes | src/lib/command-builder.ts:15-18 | A step that calls `exit` is not one command among others: the step after it, though it asks to ignore failures, runs iff the `exit` is not reached, and the status is that of the one of the two that runs last |
| StepCompiler.CompiledMeans | src/plugins/task/task.utils.ts:8-13 | The evaluation of the list as nested AND-OR lists agrees with the direct reading of the steps |
| StepCompiler.SemicolonEscapes | src/lib/command-builder.ts:15-18 | Outside operator-free scripts the meaning is lost: a script `a;b` is two commands, the second runs whatever failed before, and it alone decides the exit status |
| StepCompiler.IdentifierIsPlain | src/plugins/task/task.utils.ts:21-22 | The separator that the line begins with is operator-free for every task |
| Paging.Search | src/lib/paging.utils.ts:10-36 | The loop with its early break returns the page of the reference (filter, drop, take), for every sequence, predicate, `from` and page size, non-positive ones included; for `pageSize` >= 1 that page holds, from match number `from` (0 by default) on, as many matches as there are, but at most `pageSize` (1000 by default and at most), and `next` is from + p + 1 if the page is full and absent otherwise |
| Paging.PageIsRequested | src/lib/paging.utils.ts:15-33 | The reference of filter, drop and take is the page that the request asks for, defaults and the cap of 1000 included |
| Paging.Paginator.Process | src/lib/paging.utils.ts:21-28 | After every entry the two fields are what the matches so far make them |
| Paging.BreakIsFinal | src/lib/paging.utils.ts:27-27 | What is not read after the break could not have been on the page |
| Paging.FilterIsExact | src/lib/paging.utils.ts:22-22 | The reference keeps exactly the matching entries in their order |
| Paging.PageIsBounded | src/lib/paging.utils.ts:15-33 | A page stays within the requested size exactly when the size is positive or something is skipped |
| Paging.PagesCoverTheMatches | src/lib/paging.utils.ts:10-36 | Pages from 0, each from the `next - 1` of the one before, hold every match once and in order; there are floor(M / p) + 1 of them |
| Paging.ChainByNextIsComplete | src/lib/paging.utils.ts:31-31 | Following `next` itself gives all matches if and only if they fit on one page |
| Paging.NextSkipsOneMatch | src/lib/paging.utils.ts:31-31 | Following `next` itself skips exactly the one match between the two pages |
| Paging.CheckersAreExact | src/workdir/contract/log/file-log-provider.ts:51-79 | The list of checkers passes an entry iff it is within the dates and its content matches a non-empty search term |
| Paging.SearchLog | src/workdir/contract/log/file-log-provider.ts:81-102 | The page that the request asks for, out of exactly the entries that lie within the dates and match a non-empty term |
| MetricAggregate.AggregateMetric | src/workdir/contract/metric/file-metric-provider.ts:112-129 | One pass gives, for exactly the attributes between the commas, the summary (max, min, mean, count, variance) of the column of the entries that lie within the dates |
| MetricAggregate.SearchMetric | src/workdir/contract/metric/file-metric-provider.ts:94-110 | The page that the request asks for, out of exactly the entries that lie within the dates |
| MetricAggregate.CheckersAreExact | src/workdir/contract/metric/file-metric-provider.ts:58-81 | The list of checkers passes an entry iff its time lies within the dates, bounds included |
| MetricAggregate.ColumnIsExact | src/workdir/contract/metric/metric-aggregate.utils.ts:117-123 | A column holds, in order, the values of exactly the entries that have the attribute; every entry has `time` |
| MetricAggregate.SplitIsExact | src/workdir/contract/metric/file-metric-provider.ts:117-118 | The attributes are the only texts without a comma that, joined by commas, give the text that was sent |
| MetricAggregate.AttributeAccumulator.Add | src/workdir/contract/metric/metric-aggregate.utils.ts:25-79 | After every value the five aggregators hold what the column so far makes them |
| MetricAggregate.AttributeAccumulator.Build | src/workdir/contract/metric/metric-aggregate.utils.ts:81-105 | The summary of the column, all zeros when it is empty |
| MetricAggregate.AttributeAccumulator.BuildVariance | src/workdir/contract/metric/metric-aggregate.utils.ts:72-77 | The mean squared distance from the mean |
| MetricAggregate.EntryAccumulator.constructor | src/workdir/contract/metric/metric-aggregate.utils.ts:107-114 | One accumulator of its own for each distinct attribute |
| MetricAggregate.EntryAccumulator.Add | src/workdir/contract/metric/metric-aggregate.utils.ts:117-123 | An entry extends the column of exactly the attributes it has |
| MetricAggregate.EntryAccumulator.Build | src/workdir/contract/metric/metric-aggregate.utils.ts:124-130 | A summary for exactly the attributes asked for |
| MetricAggregate.OrderDoesNotMatter | src/workdir/contract/metric/metric-aggregate.utils.ts:107-132 | Permuting the stream does not change any number |
| MetricAggregate.SummaryPermuted | src/workdir/contract/metric/metric-aggregate.utils.ts:25-79 | A summary depends on the values alone, and is unique |
| MetricAggregate.VarianceIsMeanOfSquaresLessSquare | src/workdir/contract/metric/metric-aggregate.utils.ts:72-77 | Variance = mean of squares - square of mean |
| MetricAggregate.VarianceBounds | src/workdir/contract/metric/metric-aggregate.utils.ts:72-77 | 0 <= variance <= (max - avg) * (avg - min) <= (max - min)^2 / 4 |
| MetricAggregate.NoSpreadIffConstant | src/workdir/contract/metric/metric-aggregate.utils.ts:72-77 | The variance is zero iff minimum and maximum agree |
| MetricAggregate.MinAvgMax | src/workdir/contract/metric/metric-aggregate.utils.ts:25-54 | min <= avg <= max, the empty column included |
| CaseCodec.CamelRoundTrip | src/lib/case.utils.ts:1-7 | For ASCII strings decoding the encoded name gives it back iff no `-` or `_` stands immediately before a lower-case letter |
| CaseCodec.SnakeRoundTrip | src/lib/case.utils.ts:1-7 | For ASCII strings encoding the decoded name gives it back iff it has no upper-case letter and no `-` before a lower-case letter |
| CaseCodec.DecodedIsNormal | src/lib/case.utils.ts:1-4 | What decoding gives for any string: the only name without such a pair that is encoded as the string in lower case with an underscore for every dash before a letter |
| CaseCodec.LastKeyWins | src/lib/case.utils.ts:17-23 | A decoded record has distinct keys, every decoded key is among them, and its value is that of the last field with this decoded name |
| CaseCodec.RecordRoundTrip | src/lib/case.utils.ts:10-25 | A nested record written with the database's names and decoded is the original iff every key at every depth survives |
| CaseCodec.KeysDoNotCollide | src/modules/database/build-connection.ts:4-9 | Under the database's names no two such keys of a record collide, at any depth |
| RefreshSessions.InvAlways | src/plugins/authentication/authentication.service.ts:45-114 | With atomic requests, in every run a user has at most max(1, maxSessions) sessions and at most one for an address, and tokens are never reused |
| RefreshSessions.AcceptedAtMostOnce | src/plugins/authentication/authentication.service.ts:66-90 | Every refresh token is accepted at most once in a run, by refresh and logout together |
| RefreshSessions.PresentedTokenIsGone | src/plugins/authentication/refresh-session/refresh-session.dao.ts:38-48 | A token that has been presented is gone for good, even when the request was refused for its address or date |
| RefreshSessions.AliveIff | src/plugins/authentication/authentication.service.ts:66-114 | A session is there after a step iff the step issued it, or it was there, was not presented, and its user did not log in at the cap |
| RefreshSessions.RefreshKeepsTheOthers | src/plugins/authentication/authentication.service.ts:66-81 | A successful refresh replaces the one session and leaves every other session of the user and of everyone as it was |
| RefreshSessions.RefreshIsNotCapped | src/plugins/authentication/authentication.service.ts:101-104 | After the old row is gone the cap test of a refresh finds no other session to drop |
| RefreshSessions.LoginAtTheCap | src/plugins/authentication/authentication.service.ts:92-114 | A login is granted iff the password fits and the address has no session, expired ones included; at the cap only the new session is left, below it one is added |
| RefreshSessions.RefreshAcceptedIff | src/plugins/authentication/authentication.service.ts:66-80 | In every run a refresh is accepted iff its session is there, the address is the same and not more than `expiresIn` has passed |
| RefreshSessions.LoginAnswers | src/plugins/authentication/authentication.service.ts:45-64 | In every run, what a login answers: unknown user, then a session of the address, then the password; a refusal changes nothing |
| RefreshSessions.RefreshAnswers | src/plugins/authentication/authentication.service.ts:66-81 | In every run, what a refresh answers: no session or another address, then a passed date; a refused one loses its session and nothing else |
| RefreshSessions.LogoutGrantedIff | src/plugins/authentication/authentication.service.ts:83-90 | In every run a logout is granted iff its session is there and of the same address, and only this session goes, in either case |
| RefreshSessions.SessionHasIssuer | src/plugins/authentication/authentication.service.ts:92-114 | Every session row stems from one login or refresh of that user and address at that time, and its token has not been presented since |
| RefreshSessions.AuthenticationService.Login | src/plugins/authentication/authentication.service.ts:45-64 | Refines the login step: an unknown user, then an existing session of the address, then a wrong password is refused, each without effect and with its own message |
| RefreshSessions.AuthenticationService.RefreshTokens | src/plugins/authentication/authentication.service.ts:66-81 | Refines the refresh step: the row of the token goes even when the request is refused, and no other row changes then |
| RefreshSessions.AuthenticationService.Logout | src/plugins/authentication/authentication.service.ts:83-90 | Refines the logout step: the row of the token goes, also when the address is wrong, and only then is success reported |
| RefreshSessions.AuthenticationService.AddRefreshSession | src/plugins/authentication/authentication.service.ts:92-114 | Drops the sessions of the user, and of no other, iff they have reached the cap, then adds one row under a fresh token |
| GroupRoles.InvAlways | src/plugins/authorization/authorization.service.ts:21-118 | With atomic requests, in every run: owners are members, no membership and no (membership, role) pair is there twice, no row and no task dangles, group names are unique |
| GroupRoles.OwnerIsCreator | src/plugins/authorization/authorization.service.ts:21-29 | In every run the owner of a group is the user who created it, and is a member of it |
| GroupRoles.GroupsAfter | src/plugins/authorization/authorization.service.ts:31-33 | Name and owner of a group never change; it ends exactly by a deletion of its owner while no task refers to it |
| GroupRoles.MembershipChanges | src/plugins/authorization/authorization.service.ts:35-69 | A membership comes and goes by the granted requests for it, and by no other |
| GroupRoles.MemberGainedIff | src/plugins/authorization/authorization.route.ts:58-72 | A user becomes a member iff he creates the group under a new name, or is registered and is added by the owner or by a holder of `group_manager` in the group |
| GroupRoles.MemberLostIff | src/plugins/authorization/authorization.route.ts:74-90 | A membership ends iff the owner deletes the group while no task refers to it, or somebody else removes the member: the owner, or, under the intended reading alone, a `group_manager`, if the member is neither owner nor manager |
| GroupRoles.RoleLostIff | src/plugins/authorization/authorization.service.ts:99-118 | A role ends iff the membership does, or it is taken away by the owner, or by a `role_manager` unless it is a manager role; never by the member himself |
| GroupRoles.RolesAfter | src/plugins/authorization/authorization.service.ts:71-118 | What a step does to the roles of any user in any group: a refused request nothing, a granted one exactly what it asks for |
| GroupRoles.ManagerRoleLostOnlyToOwner | src/plugins/authorization/authorization.service.ts:50-69 | Under either reading of the guard, a manager loses that role only in a step of the group's owner |
| GroupRoles.RoleGainedOnlyFrom | src/plugins/authorization/authorization.service.ts:71-97 | A role is gained iff it is asked for a member other than the caller by the owner, or, under the intended reading alone, by a role manager for a user who is not yet a manager |
| GroupRoles.ManagerUnmadeByOwner | migrations/20211219221220_fill-roles-and-permissions.ts:39-91 | The same for the tables as the migration fills them, in every run: a manager loses that role only in a step of the owner |
| GroupRoles.RoleGivenIff | migrations/20211219221220_fill-roles-and-permissions.ts:39-91 | The same for the tables as the migration fills them, in every run: the exact condition for a role to be gained |
| GroupRoles.OthersChangeNothing | src/plugins/authorization/authorization.hooks.ts:28-79 | A caller who is neither owner nor manager changes neither the group nor any membership or role in it |
| GroupRoles.PermissionHookIff | src/plugins/authorization/authorization.hooks.ts:40-60 | The permission check passes iff the group exists and the caller owns it or holds in it a role to which the migration grants the permission |
| GroupRoles.WhoPasses | migrations/20211219221220_fill-roles-and-permissions.ts:4-91 | With the tables of the migration: the owner passes every check, and otherwise exactly the holders, in this group, of the roles listed for the permission |
| GroupRoles.AddUserAnswers | src/plugins/authorization/authorization.service.ts:35-48 | What adding a user answers, and in which order: no group, no right, no such user, already a member |
| GroupRoles.DeleteUserAnswers | src/plugins/authorization/authorization.service.ts:50-69 | What removing a member answers, under either reading: himself, a manager or the owner, and otherwise granted |
| GroupRoles.AddRoleAnswers | src/plugins/authorization/authorization.service.ts:71-97 | What giving a role answers, under either reading, and in which order |
| GroupRoles.DeleteRoleAnswers | src/plugins/authorization/authorization.service.ts:99-118 | What taking a role answers: himself, a manager role by another than the owner, an unknown role or member, and otherwise granted |
| GroupRoles.GroupAnswers | src/plugins/authorization/authorization.service.ts:21-33 | What creating and deleting a group answer: a taken name; no group, another than the owner, a task that refers to it |
| GroupRoles.AuthorizationService.FindPermissions | src/plugins/authorization/permission/permission.dao.ts:6-16 | Exactly the permissions that the four-table join yields |
| GroupRoles.AuthorizationService.FindRoles | src/plugins/authorization/role/role.dao.ts:12-21 | Exactly the names of the roles the user holds in the group |
| GroupRoles.AuthorizationService.FindUserGroup | src/plugins/authorization/group/group.dao.ts:16-21 | The one membership of the user in the group, if any |
| GroupRoles.AuthorizationService.RoleHook | src/plugins/authorization/authorization.hooks.ts:62-78 | Passes owners and holders of the role in an existing group, and nobody else |
| GroupRoles.AuthorizationService.PermissionHook | src/plugins/authorization/authorization.hooks.ts:40-60 | Passes owners and those whom the join gives the permission, and nobody else |
| GroupRoles.AuthorizationService.CreateGroup | src/plugins/authorization/authorization.service.ts:21-29 | Refines the create step: a taken name is refused without effect, otherwise the creator owns the group and is its first member |
| GroupRoles.AuthorizationService.DeleteGroup | migrations/20211205185959_create-tasks-tables.ts:6-6 | Refines the delete step: refused without effect while a task refers to the group, otherwise its memberships go, and with them exactly their role rows |
| GroupRoles.AuthorizationService.AddUserToGroup | src/plugins/authorization/authorization.service.ts:35-48 | Refines the add step: unknown users and members are refused without effect, otherwise one membership more |
| GroupRoles.AuthorizationService.DeleteUserFromGroup | src/plugins/authorization/authorization.service.ts:50-69 | Refines the removal step under either reading of the guard: nobody removes himself or the owner, and non-owners remove no manager |
| GroupRoles.AuthorizationService.AddUserRole | src/plugins/authorization/authorization.service.ts:71-97 | Refines the step that gives a role, under either reading of the guard: not to himself, not twice, not to a non-member |
| GroupRoles.AuthorizationService.DeleteUserRole | src/plugins/authorization/authorization.service.ts:99-118 | Refines the step that takes a role: not from himself, and a manager role only by the owner; all other role rows stay |
| GroupRoles.AuthorizationService.Handle | src/plugins/authorization/authorization.route.ts:30-125 | Refines a whole request behind its hook: owners alone delete a group, `group_manager` is the role for members and `role_manager` the role for roles; what the hook refuses has no effect, what it lets pass makes the step, and the invariant is kept |

## Left out

- Routes, plugins, schemas, error mapping: wiring and declarative validation.
- Docker, log and metric streaming: a container is a handle, an image and an exit code. In RunEngine only the launch is visible, and its containers and images are those of TaskLifecycle.
- SQL: each statement is one atomic operation on a table, with the cascades and foreign keys of the migrations. A statement that fails has no effect.
- Ids, tokens: fresh numbers. Passwords, JWT, base64 and regular expressions: parameters or already applied.
- GroupRoles: tasks appear only as references to groups; the hook in front of the task requests checks the group named in the address, and the requests themselves go by the task id alone.
- Cron timing: in RunEngine a tick may come at any time from any cron job this process has created, stopped or replaced ones included, so nothing is proved about when ticks stop.
- Liveness: that a waiting callback ever gets the lock, or that a queued run ever ends, depends on fairness.
- RunEngineTheorems.LimitAndRanks: is about tasks with `times`; without it the rank is `Infinity + 1`, here `Unbounded`, on every row.
- TaskLifecycle.InvAlways: takes requests as atomic and statements as successful; between the steps of a request an active task may have no entry yet.
- RefreshSessions.InvAlways: takes requests as atomic; logins of one user that overlap could pass the cap test together.
- RefreshSessions.AcceptedAtMostOnce: takes requests as atomic; the row is selected and deleted by two statements.
- GroupRoles.InvAlways: takes requests as atomic; `user_groups` and `user_roles` have no unique constraints that would stop overlapping requests.
- StepCompiler.CommandLineMeansSteps: is about scripts of plain words; quotes, expansions, pipes and reserved words (`function` and `select` among them) are not parsed. Excluded are also the special built-in utilities of section 2.14 (`exit`, `exec`, `set`, `trap`, `return`, `eval` and the others), which act on the shell itself, and `command`, which may call them. SemicolonEscapes and ExitEscapes show why such restrictions are needed.
- Docker images: they are identified by name in TaskLifecycle. A container that runs from an earlier build, after a later one has taken over the name, may be missing in the listing: it counts as stuck there. The refusal to remove an image that a container still uses is not modelled.
- Control characters in scripts: tabs, line ends and the like are rewritten on the way to the shell, and are outside the plain words.
- Shells: aliases, functions defined elsewhere, and signals sent to the shell are not modelled.
- MetricAggregate.AggregateMetric: real numbers instead of floating point, the variance instead of its square root, no `toFixed(3)`; attributes that every JavaScript object inherits are not considered.
- CaseCodec.RecordRoundTrip: is about ASCII keys, for which `toLowerCase` changes the letters A to Z only.
- ListSchedule.StartBound: is about jobs that are enqueued together at time 0.
- TaskLifecycle.TaskService.RegisterFromDatabase: the pending runs it enqueues, and the order by id, are in RunEngine.
- Users, registration of users, time zones of dates, flushing of log and metric files: only easy members.
- Contract loading, configuration, paths and files: mostly module loading and validation.
