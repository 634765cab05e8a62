# A verified model of the container orchestrator

The orchestrator has a *manager*, which queues task events, chooses a worker for each new task and follows
the tasks up, and *workers*, each with a dispatcher that creates containers under a concurrency limit and a
service that moves tasks through their lifecycle.  This project models both, together with the schedulers
and the task stores, and proves what holds over all their runs.  `dafny verify dfyconfig.toml` checks all of it.

| file | content |
|---|---|
| `TaskState.dfy`, `Tasks.dfy` | lifecycle states, the transition table, tasks and events |
| `Dispatcher.dfy` | queue, slots, re-queueing and cancellation as a transition system of atomic steps |
| `Goroutines.dfy` | the dispatcher together with all worker operations, in atomic steps over either store |
| `SlotOwnership.dfy`, `Interleaving.dfy`, `Restarts.dfy` | what holds in every interleaving of these steps |
| `Refinement.dfy`, `Endings.dfy` | the operations alone put what their specification writes; in any company they end |
| `LostOwners.dfy` | how slot ownership is lost if callers do not do what is expected of them |
| `WorkerSpec.dfy`, `WorkerRuns.dfy` | the worker's operations as writes to its store, and their serial runs |
| `Outcomes.dfy` | what each operation leaves in the store, field by field |
| `Listings.dfy` | what it matters in which order a store lists its tasks |
| `Stores.dfy` | the task store on the heap: in memory (pointers) and persistent (copies) |
| `WorkerService.dfy` | the worker's operations on the heap, proved against `WorkerSpec` |
| `OutputStream.dfy` | the output of a command: process server, client, stored task |
| `CpuUsage.dfy`, `Floats.dfy`, `Epvm.dfy`, `Scheduler.dfy` | wrapping CPU counters, numbers that can be NaN, the E-PVM cost, nodes and schedulers |
| `ManagerModel.dfy`, `ManagerRuns.dfy`, `RoundRobinRuns.dfy` | the manager as a transition system, and its runs |
| `ManagerOutcomes.dfy` | what each step of the manager leaves, field by field |
| `TaskTable.dfy`, `ManagerService.dfy` | the manager's task store, and the manager, on the heap, proved against `ManagerModel` |

## How the code is read

* Some files do not compile as they stand.  `te.Task.ID`, `te.Task.State`, `t.Disk` and `t.Memory` are read as
  the task's metadata id, its status, and integer resource fields.  `Manager.worker`, which `New` never sets,
  is taken to be there.
* A worker's operations are modelled twice: serially, with all their data, over either store on the heap
  (`WorkerService`), and as atomic checks, copies, assignments and Puts of goroutines that overlap, with ids and
  states only (`Goroutines`).  `Refinement` shows that the two agree on what an operation stores if no other one
  comes between.
* A serial run is any sequence of operations, on whatever tasks their callers hand in and under whatever ids.  Where
  a result needs that StartTask, StopTask and failTask get the stored task, its row says so.
* The worker's locks guard single accesses to its slot counter and its list of workers, and are part of those steps.
* Each store lists its tasks in an order of its own, the in-memory store in another one each time.
* The persistent stores of the manager may hold tasks and events from before when they are opened.
* What the sandbox, the network, the clock and the worker processes do comes in as a parameter and may be
  anything: a container id, a changed network configuration or an error; a refused, lost, partial or complete
  reply; a task list or none.
* `ExecuteCommand` can fail only before its receiving goroutine exists, so a command either has an error or
  outputs (`OutputStream.Execution`).
* In the in-memory store of the manager a key leads to a variable, and two keys may lead to the same one.
* The exponential of the E-PVM scheduler is a function parameter that is positive, strictly increasing, and
  turns sums into products.  `float64` is `real`, without rounding, and for scores also NaN and the infinities; the
  counters are words that wrap at 2^64.

## Where the code does something else than one expects

Each of these is stated as a lemma.

* Storing a finished task again is a write outside the transition table: `updateTaskStatus` does it for every
  recognised output that follows the end of a task.  So the states of a task walk through the table only up to
  repetitions (`WorkerRuns.FollowsTableExactlyWhen`).
* A task that can be created is created again under an id that is already stored: its states fall back to Creating
  (`WorkerRuns.SecondCreationFallsBack`), and only then (`WorkerRuns.LifecycleSafety`).
* "Completed is final" holds for serial runs without that (`WorkerRuns.LifecycleSafety`), and for overlapping
  operations as long as none of their steps is stale (`Interleaving.CompletedSurvivesFreshRuns`), over either store;
  `Interleaving.LateFailureReplacesCompleted` shows how it is lost, `Interleaving.LosesCompletedExactlyWhen` by which
  steps, and `Interleaving.ReplacesCompletedExactlyWhen` by which operations.
* In the manager the two stores part when a reply is decoded into the stored variable
  (`ManagerModel.StoresAgreeUnlessDecoded`).  A reply with another id is never repaired
  (`ManagerRuns.TasksStayOwnExactlyWhen`): with the next report it takes the place of another task, or is stored
  without being assigned (`ManagerRuns.ForeignReplyTakesOver`).
* `RegisterWorker` takes the first listed task of a container.  If two stored tasks carry the same container id, it
  depends on the listing which one is found, and the two stores can part (`Listings.ListingOrderDecides`,
  `Listings.StoresAgreeExactlyWhen`).
* A slot stands behind each task stored as Creating as long as tasks that can be created have ids of their own and
  `StartTask` is given a task that the store has shown; otherwise ownership can be lost
  (`LostOwners.ReusedIdLosesItsOwner`, `LostOwners.MadeUpStartLosesTheOwner`).
* The process server writes its states in capitals, the worker reads small letters: no command ever ends its
  task, unless the stream breaks (`OutputStream.ServerNeverEndsATask`).
* Both CPU samples are the same object, so the measured load is always 0 and the Greedy scheduler takes the
  first node with room (`Scheduler.Node.CalculateCpuUsage`, `Scheduler.SelectWorker`).  In the E-PVM cost the
  load cancels anyway (`Epvm.CpuLoadCancels`), a node that could not be measured beats all the others that have a
  size (`Scheduler.UnscoredWins`), and one that reports a total memory of 0 is picked exactly if it is the first
  candidate (`Scheduler.SizelessIsPickedOnlyFirst`).
* A failed POST puts a bare task in the queue, on which a later `SendWork` fails its type assertion
  (`ManagerRuns.OnlyFailedPostsCrash`).
* A restarted task is queued as Scheduled, and the worker never creates a container for it, however often it is
  restarted (`Restarts.RestartedTasksNeverRun`).
* A task that was found in the file and is placed again is stored anew, restart count included
  (`ManagerRuns.PlacementStoresAnew`).

## Model

| member | source | states |
|---|---|---|
| TaskState.TableIs | internal/core/domain/task/state_machine.go:57-81 | The table in full: which states lead into each state |
| TaskState.OnlyRestartsGoBack | internal/core/domain/task/state_machine.go:57-66 | A transition of the table goes back in the lifecycle if and only if it is a restart: to Scheduled, from Running or Failed |
| TaskState.CompletedIsFinal | internal/core/domain/task/state_machine.go:57-81 | No walk through the table, repetitions included, leaves Completed |
| TaskState.RunningOnlyAfterStarting | internal/core/domain/task/state_machine.go:57-81 | A walk that starts before Scheduled is Running only after it was Scheduled and then Starting |
| Dispatcher.SubmissionOutcome | internal/adapters/worker/worker_service.go:139-154 | AddTask refuses a Completed or Failed task and changes nothing; any other is accepted as it is, under a new id if it had none, and waits to be sent |
| Dispatcher.AcceptedAreSubmitted | internal/adapters/worker/worker_service.go:139-154 | Along every run exactly the tasks that AddTask does not refuse are accepted, in order and with an id |
| Dispatcher.FirstInFirstOut | internal/adapters/worker/worker_service.go:89-154 | Along every run the tickets in the buffer, followed by those put in, are those that the dispatcher has in hand after each time it took one, followed by the final buffer: the channel is a queue |
| Dispatcher.LaunchesKeepOrder | internal/adapters/worker/worker_service.go:91-104 | Goroutines are launched one after the other, each for the task in hand |
| Dispatcher.SenderGoesOnExactlyWhen | internal/adapters/worker/worker_service.go:106-154 | A sender, re-queueing or not, can go on if and only if the buffer has room or the dispatcher waits at an empty one |
| Dispatcher.SlotIsGivenExactlyWhen | internal/adapters/worker/worker_service.go:91-111 | The task in hand gets a slot if and only if fewer run than allowed; otherwise it is sent to the queue again by a goroutine of its own |
| Dispatcher.ExitsExactlyWhen | internal/adapters/worker/worker_service.go:86-116 | The dispatcher exits only after Shutdown, and then can whenever it waits, whatever is queued; neither touches any task |
| Dispatcher.StepKeepsInv | internal/adapters/worker/worker_service.go:86-154 | Every atomic step keeps: each ticket is held exactly once, launched at most once, and the slot counter is right and within the limit; the order in which tickets leave is `FirstInFirstOut` |
| Dispatcher.Conservation | internal/adapters/worker/worker_service.go:86-154 | In every reachable state, also after Shutdown, each accepted task is with exactly one of: blocked sender, buffer, dispatcher, re-queueing goroutine, running, finished; none is launched twice; `currentRunning` counts the granted and live goroutines and never exceeds the limit |
| Dispatcher.NothingStartsAfterExit | internal/adapters/worker/worker_service.go:113-116 | Once the dispatcher has exited no task is launched, whatever else happens |
| Dispatcher.DispatcherNeverBlocksHoldingATask | internal/adapters/worker/worker_service.go:89-111 | Whatever task the dispatcher holds, it has an enabled step of its own, however full its queue is |
| Dispatcher.EveryStepButARefusalProgresses | internal/adapters/worker/worker_service.go:86-154 | Every step but a submission makes the remaining work smaller, except finding no slot, which adds exactly 3, and cancelling and exiting, which leave it as it is |
| Dispatcher.RunLengthBound | internal/adapters/worker/worker_service.go:86-154 | Under any scheduling a run without new tasks is no longer than the work it started with plus four steps per refusal, plus its cancellations and exit |
| Dispatcher.Drain | internal/adapters/worker/worker_service.go:86-154 | From a state that can finish, a schedule of at most the remaining work finishes every accepted task |
| Dispatcher.DrainableExactlyWhen | internal/adapters/worker/worker_service.go:86-154 | For every queue size, 0 included, a reachable state can be drained if and only if nothing waits for a slot, or the limit is at least 1 and the dispatcher has not exited |
| Goroutines.StepIsSane | internal/adapters/worker/worker_service.go:86-460 | Every step leaves references leading somewhere, keys leading to their own tasks, and exactly the live goroutines of the dispatcher running |
| Goroutines.RefinesDispatcher | internal/adapters/worker/worker_service.go:86-203 | Every step of the joint system is a step of the dispatcher or leaves it alone |
| Refinement.CreateRefines | internal/adapters/worker/worker_service.go:159-203 | createContainer in atomic steps, with no other operation between, puts exactly what the serial specification writes, in order, for every outcome of the sandbox, and ends |
| Refinement.StartRefines | internal/adapters/worker/worker_service.go:265-308 | The same for StartTask; outputs can arrive afterwards if and only if the task could run and the command was sent |
| Refinement.StopRefines | internal/adapters/worker/worker_service.go:389-439 | The same for StopTask |
| Refinement.FailRefines | internal/adapters/worker/worker_service.go:444-453 | The same for failTask |
| Refinement.UpdateRefines | internal/adapters/worker/worker_service.go:344-384 | The same for updateTaskStatus, on recognised outputs, those for which the table has no way included |
| Refinement.RegisterRefines | internal/adapters/worker/worker_service.go:234-260 | The same for RegisterWorker once it has found the task of its container |
| Refinement.OneWay | internal/adapters/worker/worker_service.go:159-460 | Told the same by sandbox and client, an operation alone has only one way to its end, so that these runs are the only ones |
| Refinement.RefusedFails | internal/adapters/worker/worker_service.go:184-276 | In any company, an operation that finds its task changed between two parts fails the task if the table allows it, and ends |
| Refinement.RefusedEnds | internal/adapters/worker/worker_service.go:159-460 | One that is refused at its beginning ends without storing anything |
| Refinement.WorksOn | internal/adapters/worker/worker_service.go:159-460 | failTask and StartTask get a copy of the task; the rest of an operation works on one variable |
| Refinement.LaunchBegins | internal/adapters/worker/worker_service.go:101-103 | A launched goroutine begins createContainer on the task that was accepted under its ticket |
| Refinement.CallBegins | internal/adapters/worker/worker_service.go:208-460 | A call begins with the first check of its operation, on what the store shows or its caller hands in |
| Refinement.CallCanBegin | internal/adapters/worker/worker_service.go:208-460 | Whatever else is under way, a call on what is stored, or on what a caller hands in, can begin |
| Refinement.FetchedIsStored | internal/adapters/store/store.go:23-39 | A fetched task is the stored variable itself in memory, and a new one otherwise |
| Endings.NeverWaits | internal/adapters/worker/worker_service.go:159-460 | Once sandbox and client have answered, an operation that has not ended can always make its next move, whatever the others do |
| Endings.EveryOperationEnds | internal/adapters/worker/worker_service.go:86-460 | In every interleaving, over either store, every operation makes at most a fixed number of moves of its own: 4 for updateTaskStatus and failTask, 8 for StartTask, 10 for createContainer and StopTask, 13 for RegisterWorker |
| SlotOwnership.StepKeepsAll | internal/adapters/worker/worker_service.go:91-460 | Every check, copy, assignment, Put, call and dispatcher step that is expected of callers keeps: hidden variables are exclusive, only tasks that createContainer has moved to Scheduled show a later state, and each task stored as Creating has an owner with a slot, over either store |
| SlotOwnership.CreatingTasksHoldSlots | internal/adapters/worker/worker_service.go:91-203 | In every interleaving, over either store, in which the tasks that can be created have ids of their own and StartTask gets tasks that the store has shown, each task stored as Creating is owned by exactly one unreleased goroutine, so there are no more of them than `currentRunning`, which is within the limit; tasks that cannot be created may be submitted again and again |
| SlotOwnership.FetchedIsPastCreating | internal/adapters/worker/worker_service.go:208-252 | In each of these interleavings the pointer or copy that RegisterWorker, past its check, or updateTaskStatus holds leads to a task past Creating, whenever it is written or put back |
| SlotOwnership.MarkedIsPastCreating | internal/adapters/worker/worker_service.go:184-192 | A task that the store has shown as moved to Scheduled by createContainer is not stored as Creating, in any state in which the owners are kept |
| LostOwners.ReusedIdLosesItsOwner | internal/adapters/worker/worker_service.go:139-203 | Over either store, wherever outputs can still arrive for an id, submitting a task with that id to an idle worker can leave it stored as Creating while no goroutine runs |
| LostOwners.MadeUpStartLosesTheOwner | internal/adapters/worker/worker_service.go:265-308 | With a StartTask on a task that its caller made up, the same can happen to the first task that is ever submitted |
| WorkerSpec.FirstMatch | internal/adapters/worker/worker_service.go:222-232 | The listing is searched for the first task of a container; nothing is found if and only if no listed task is in it |
| WorkerSpec.UpdatesTouchStatusOnly | internal/adapters/worker/worker_service.go:344-380 | However many outputs are processed, only state, finish time, message and exit code change |
| WorkerRuns.OpWalks | internal/adapters/worker/worker_service.go:159-460 | What one operation that is given the stored task writes to it is a walk through the table that never falls back and ends in a quiet state; it leaves the table if and only if it stores a finished task again; but a task that is created under a stored id leaves the table and falls back |
| WorkerRuns.OpEffect | internal/adapters/worker/worker_service.go:159-460 | Whatever task it is given, an operation changes no other task, its last write stays, and only quiet states are left in the store |
| WorkerRuns.LifecycleSafety | internal/adapters/worker/worker_service.go:159-460 | In every serial run from an empty store in which StartTask, StopTask and failTask get the stored task, the states written for an id start at Creating and end in the stored state: Scheduled, Running, Completed or Failed; they follow the table up to repetitions, and never fall in rank, if and only if no task that can be created is submitted under the id again; and then they never leave Completed and reach Running only after Scheduled and Starting |
| WorkerRuns.FollowsTableExactlyWhen | internal/adapters/worker/worker_service.go:344-384 | In these runs they follow the table without repetitions if and only if, besides, no recognised output is processed for the id after its end |
| WorkerRuns.SecondCreationFallsBack | internal/adapters/worker/worker_service.go:159-203 | Any two tasks of one id that can be created, one after the other, make the states of the id fall back; the second one is what is stored |
| WorkerRuns.StartsAndFollowsExactlyWhen | internal/adapters/worker/worker_service.go:159-460 | In every serial run, whatever tasks callers hand in, the states written for an id start at Creating and follow the table up to repetitions if and only if every operation on it makes a first move that it could make from the stored task as well; then they never leave Completed either |
| WorkerRuns.FinishTimeMarksCompletion | internal/adapters/worker/worker_service.go:159-460 | In every serial run, if the tasks that callers hand in for an id have a finish time exactly when they are Completed, so has the stored one |
| WorkerRuns.RegistrationFindsItsTaskExactlyWhen | internal/adapters/worker/worker_service.go:159-260 | The worker that registers from a container finds its task if and only if no task listed before it has the same container id; the task is then Running, or Failed if the worker is unhealthy or cannot be sent the command, and nothing else changes; otherwise it stays Scheduled |
| Stores.Store.Put | internal/adapters/store/store.go:23-30 | Stores under any key; the in-memory store keeps the pointer itself, the persistent one a copy |
| Stores.Store.Get | internal/adapters/store/store.go:32-39 | Finds exactly the stored keys; in memory the stored pointer, otherwise a fresh copy |
| Stores.Store.WriteThrough | internal/adapters/store/store.go:23-39 | An assignment through a pointer shows at once under every key that leads to it, and nowhere else |
| Stores.Store.Save | internal/adapters/store/store.go:172-208 | After assignment and Put the key shows the new task in either store; in between only keys that lead to the pointer do |
| Stores.Store.List | internal/adapters/store/store.go:210-230 | One pointer per key in the order of enumeration, to the stored task or to a fresh copy |
| Stores.AssignmentAtHome | internal/adapters/store/store.go:23-39 | Where every pointer is stored under its own key only, an assignment through one changes just that key, and a Put after it makes the two stores agree |
| WorkerService.WorkerService.FailTask | internal/adapters/worker/worker_service.go:444-453 | Stores the caller's copy as Failed if that copy may fail, whatever is stored by then; otherwise changes nothing |
| WorkerService.WorkerService.CreateSandbox | internal/adapters/worker/worker_service.go:169-194 | The second half of createContainer, for every outcome of the sandbox |
| WorkerService.WorkerService.CreateContainer | internal/adapters/worker/worker_service.go:159-203 | Ends in Scheduled with the container id if and only if the sandbox was created, in Failed with the reason otherwise, or in an error without a write; before the last Put the in-memory store already shows Scheduled, the persistent one still Creating |
| WorkerService.WorkerService.StartTask | internal/adapters/worker/worker_service.go:265-308 | Stores the copy as Running, and as Failed after that if the command could not be sent; or as Failed if it may not run |
| WorkerService.WorkerService.StopTask | internal/adapters/worker/worker_service.go:389-439 | Ends in Completed with the time of deletion, and with the worker forgotten, if and only if the sandbox was deleted, and otherwise in Failed with the reason and the finish time it had; refuses a copy that may not stop |
| WorkerService.WorkerService.UpdateTaskStatus | internal/adapters/worker/worker_service.go:344-384 | Unknown ids and outputs change nothing; otherwise the stored task is updated, in memory already before the Put |
| WorkerService.WorkerService.ProcessTaskOutput | internal/adapters/worker/worker_service.go:323-342 | Processing a stream is folding its outputs over the stored task, in either store |
| WorkerService.WorkerService.RunCommand | internal/adapters/worker/worker_service.go:265-342 | A whole command, over either store: the stored task is the fold of what is forwarded over the running task, or failed with the error of a command that could not be sent |
| WorkerService.WorkerService.FindByContainer | internal/adapters/worker/worker_service.go:216-228 | The loop finds the first listed task of the container |
| WorkerService.WorkerService.RegisterWorker | internal/adapters/worker/worker_service.go:208-260 | Moves the scheduled task of the container over Starting to Running, or to Failed; without such a task only the worker is noted; an error if and only if the task is Scheduled and the worker not healthy |
| WorkerService.WorkerService.Perform | internal/adapters/worker/worker_service.go:159-460 | On the heap, over either store, each operation, on whatever task it is given, has exactly the effect of its specified writes, and the outcome that `Outcomes` states field by field |
| WorkerService.WorkerService.PerformAll | internal/adapters/worker/worker_service.go:159-460 | The same for every serial run, ids submitted again included |
| Outcomes.OpHasOutcome | internal/adapters/worker/worker_service.go:159-460 | What every operation leaves, field by field and in terms of its inputs only: createContainer Scheduled with the container if and only if it was created, StopTask Completed with the time of deletion if and only if the sandbox was deleted, StartTask Running if and only if the command was sent, otherwise Failed with the reason; updateTaskStatus text, code and state of the output; a registration the first listed task of the container, if Scheduled; no other task changes |
| Outcomes.OpIsOnTheWay | internal/adapters/worker/worker_service.go:159-460 | What the operations store before that: Creating, Stopping, Starting and Running, with their messages |
| Outcomes.LastTextStays | internal/adapters/worker/worker_service.go:344-380 | After a stream of outputs the task has the text of the last recognised one |
| Outcomes.LastCodeStays | internal/adapters/worker/worker_service.go:370-378 | After a stream of outputs the task has the exit code of the last recognised one whose code is not 0 |
| Outcomes.NoneCounts | internal/adapters/worker/worker_service.go:344-380 | Outputs of which none is recognised leave the task exactly as it was |
| Listings.RegistrationsAgreeExactlyWhen | internal/adapters/worker/worker_service.go:216-237 | Two listings of the same store make the same registration if and only if they lead to the same task, or both to none that is Scheduled |
| Listings.StoresAgreeExactlyWhen | internal/adapters/worker/worker_service.go:159-460 | Two stores that list in orders of their own hold the same after every operation of a serial run, whatever its callers hand in, if and only if that is so at each registration |
| Listings.UnsharedRunsAgree | internal/adapters/store/store.go:41-47 | They agree over every run in which no worker registers from a container id that two stored tasks carry |
| Listings.ListingOrderDecides | internal/adapters/worker/worker_service.go:222-237 | If a failed task carries the container id of another one, the listing decides whether that one is Running or stays Scheduled |
| WorkerService.StoresAgree | internal/adapters/store/store.go:23-39 | From empty stores the pointer-sharing and the copying store, each listing in an order of its own, hold after every serial run, whatever tasks callers hand in, what the specification says, and the same if their listings lead to the same tasks |
| Interleaving.WritesFollowTheirRecord | internal/adapters/worker/worker_service.go:159-460 | In every interleaving, over either store, each assignment follows in the table the state that its own check has read; if a step takes a task out of Completed, that state, or the one put, is not the one stored |
| Interleaving.LosesCompletedExactlyWhen | internal/adapters/worker/worker_service.go:159-460 | A step takes a task out of Completed if and only if it assigns another state to the stored variable or puts a variable in another state |
| Interleaving.CompletedSurvivesFreshRuns | internal/adapters/worker/worker_service.go:159-460 | Overlapping operations never take a task out of Completed as long as no step is stale: variables are as the check read them, and what is stored is what is put or what the check read |
| Interleaving.ReplacesCompletedExactlyWhen | internal/adapters/worker/worker_service.go:159-460 | From any world where a task is stored as Completed, the moves of one operation that is at a check can store it in another state if and only if its check, or that of the failTask it turns to, passes the state of its variable |
| Interleaving.LateFailureReplacesCompleted | internal/adapters/worker/worker_service.go:389-460 | Over either store, wherever a task is Running, an overlapping stop and failure can leave it Completed first and Failed after that |
| OutputStream.FirstEndWins | internal/adapters/worker/worker_service.go:344-384 | Over any outputs a running task ends as the first "completed" or "failed" says, stays Running without one, and keeps state and finish time afterwards |
| OutputStream.Forward | internal/adapters/grpc/client/worker_client.go:56-92 | The receive loop forwards what `Forwarded` says for every stream and every deadline |
| OutputStream.ForwardedIsPrefix | internal/adapters/grpc/client/worker_client.go:56-92 | Forwarded are an in-order prefix of the received outputs, up to the first end or the deadline, and then a failure of the client's own exactly if it saw the stream break |
| OutputStream.OnlyTheLastEnds | internal/adapters/grpc/client/worker_client.go:88-90 | At most one forwarded output ends the task, and it is the last |
| OutputStream.ServerNeverEndsATask | internal/adapters/grpc/server/worker_process_server.go:24-148 | Whatever the server can send, in whatever order its goroutines send it, the stored task does not change, whatever part is processed, unless the client saw the stream break and its own failure is processed too |
| OutputStream.SpellingIsInTheWay | internal/adapters/grpc/server/worker_process_server.go:24-148 | Only its spelling is in the way: in small letters the report of the end would leave the running task Completed at that time if the process succeeded and Failed otherwise, with its code and error |
| CpuUsage.DifferencesAreElapsedTime | internal/adapters/scheduler/scheduler.go:207-217 | Wrapped counters and overflowing sums do no harm: the differences are the elapsed amounts reduced to a word |
| CpuUsage.UsageIsBusyShare | internal/adapters/scheduler/scheduler.go:207-224 | If less than 2^64 passed in all, the result is defined, between 0 and 1, exactly the busy share, and 0 if nothing passed |
| CpuUsage.UndefinedExactlyWhen | internal/adapters/scheduler/scheduler.go:219-224 | The division by zero happens if and only if the elapsed total is a multiple of 2^64 and the elapsed idle time is not |
| Epvm.CpuLoadCancels | internal/adapters/scheduler/scheduler.go:139-148 | The measured CPU load has no influence on the score, whatever size the node reports |
| Epvm.ScoreIsCost | internal/adapters/scheduler/scheduler.go:141-148 | For a node that reports a size other than 0 the score is a number, the cost |
| Epvm.NoSizeNoScore | internal/adapters/scheduler/scheduler.go:141-148 | For a node that reports size 0 it is NaN, or with negative amounts infinite or the growth of the task count alone |
| Epvm.CostInFull | internal/adapters/scheduler/scheduler.go:141-148 | The cost in full: what the extra memory adds to the power of the share in use, and twice what one more task adds to that of the tasks, of which four make a share of 1 |
| Epvm.GrowthIncreases | internal/adapters/scheduler/scheduler.go:145-146 | The same step costs more further out on the exponential |
| Epvm.CostIsPositive | internal/adapters/scheduler/scheduler.go:141-148 | A score is positive for every task that asks for no negative amount of memory |
| Epvm.FewerTasksCostLess | internal/adapters/scheduler/scheduler.go:141-148 | Of two nodes of the same size, one with no more memory in use and fewer tasks is strictly cheaper, whatever the loads |
| Epvm.LessUsedCostsLess | internal/adapters/scheduler/scheduler.go:141-148 | Of two nodes of the same size with as many tasks, the one that uses less memory is strictly cheaper for a task that needs some |
| Scheduler.Node.GetStats | internal/adapters/node/node.go:35-72 | On success the node is overwritten and the result points at the node's own field; on any error nothing changes |
| Scheduler.Node.CalculateCpuUsage | internal/adapters/scheduler/scheduler.go:194-226 | Whatever the node answers twice, the usage is 0; without an answer there is none |
| Scheduler.RoundRobin.Score | internal/adapters/scheduler/scheduler.go:32-53 | Advances by one, wrapping, and marks exactly that node as cheapest if the names are distinct |
| Scheduler.Pick | internal/adapters/scheduler/scheduler.go:55-72 | The leftmost node with the lowest score, missing scores reading as 0; the first one if its score is NaN, and otherwise none with NaN; none if and only if there is no candidate |
| Scheduler.FeasibleIffRoom | internal/adapters/scheduler/scheduler.go:171-186 | The filter keeps exactly the nodes with enough free disk |
| Scheduler.SelectCandidateNodes | internal/adapters/scheduler/scheduler.go:171-182 | The loop computes the filter, in the order of the nodes |
| Scheduler.CandidatesAre | internal/adapters/manager/manager.go:95-109 | Round robin considers all nodes, the others exactly those with room on disk |
| Scheduler.CandidatesKeepOrder | internal/adapters/scheduler/scheduler.go:171-182 | The candidates are in the order of the nodes |
| Scheduler.GreedyScore | internal/adapters/scheduler/scheduler.go:82-95 | Exactly the names of nodes that answer have a score, and it is 0 |
| Scheduler.MarginalCost | internal/adapters/scheduler/scheduler.go:133-149 | One round of the E-PVM loop: a score if and only if the node answers, and then the formula at the load 0 and the statistics just fetched; `ScoreInFull` says what it is in terms of the answer |
| Scheduler.EpvmScore | internal/adapters/scheduler/scheduler.go:129-151 | With distinct names exactly the nodes that answer have a score, each its own, whatever sizes they report |
| Scheduler.SelectWorker | internal/adapters/manager/manager.go:95-109 | Fails if and only if there is no candidate; otherwise the leftmost minimum, a member of the nodes with room; the next in turn under round robin, the first candidate under Greedy; under E-PVM the scores are those of the candidates' answers and of what was kept of them before |
| Scheduler.UsedIsInUse | internal/adapters/stats/stats.go:17-19 | The memory in use is the total less what is available, wrapped if that is negative, and what is set aside |
| Scheduler.ScoreInFull | internal/adapters/scheduler/scheduler.go:133-149 | The score of a node that answered with a size, in terms of its answer, its task count and what is set aside; the task's memory counts in thousands |
| Scheduler.MoreAvailableIsCheaper | internal/adapters/scheduler/scheduler.go:138-149 | Of two nodes that answer with the same total and are equal otherwise, the one with more memory available is strictly cheaper for a task that needs at least 1000 |
| Scheduler.UnscoredWins | internal/adapters/scheduler/scheduler.go:153-169 | Under E-PVM, if some candidate could not be measured, the picked one could not be measured or reports no positive size |
| Scheduler.SizelessIsPickedOnlyFirst | internal/adapters/scheduler/scheduler.go:141-169 | Under E-PVM a candidate that reports a total memory of 0 is picked if and only if it is the first one |
| Scheduler.DominatedLoses | internal/adapters/scheduler/scheduler.go:129-169 | Under E-PVM, by total, available and set-aside memory of the answers: no candidate is picked over another of the same size that has fewer tasks and no more memory in use, or as many tasks and less memory in use if the task needs at least 1000 |
| ManagerOutcomes.NewManagerIs | internal/adapters/manager/manager.go:38-93 | A new manager has no work and no assignments, an empty list per worker, and what was in the files if its stores are persistent |
| ManagerOutcomes.SendOutcome | internal/adapters/manager/manager.go:270-354 | What SendWork leaves, part by part: an event is recorded and stored; for an assigned task a stop request if and only if the event asks for Completed and the task is Running or Stopping; a new one is listed for its worker, stored as Scheduled with its other fields kept, or as the reply decoded into it in memory, counted once if and only if the reply was complete, and queued again bare if there was no connection |
| ManagerOutcomes.ReportOutcome | internal/adapters/manager/manager.go:143-167 | A report sets state, start time, finish time and container id of the variable it reaches, and keeps the rest and all other variables |
| ManagerOutcomes.CheckOutcome | internal/adapters/manager/manager.go:195-223 | A health check makes a task Scheduled with one more restart if and only if it was Failed with fewer than 3; it changes nothing otherwise |
| ManagerOutcomes.ReportsOutcome | internal/adapters/manager/manager.go:143-167 | With tasks under their own ids, after a list of reports each stored task has exactly state, start time, finish time and container id of the last report on it, and its own otherwise |
| ManagerModel.StoresAgreeUnlessDecoded | internal/adapters/manager/manager.go:303-344 | After a placement the two stores hold the same if and only if no reply was decoded, or it repeats the stored task |
| ManagerModel.StepKeepsInv | internal/adapters/manager/manager.go:121-369 | Every step keeps the assignment maps inverse, the counts covered, the assigned tasks stored, and one variable per assigned task |
| ManagerRuns.StoresAgreeOverRunsExactlyWhen | internal/adapters/manager/manager.go:121-369 | Over every run of sends, updates and restarts a manager in memory and one over files stay the same after each step, in all but the tasks and events of the files that are not assigned or recorded, if and only if no decoded reply differs from the stored task |
| ManagerRuns.NewManagersAreAlike | internal/adapters/manager/manager.go:70-92 | So they are at the start, whatever is in the files |
| ManagerRuns.StoresAgreeOverRuns | internal/adapters/manager/manager.go:121-369 | Over files that were empty they stay equal as long as no decoded reply differs from the stored task |
| ManagerRuns.TasksStayOwnExactlyWhen | internal/adapters/manager/manager.go:121-369 | Along every run tasks stay stored under their own ids if and only if no reply with another id is decoded into the in-memory store; one such reply is never repaired |
| ManagerRuns.ForeignReplyTakesOver | internal/adapters/manager/manager.go:343-349 | After every reply with another id, the next report on the task puts it under that id: it replaces what was stored there, restart count included, or is stored without being assigned |
| ManagerRuns.AssignmentsAreConsistent | internal/adapters/manager/manager.go:38-68 | In every reachable state, from any files, the maps are inverse, no task is listed twice, assigned tasks are stored, assigned workers exist, and no more tasks are counted for a worker than are listed; tasks are under their own ids, and then exactly the assigned ones and those of the file are stored, if and only if all replies kept their ids |
| ManagerRuns.FirstPlacementWins | internal/adapters/manager/manager.go:280-313 | An assignment never changes once made |
| ManagerRuns.StopsExactlyWhen | internal/adapters/manager/manager.go:280-301 | A stop request goes out if and only if the event asks for Completed and its task is assigned and stored as Running or Stopping |
| ManagerRuns.LastReportWins | internal/adapters/manager/manager.go:143-167 | After a list of reports each stored variable has the status of the last report that reached it and keeps the rest, and no variable is added |
| ManagerRuns.ReportsReachTheirTasks | internal/adapters/manager/manager.go:143-167 | While every task is under its own id, the last report that reaches it is the last report on it |
| ManagerRuns.EventsAreConserved | internal/adapters/manager/manager.go:270-278 | Events are recorded in the order of arrival; with distinct ids, also from those in the file, each is either queued or in the event store, never both |
| ManagerRuns.OnlyFailedPostsCrash | internal/adapters/manager/manager.go:325-329 | Bare tasks, queued or crashed on, are exactly as many as failed POSTs: without those the manager never crashes |
| ManagerRuns.RestartBudget | internal/adapters/manager/manager.go:195-223 | In any order of health checks, updates and sends, whatever the replies contain, the restart count of a placed task's variable grows by exactly its restarts, of which there are at most as many as were left of three; the same for a task of the file as long as it is not placed |
| ManagerRuns.StepCountsRestarts | internal/adapters/manager/manager.go:195-223 | A step restarts a task only from Failed, below 3 restarts, and only as a move of the table, with one more on the count; no other step changes the count |
| ManagerRuns.PlacementStoresAnew | internal/adapters/manager/manager.go:303-344 | A placement stores the task of the event, or the decoded reply, over whatever was found under its id |
| ManagerRuns.RestartBudgetByKey | internal/adapters/manager/manager.go:195-223 | The same for what is stored under an id, as long as the replies keep their ids |
| Restarts.RestartedTasksNeverRun | internal/adapters/worker/worker_service.go:159-163 | In every interleaving of the worker, ids submitted again included, the goroutine of a task that a health check restarted never gets past the first check of createContainer; its variable is never changed, stored, or reached by anyone else |
| Restarts.BarredTasksAreNeverCreated | internal/adapters/worker/worker_service.go:159-163 | The same for every task accepted in a state from which it cannot go to Creating |
| RoundRobinRuns.StepKeepsBalance | internal/adapters/scheduler/scheduler.go:32-53 | Every step keeps each worker's list at its share of the placements so far |
| RoundRobinRuns.RoundRobinIsFair | internal/adapters/manager/manager.go:303-313 | With distinct names, in every reachable state any two lists differ by at most one task, and the k-th placement went to node k mod n |
| ManagerService.ManagerService.constructor | internal/adapters/manager/manager.go:38-93 | A manager over empty or reopened stores, without assignments, with an empty list per worker and the scheduler named, E-PVM by default; assignments, events and lists are sound |
| ManagerService.ManagerService.AddTask | internal/adapters/manager/manager.go:366-369 | The event is queued last, and nothing else changes |
| ManagerService.ManagerService.HandlePost | internal/adapters/manager/manager.go:318-349 | Each outcome of the POST: a bare task is queued, nothing happens, or the reply overwrites the stored pointer and the task is counted if it was complete |
| ManagerService.ManagerService.SendNew | internal/adapters/manager/manager.go:303-350 | Places and sends a new task on the scheduler's node, which is justified by what the candidates answered, and fails only if there is no candidate |
| ManagerService.ManagerService.SendWork | internal/adapters/manager/manager.go:270-354 | On the heap, over either store and any scheduler, takes exactly the SendWork step, with the outcome that `SendOutcome` states; the scheduler is asked at most once, and its node is justified by what the candidates answered, the next one in turn under round robin |
| ManagerService.StepKeepsSound | internal/adapters/manager/manager.go:270-354 | Every step keeps consistent assignments, conserved events and, with selections in turn, balanced lists |
| ManagerService.ManagerService.ProcessTasks | internal/adapters/manager/manager.go:238-245 | The loop over SendWork keeps all of that on the heap under round robin, whatever is queued and however the POSTs end, until a failed type assertion |
| TaskTable.TaskTable.PutBackTask | internal/adapters/manager/manager.go:157-166 | Assignment through a fetched pointer and Put under the id that the task carries, in either store and for any aliasing |
| TaskTable.TaskTable.Update | internal/adapters/manager/manager.go:143-167 | One round of the inner loop of updateTasks, with the outcome that `ReportOutcome` states |
| TaskTable.TaskTable.CheckTasks | internal/adapters/manager/manager.go:195-223 | The loop of doHealthChecks over pointers that may repeat, or over copies |
| TaskTable.ChecksOutcome | internal/adapters/manager/manager.go:195-223 | With tasks under their own ids, a round of checks makes exactly the listed tasks that were Failed with fewer than 3 restarts Scheduled with one more, hands on these, in the order of the listing, and changes nothing else |
| TaskTable.ChecksInAnyOrder | internal/adapters/manager/manager.go:195-223 | A round of health checks leaves the two stores equal, whatever the orders in which they list their tasks |
| ManagerService.ManagerService.UpdateTask | internal/adapters/manager/manager.go:143-167 | One round of the inner loop is the UpdateTask step, also for a task under a foreign key, with the outcome that `ReportOutcome` states |
| ManagerService.RoundOutcome | internal/adapters/manager/manager.go:121-169 | With tasks under their own ids, a round over all workers leaves on each stored task exactly what the last report on it says, over the lists of the workers that answered, in their order |
| ManagerService.ManagerService.UpdateTasks | internal/adapters/manager/manager.go:121-169 | The nested loops are the run of those steps over the lists of all the workers that answer, with the outcome that `RoundOutcome` states |
| ManagerService.ManagerService.DoHealthChecks | internal/adapters/manager/manager.go:195-236 | The loop over live pointers or copies is the run of health checks over what the keys lead to, with the outcome that `ChecksOutcome` states, and hands exactly the restarted tasks to the worker |

## Left out

- Sandboxes, gRPC, HTTP, JSON and BoltDB: their outcomes are parameters, and a persistent Put is taken to succeed.
- Observers, logging, timers and sleeps: they have no effect on the modelled state.
- States outside the eight declared ones, and task ids as anything but abstract keys with a nil value.
- Scheduler.EpvmScore: leaves rounding aside; statistics without a CPU section, on which the code panics, are not modelled.
- WorkerRuns.LifecycleSafety: starts from an empty store, and assumes that StartTask, StopTask and failTask get the stored task, without which `WorkerRuns.StartsAndFollowsExactlyWhen` says when the states follow the table; what a worker makes of a file in which an operation was interrupted is not modelled.
- WorkerRuns.OpWalks: assumes the same of its operation.
- RoundRobinRuns.RoundRobinIsFair: assumes distinct worker names, since scores and lists are kept by name.
- ManagerService.ManagerService.DoHealthChecks: the manager's own worker is given the restarted tasks as a result value; a full queue, on which AddTask blocks, is left to `Dispatcher`.
- The worker's polling loop: a failed health check is the FailTask operation of a serial run, and the call Fail of an interleaving.
- The closing of the output channel, which has two closers.
- Store.Count, Store.Delete, the reading side of the event stores, statistics gathering, resource parsers and builders: they would only add easy members.
