# BEE core in Dafny

This project models the decision logic of BEE, the Build and Execution
Environment that runs scientific workflows on HPC systems. It proves
properties of that model. The parts modelled are:

- **Scheduler time-slot allocator** (`Allocation`). Tasks, time slots, partitions that keep an ordered list of slots, clusters, workflows made of dependency levels, and the level-by-level FCFS placement of a workflow.
- **Batch-scheduling algorithms** (`Algorithms`). FCFS and Backfill over a list of independent tasks, the list of candidate allocations of a task, and the choice of algorithm. The resource arithmetic of `sched_types` and `util` is a record of functions (`Env`). `time.time()` is the parameter `now`.
- **Task manager queues** (`TaskManager`). `submit_queue` and `job_queue`, submission, monitoring, cancellation, and the REST handlers that feed them. The batch worker is an oracle. Each call to the workflow manager is recorded in a log.
- **Cypher queries** of the graph database (`Cypher`), as functions on an in-memory graph:
  - workflow inputs and outputs;
  - tasks with their inputs and outputs;
  - one metadata node per task;
  - `DEPENDS` and `BEGINS` edges.
- **Workflow manager control logic** (`WfManager`). The workflow id check, the pause/resume flag with the task saved while paused, the conversion of tasks for the scheduler, the status listing, and the task-state update.
- **Workflow update handler** (`WfUpdate`). Restarting a checkpointed task, setting outputs on completion, submitting ready tasks, and archiving a finished workflow.
- **Requirement decoder** of the graph driver (`Requirements`).
- **LSF worker and simple worker** (`LsfWorker`, `SimpleWorker`). State tables, the parsing of `bsub`/`bjobs` answers, script paths, and the process table.
- **Task record** (`DataTask`) and its command line.
- **Logging set-up** (`BeeLog`). The STEP_INFO level, the format tables, the level filter, and the two console handlers.
- **Start-up script** (`BeeStart`). Which services `main` starts, in what order, and when it gives up. The default configuration sections and ports. The `neo4j.conf` edit.

`PyText` models the Python string operations the core relies on:
- `str.split()`, `" ".join`, `str.replace`;
- `int()`, `str.isdigit`, `str.strip`;
- `sorted`.

`Wrappers` holds `Option` and `Result`. A Python exception is an `Err` result.

Two of the cited source files disagree with the wider description of the system:
- `resume` passes a single task where a list is expected.
- `add_dependencies` depends on load order.

The model follows the code in both cases, including the stateful `Resume` and `Patch`. It states the intended behaviour separately (see "## Findings").

## Model

| member | source | states |
|---|---|---|
| Allocation.MakeSlot | beeflow/scheduler/allocation.py:37-52 | a slot is open iff it has no task; with a task its runtime is the task's runtime whatever was passed |
| Allocation.FitsMeansRoom | beeflow/scheduler/allocation.py:54-64 | `fits` holds iff the slot is open and the task, started at the later of the minimum start and the slot's start, ends inside the slot |
| Allocation.FirstOpen | beeflow/scheduler/allocation.py:172-182 | the index `insert` settles on lies between the scan start and the end of the slot list |
| Allocation.FirstOpenIsFirst | beeflow/scheduler/allocation.py:175-182 | that index is the first open slot whose accumulated offset reaches the requested start; no earlier slot qualifies; `|slots|` when none does |
| Allocation.InsertedHoldsTask | beeflow/scheduler/allocation.py:165-204 | the returned slot holds the task, has its runtime, starts no earlier than the requested time and is among the new slots |
| Allocation.AppendBranch | beeflow/scheduler/allocation.py:197-203 | with no qualifying open slot: beyond the total time a gap of `start - total` precedes the task and the new total is `start + runtime`; otherwise the total grows by the runtime |
| Allocation.SplitKeepsTotal | beeflow/scheduler/allocation.py:183-196 | replacing the chosen open slot by leading open, task and trailing open pieces leaves the total time unchanged |
| Allocation.SplitKeepsPacked | beeflow/scheduler/allocation.py:183-196 | on packed slots, a task no longer than the chosen open slot keeps the slots packed |
| Allocation.AppendKeepsPacked | beeflow/scheduler/allocation.py:197-203 | appending at or after the total time keeps packed slots packed |
| Allocation.InsertOverlaps | beeflow/scheduler/allocation.py:168-203 | `insert` does not check its assumption: a task asked for inside the only open slot is appended after it while claiming to start inside it, and the slots stop being packed |
| Allocation.FitIn | beeflow/scheduler/allocation.py:214-218 | `fit`'s scan returns a time no earlier than the requested start: that start, the total time, or the start of some slot |
| Allocation.FitOverrunsSlot | beeflow/scheduler/allocation.py:213-216 | as written, `fit` offers a slot the task does not `fits`: an open slot 10-12 and a task of 5 asked for at 7 give 10 |
| Allocation.FitInSlot | beeflow/scheduler/allocation.py:206-218 | the corrected `fit` also returns a time no earlier than the requested start |
| Allocation.FitInSlotInside | beeflow/scheduler/allocation.py:206-218 | when the corrected `fit` picks a slot, the task placed at the returned time lies inside that open slot |
| Allocation.Partition.constructor | beeflow/scheduler/allocation.py:149-155 | the partition starts with no slots, whatever `slots` argument is given |
| Allocation.Partition.Fit | beeflow/scheduler/allocation.py:206-218 | the time `fit` offers is never before the requested start |
| Allocation.Partition.Insert | beeflow/scheduler/allocation.py:165-204 | the slots become exactly those of the split or append branch; the returned slot holds the task, is in the slots and starts no earlier than asked |
| Allocation.Cluster.constructor | beeflow/scheduler/allocation.py:100-108 | a cluster keeps its name and its own list of partitions |
| Allocation.Cluster.InsertPartition | beeflow/scheduler/allocation.py:110-117 | the partition is appended and nothing else changes |
| Allocation.BestPartition | beeflow/scheduler/allocation.py:394-402 | visiting every partition of every cluster, the first partition with the smallest fit is kept with that time; none exactly when there is no partition |
| Allocation.ScheduleNextFcfs | beeflow/scheduler/allocation.py:382-404 | fails exactly when there is no partition; otherwise inserts into a first-minimum partition and returns a slot holding the task no earlier than the minimum start |
| Allocation.DecodeEncodeTask | beeflow/scheduler/allocation.py:324-339 | decoding an encoded task gives back the same name and runtime |
| Allocation.EncodeDecodeTask | beeflow/scheduler/allocation.py:324-339 | every dictionary that decodes is the encoding of the task it decodes to |
| Allocation.InsertAtLevelFrame | beeflow/scheduler/allocation.py:259-273 | at a non-negative level, empty levels are created up to it, the task is appended to that level only, and every other level is unchanged |
| Allocation.InsertAtNegativeLevel | beeflow/scheduler/allocation.py:271-273 | a negative level indexes from the end; one before the first level is an IndexError and changes nothing |
| Allocation.Workflow.constructor | beeflow/scheduler/allocation.py:250-257 | each workflow keeps its name and its own levels |
| Allocation.Workflow.Insert | beeflow/scheduler/allocation.py:259-273 | the levels become those `InsertAtLevel` describes, or stay unchanged on IndexError |
| Allocation.ScheduleLevel | beeflow/scheduler/allocation.py:421-431 | every task of a level is scheduled no earlier than the level's time and recorded under its name; the latest finish is at least that time; other entries are kept; fails only with no partition and a non-empty level |
| Allocation.LevelKeepsOrder | beeflow/scheduler/allocation.py:421-431 | after one level, every task so far finishes by the level's latest finish, and a task of a later level starts after every task of an earlier level has finished |
| Allocation.Fcfs | beeflow/scheduler/allocation.py:406-432 | fails exactly when there is no partition and some task; otherwise every task name has a slot holding it, no earlier than the start time, and a task in level L+1 starts no earlier than the finish of any task in levels up to L |
| Algorithms.Earliest | beeflow/scheduler/algorithms.py:75-76 | the allocation `min` picks is in the overlap and no allocation there ends earlier |
| Algorithms.FcfsStartFits | beeflow/scheduler/algorithms.py:63-76 | the start time found fits what the overlapping allocations leave, is no earlier than the search start, and is that start or an allocation's end; the search fails only where nothing overlaps and the task still does not fit |
| Algorithms.FcfsStepPlaces | beeflow/scheduler/algorithms.py:56-76 | one step leaves a task that cannot run at all untouched, and places any other where the remaining resources fit it, no earlier than the current start; the start time never goes back |
| Algorithms.FcfsRunSkips | beeflow/scheduler/algorithms.py:57-61 | a task whose requirements exceed the sum of all resources keeps no new allocations |
| Algorithms.FcfsRunPlaces | beeflow/scheduler/algorithms.py:56-76 | every task FCFS changes is placed no earlier than the run's start, where what is left beside the initial allocations and those FCFS made for the tasks before it fits it; when no error occurs, every task that can run at all is placed |
| Algorithms.FcfsSearch | beeflow/scheduler/algorithms.py:63-76 | the `while True` loop computes the search function `FcfsStart` |
| Algorithms.FcfsScheduleOne | beeflow/scheduler/algorithms.py:57-76 | one pass of the loop body computes the step function `FcfsStep` |
| Algorithms.FcfsScheduleAll | beeflow/scheduler/algorithms.py:42-76 | the method's tasks and its error are those of the run `FcfsRun` from the current time with no allocations |
| Algorithms.EndingBy | beeflow/scheduler/algorithms.py:144 | the kept times are exactly those at which a task of the given runtime ends by the shadow time |
| Algorithms.BackfillTimesHold | beeflow/scheduler/algorithms.py:140-145 | the backfill times are sorted and are exactly now and the allocation ends at which the task ends by the shadow time |
| Algorithms.FirstFitEarliest | beeflow/scheduler/algorithms.py:126-136 | over sorted times the first fit is the earliest time that fits; there is none only when no time fits |
| Algorithms.BackfillStep | beeflow/scheduler/algorithms.py:139-159 | one backfill pass step only extends the allocations, changes only its own task, and adds at most that task to the tasks left |
| Algorithms.BackfillPass | beeflow/scheduler/algorithms.py:138-161 | the pass keeps the task list's length and adds at most one entry per task it visits to the tasks left |
| Algorithms.BackfillRound | beeflow/scheduler/algorithms.py:103-161 | each turn of `while tasks` strictly shrinks the queue and keeps it a list of task positions |
| Algorithms.BackfillRoundGrows | beeflow/scheduler/algorithms.py:103-161 | a turn only appends to the allocation list |
| Algorithms.BackfillFinal | beeflow/scheduler/algorithms.py:103-161 | the loop keeps one task per task given and only appends to the allocation list |
| Algorithms.BackfillLoop | beeflow/scheduler/algorithms.py:103-161 | the loop returns one task per task given |
| Algorithms.Backfill | beeflow/scheduler/algorithms.py:98-161 | Backfill works on a copy: the caller's list keeps its length and positions |
| Algorithms.BackfillPassLeft | beeflow/scheduler/algorithms.py:157-159 | the pass only appends to the tasks left, and only tasks it visits |
| Algorithms.BackfillPassGrows | beeflow/scheduler/algorithms.py:152-155 | the pass only adds allocations |
| Algorithms.BackfillPassFrame | beeflow/scheduler/algorithms.py:139-159 | the pass changes no task it does not visit |
| Algorithms.BackfillStepPlaces | beeflow/scheduler/algorithms.py:139-159 | a task the step changes is backfilled; it is requeued exactly when it has no allocations |
| Algorithms.BackfillPassPlaces | beeflow/scheduler/algorithms.py:139-156 | every task the pass changes starts at now or at an allocation's end, where the remaining resources fit it, and ends by the shadow time |
| Algorithms.BackfillPassRequeues | beeflow/scheduler/algorithms.py:157-159 | with each task queued once, a visited task is on the list of tasks left exactly when it has no allocations afterwards |
| Algorithms.BackfillRoundHead | beeflow/scheduler/algorithms.py:105-136 | the head of the queue is dropped if it cannot run at all, allocated now if it fits now, and otherwise allocated at the earliest allocation end that fits (that end becomes the shadow time) or left as it was |
| Algorithms.BackfillRoundBackfilled | beeflow/scheduler/algorithms.py:103-161 | a turn changes a task only by allocating it where what is left beside the allocations made before it fits it; those allocations followed by the task's own begin the turn's allocation list |
| Algorithms.BackfillLoopBackfilled | beeflow/scheduler/algorithms.py:103-161 | the same holds for the whole loop, against the allocation list it ends with |
| Algorithms.BackfillOnlyPlaces | beeflow/scheduler/algorithms.py:98-161 | Backfill keeps every task's name and requirements, and either leaves its allocations or allocates it where what is left beside the allocations made before it fits it; those allocations followed by the task's own begin the list `allocations` Backfill builds |
| Algorithms.FirstFitSearch | beeflow/scheduler/algorithms.py:126-136 | the `for start_time in times` search returns `FirstFit` |
| Algorithms.BackfillRest | beeflow/scheduler/algorithms.py:138-161 | the `for task in tasks` loop builds the tasks, allocations and tasks left of `BackfillPass` |
| Algorithms.BackfillScheduleAll | beeflow/scheduler/algorithms.py:87-161 | the method returns the tasks as `Backfill` leaves them |
| Algorithms.BackfillLoopStep | beeflow/scheduler/algorithms.py:103-161 | the loop from a state is the loop from the state after one turn |
| Algorithms.BackfillRoundCases | beeflow/scheduler/algorithms.py:105-161 | the three ways a turn goes (cannot run, fits now, shadow time and backfill), each written out |
| Algorithms.FinishTimes | beeflow/scheduler/algorithms.py:273-274 | the finish times are exactly first-allocation start plus maximum runtime of the tasks that have allocations |
| Algorithms.CandidateTimesHold | beeflow/scheduler/algorithms.py:273-278 | the tried times are sorted and are exactly now and the finish times |
| Algorithms.FittingTimes | beeflow/scheduler/algorithms.py:280-285 | the kept times are exactly the tried times at which the task fits |
| Algorithms.AllocationsAtFit | beeflow/scheduler/algorithms.py:279-292 | one allocation list per fitting time, in the order of the times |
| Algorithms.BuildAllocationList | beeflow/scheduler/algorithms.py:262-292 | the method returns the allocation lists of `AllocationsAt` over the candidate times |
| Algorithms.Choose | beeflow/scheduler/algorithms.py:296-309 | Backfill exactly when there are fewer than MEDIAN = 2 tasks, MARS otherwise, both wrapped in Logger |
| TaskManager.SubmittedJobs | beeflow/task_manager/task_manager.py:97-116 | no more jobs are monitored than tasks submitted |
| TaskManager.SubmitUpdatesOnePerTask | beeflow/task_manager/task_manager.py:115-116 | each task popped from the submit queue is reported exactly once, in queue order, with SUBMIT_FAIL when the job id is -1 |
| TaskManager.SubmittedJobsSucceeded | beeflow/task_manager/task_manager.py:104-114 | a job is monitored exactly when its task's submission gave a job id other than -1, with that task's id and name and the worker's job id and state |
| TaskManager.RemoveFirst | beeflow/task_manager/task_manager.py:136 | `list.remove` drops exactly one element |
| TaskManager.UpdateRunSound | beeflow/task_manager/task_manager.py:119-136 | the loop keeps only jobs it was given, each as it was or with the reported state, and reports only jobs whose reported state changed, with that state |
| TaskManager.UpdateJobsSound | beeflow/task_manager/task_manager.py:119-136 | the same, from the start of the queue |
| TaskManager.UpdateAllEvery | beeflow/task_manager/task_manager.py:119-136 | visiting every job, a job stays queued, refreshed, exactly when its new state is not COMPLETED, CANCELLED or ZOMBIE, and exactly the changed jobs are reported |
| TaskManager.UpdateJobsSkipsNext | beeflow/task_manager/task_manager.py:121-136 | as written, removing a finished job makes the loop skip the next one, whose change is missing from this round's reports; the next round queries it again |
| TaskManager.DeleteRunKeepsOdds | beeflow/task_manager/task_manager.py:179-187 | the `delete` loop keeps exactly the jobs at odd positions |
| TaskManager.DeleteRunCancelsEvens | beeflow/task_manager/task_manager.py:179-187 | the `delete` loop cancels exactly the jobs at even positions, in order |
| TaskManager.DeleteLeavesEveryOther | beeflow/task_manager/task_manager.py:174-190 | with distinct jobs, `delete` cancels and removes only every other job |
| TaskManager.DeleteAllCancelsEvery | beeflow/task_manager/task_manager.py:174-190 | cancelling as intended asks the worker to cancel each queued job once, in order |
| TaskManager.Queues.constructor | beeflow/task_manager/task_manager.py:72-73 | both queues start empty |
| TaskManager.Queues.UpdateTaskState | beeflow/task_manager/task_manager.py:87-94 | one call to the workflow manager is recorded; the queues are unchanged |
| TaskManager.Queues.SubmitJobs | beeflow/task_manager/task_manager.py:97-116 | the submit queue is drained; the accepted jobs are appended to the job queue and one state report per task is sent |
| TaskManager.Queues.UpdateJobs | beeflow/task_manager/task_manager.py:119-136 | the job queue and the reports are those of the index-based loop `UpdateRun` |
| TaskManager.Queues.CheckTasks | beeflow/task_manager/task_manager.py:139-142 | runs `submit_jobs` and then `update_jobs`, over the queue the submission extended |
| TaskManager.Queues.Post | beeflow/task_manager/task_manager.py:161-168 | exactly `{task.id: task}` is appended to the submit queue; the response is "Task Added!" with 200 |
| TaskManager.Queues.Delete | beeflow/task_manager/task_manager.py:174-190 | the job queue, the message and the cancellations are those of the index-based loop `DeleteRun`; the response is 200 |
| Cypher.WithState | src/beeflow/common/gdb/neo4j_cypher.py:375-376 | setting the state changes only the state key of the metadata |
| Cypher.CreateTask | src/beeflow/common/gdb/neo4j_cypher.py:4-10 | creating a task fails exactly when its id is already stored (the uniqueness constraint); otherwise only the task is added |
| Cypher.CreateTaskMetadataNode | src/beeflow/common/gdb/neo4j_cypher.py:169-180 | a stored task gets a metadata node in state WAITING; all else is unchanged |
| Cypher.Upstream | src/beeflow/common/gdb/neo4j_cypher.py:195-200 | the first half merges `id DEPENDS t` exactly for the stored tasks `t` one of whose outputs feeds an input of `id` |
| Cypher.Downstream | src/beeflow/common/gdb/neo4j_cypher.py:201-207 | the second half merges `t DEPENDS id` exactly for the stored tasks `t` one of whose inputs reads an output of `id` |
| Cypher.AddDependencies | src/beeflow/common/gdb/neo4j_cypher.py:183-210 | BEGINS is added exactly when an input reads a workflow input; the upstream edges are added, and the downstream edges only when some upstream edge exists |
| Cypher.AddDependenciesBoth | src/beeflow/common/gdb/neo4j_cypher.py:183-210 | with both halves run independently, both the upstream and the downstream edges are added |
| Cypher.LoadTask | src/beeflow/common/gdb/neo4j_cypher.py:85-210 | loading a task fails exactly when its id is already stored |
| Cypher.LoadTaskBothKeepsDepends | src/beeflow/common/gdb/neo4j_cypher.py:195-207 | with both halves run, the edges remain exactly those the inputs and outputs demand |
| Cypher.LoadAllBothDepends | src/beeflow/common/gdb/neo4j_cypher.py:195-207 | loading tasks in any order gives exactly the demanded edges, `s DEPENDS t` iff an input of `s` reads an output of `t` |
| Cypher.AddDependenciesMissesConsumer | src/beeflow/common/gdb/neo4j_cypher.py:195-207 | as written, a consumer loaded before its producer never gets its DEPENDS edge |
| Cypher.SetTaskState | src/beeflow/common/gdb/neo4j_cypher.py:367-378 | only the named task's state changes |
| Cypher.SetInitTasksToReady | src/beeflow/common/gdb/neo4j_cypher.py:429-435 | READY exactly for tasks that BEGIN the workflow and depend on nothing; the others are unchanged |
| Cypher.SetRunnableTasksToReady | src/beeflow/common/gdb/neo4j_cypher.py:503-512 | READY exactly for WAITING tasks with at least one input, all valued; the others are unchanged |
| Cypher.RunnableOnlyWaiting | src/beeflow/common/gdb/neo4j_cypher.py:505-510 | a task that is not WAITING, or has no inputs, is untouched |
| Cypher.Rename | src/beeflow/common/gdb/neo4j_cypher.py:487-500 | every task in the source state moves to the target state; every other task keeps its metadata |
| Cypher.SetRunningTasksToPaused | src/beeflow/common/gdb/neo4j_cypher.py:487-492 | a task is PAUSED afterwards iff it was RUNNING or PAUSED |
| Cypher.SetPausedTasksToRunning | src/beeflow/common/gdb/neo4j_cypher.py:495-500 | no task is PAUSED afterwards; a task is RUNNING iff it was RUNNING or PAUSED |
| Cypher.PauseResume | src/beeflow/common/gdb/neo4j_cypher.py:487-500 | after pause then resume, no task is PAUSED: the RUNNING and PAUSED tasks are RUNNING and the others are unchanged |
| Cypher.ResetTasksMetadata | src/beeflow/common/gdb/neo4j_cypher.py:515-522 | every metadata node becomes a fresh one in state WAITING |
| Cypher.AllTasksCompleted | src/beeflow/common/gdb/neo4j_cypher.py:538-548 | true iff no metadata node has a state other than COMPLETED; vacuously true with no tasks |
| Cypher.ResetNotCompleted | src/beeflow/common/gdb/neo4j_cypher.py:515-548 | after a reset, a workflow with tasks is not completed |
| Cypher.IsEmpty | src/beeflow/common/gdb/neo4j_cypher.py:551-559 | true iff no node of any kind is stored |
| Cypher.WfValue | src/beeflow/common/gdb/neo4j_cypher.py:440-443 | a value exactly when some workflow input with that id has one, and then one of those values |
| Cypher.InitInput | src/beeflow/common/gdb/neo4j_cypher.py:440-449 | an input reading a valued workflow input takes that value; still unvalued it takes its default; an input reading no workflow input is unchanged |
| Cypher.SetInitTaskInputs | src/beeflow/common/gdb/neo4j_cypher.py:438-452 | only the inputs of tasks that BEGIN the workflow change, each as `InitInput` says |
| Cypher.InitInputsTakeValues | src/beeflow/common/gdb/neo4j_cypher.py:438-452 | after the queries, an input holds a workflow input's value or falls back to its default, and never loses a value |
| Cypher.OutValue | src/beeflow/common/gdb/neo4j_cypher.py:463-466 | a value exactly when some output with that id has one |
| Cypher.FindOutput | src/beeflow/common/gdb/neo4j_cypher.py:476-480 | the first output with that id, or none exactly when no output has it |
| Cypher.CopyInput | src/beeflow/common/gdb/neo4j_cypher.py:463-475 | a dependent input takes the valued output it reads; otherwise its default when the defaults query matches: another dependency of the dependent, distinct from the finished task, has a metadata node, and every such one is COMPLETED |
| Cypher.CopyWfOutput | src/beeflow/common/gdb/neo4j_cypher.py:476-480 | a workflow output reading an output of the task takes its value, set or not |
| Cypher.CopyTaskOutputs | src/beeflow/common/gdb/neo4j_cypher.py:455-484 | only the dependents of the task and the workflow outputs change, as `CopyInput` and `CopyWfOutput` say, with the defaults applied under the condition of the defaults query for each dependent |
| Cypher.CopyOutputsFeedDependents | src/beeflow/common/gdb/neo4j_cypher.py:463-475 | a dependent input with a valued source holds it; an unvalued input takes its default exactly when the dependent has a dependency other than the finished task with a metadata node and all such are COMPLETED |
| Cypher.CopyOnlyDependencyNoDefault | src/beeflow/common/gdb/neo4j_cypher.py:468-475 | a dependent whose only dependency is the finished task never takes a default: the pattern's two DEPENDS relationships must be distinct |
| Cypher.MetadataQueryClauses | src/beeflow/common/gdb/neo4j_cypher.py:401-408 | the query is the MATCH followed by one SET clause per item, first to last |
| Cypher.ClausesSnoc | src/beeflow/common/gdb/neo4j_cypher.py:404-408 | each further item appends exactly its clause |
| Cypher.SetClauseQuotes | src/beeflow/common/gdb/neo4j_cypher.py:405-408 | string values are wrapped in single quotes, other values are written as is |
| Cypher.ApplyItems | src/beeflow/common/gdb/neo4j_cypher.py:404-410 | the keys afterwards are the old keys plus those of the items |
| Cypher.ApplyItemsLookup | src/beeflow/common/gdb/neo4j_cypher.py:404-410 | with distinct keys, each item's key holds that item's value |
| Cypher.ApplyItemsKeeps | src/beeflow/common/gdb/neo4j_cypher.py:404-410 | keys no item names keep their values |
| Cypher.SetTaskMetadata | src/beeflow/common/gdb/neo4j_cypher.py:393-410 | only the named task's metadata changes, by the items |
| Cypher.BuildMetadataQuery | src/beeflow/common/gdb/neo4j_cypher.py:401-408 | the loop builds the MATCH followed by the clauses of the items |
| Cypher.GraphDatabase.CreateTaskMetadataNodeTx | src/beeflow/common/gdb/neo4j_cypher.py:169-180 | the stored graph becomes `CreateTaskMetadataNode` of the old one |
| Cypher.GraphDatabase.AddDependenciesTx | src/beeflow/common/gdb/neo4j_cypher.py:183-210 | the stored graph becomes `AddDependencies` of the old one |
| Cypher.GraphDatabase.SetTaskStateTx | src/beeflow/common/gdb/neo4j_cypher.py:367-378 | the stored graph becomes `SetTaskState` of the old one |
| Cypher.GraphDatabase.SetTaskMetadataTx | src/beeflow/common/gdb/neo4j_cypher.py:393-410 | the query text is built and the stored graph becomes `SetTaskMetadata` of the old one |
| Cypher.GraphDatabase.SetInitTasksToReadyTx | src/beeflow/common/gdb/neo4j_cypher.py:429-435 | the stored graph becomes `SetInitTasksToReady` of the old one |
| Cypher.GraphDatabase.SetInitTaskInputsTx | src/beeflow/common/gdb/neo4j_cypher.py:438-452 | the stored graph becomes `SetInitTaskInputs` of the old one |
| Cypher.GraphDatabase.CopyTaskOutputsTx | src/beeflow/common/gdb/neo4j_cypher.py:455-484 | the stored graph becomes `CopyTaskOutputs` of the old one: the dependents' inputs and the workflow outputs as that function and its lemmas state |
| Cypher.GraphDatabase.SetRunningTasksToPausedTx | src/beeflow/common/gdb/neo4j_cypher.py:487-492 | the stored graph becomes `SetRunningTasksToPaused` of the old one |
| Cypher.GraphDatabase.SetPausedTasksToRunningTx | src/beeflow/common/gdb/neo4j_cypher.py:495-500 | the stored graph becomes `SetPausedTasksToRunning` of the old one |
| Cypher.GraphDatabase.SetRunnableTasksToReadyTx | src/beeflow/common/gdb/neo4j_cypher.py:503-512 | the stored graph becomes `SetRunnableTasksToReady` of the old one |
| Cypher.GraphDatabase.ResetTasksMetadataTx | src/beeflow/common/gdb/neo4j_cypher.py:515-522 | the stored graph becomes `ResetTasksMetadata` of the old one |
| WfManager.ValidateWfId | src/beeflow/wf_manager.py:124-133 | `int()` of a non-number raises; 42 lets the handler run; any other number gets 404 'wf_id not found' |
| WfManager.ValidateWfIdNumbers | src/beeflow/wf_manager.py:127-132 | the text of 42 passes, and the text of any other integer is refused with 404 |
| PyText.ParseIntUnderscore | src/beeflow/wf_manager.py:127 | `int()` accepts a single underscore between digits: "4_2" is 42 |
| PyText.ParseIntToString | src/beeflow/wf_manager.py:127 | `int(str(i))` is `i` for every integer |
| WfManager.Names | src/beeflow/wf_manager.py:208 | one name per task, in order |
| WfManager.SubmitTasksTm | src/beeflow/wf_manager.py:203-212 | fails exactly when given a single task instead of a list; a list gives one name per task |
| WfManager.ResumeSavedTaskFails | src/beeflow/wf_manager.py:260-266 | as written, resuming a saved task raises before anything is submitted, and the task stays saved |
| WfManager.ResumeFixed | src/beeflow/wf_manager.py:260-266 | resuming with a one-element list submits the saved task, if any, and clears it |
| WfManager.TasksToSched | src/beeflow/wf_manager.py:269-282 | same length and order; each entry has the task's name, workflow 'workflow' and requirements max_runtime 1, nodes 1 |
| WfManager.Visible | src/beeflow/wf_manager.py:317 | exactly the tasks other than bee_init and bee_exit are kept |
| WfManager.VisibleSnoc | src/beeflow/wf_manager.py:317 | the kept tasks stay in order: appending a task appends it to the kept ones unless it is hidden |
| WfManager.StatusTextLines | src/beeflow/wf_manager.py:315-318 | the status text is one `name--state` line per visible task, in order |
| WfManager.JobActionsGet | src/beeflow/wf_manager.py:310-321 | a bad id is refused as `validate_wf_id` says; otherwise the response carries the status lines with 200 |
| WfManager.UpdateDecision | src/beeflow/wf_manager.py:381-394 | only COMPLETED acts: save the task while paused, else submit exactly when the workflow is not complete and tasks are ready |
| WfManager.WorkflowManager.constructor | src/beeflow/wf_manager.py:248-249 | not paused, nothing saved, nothing sent |
| WfManager.WorkflowManager.SaveTaskOf | src/beeflow/wf_manager.py:253-257 | the saved task is replaced by the new one; nothing else changes |
| WfManager.WorkflowManager.Resume | src/beeflow/wf_manager.py:260-266 | as written: with a saved task, passing the task itself to `submit_tasks_tm` fails, nothing reaches the task manager and the task stays saved; without one nothing is sent; only the saved task changes |
| WfManager.WorkflowManager.Patch | src/beeflow/wf_manager.py:338-358 | 'pause' sets the flag with 200; 'resume' clears the flag and, if it was set with a task saved, fails as `resume` does and leaves the task saved, otherwise answers 200 with nothing saved after a set flag; any other option is 400 and changes nothing; the id check comes first |
| WfManager.WorkflowManager.JobUpdatePut | src/beeflow/wf_manager.py:372-398 | the reported state is always set; then saving, or submitting to the scheduler and the task manager, as `UpdateDecision` says; the response is 200 |
| WfUpdate.Merge | beeflow/wf_manager/resources/wf_update.py:82-87 | the merged metadata has the keys of both; new keys win and the other old keys are kept |
| WfUpdate.OutputValue | beeflow/wf_manager/resources/wf_update.py:112-116 | an output's value is its glob, or "temp" when it has none |
| WfUpdate.SetOutputs | beeflow/wf_manager/resources/wf_update.py:111-116 | exactly the task's output keys are added; no other output changes |
| WfUpdate.SetOutputsValue | beeflow/wf_manager/resources/wf_update.py:112-116 | each output of the task holds its glob or "temp" |
| WfUpdate.Archive | beeflow/wf_manager/resources/wf_update.py:24-32 | the workflow is 'Archived' in the database and in its status |
| WfUpdate.ArchiveAndKill | beeflow/wf_manager/resources/wf_update.py:122-134 | the workflow is archived and its graph database's process killed |
| WfUpdate.Record | beeflow/wf_manager/resources/wf_update.py:69-87 | the state is written to the graph interface and the database, and the metadata merged; nothing else changes |
| WfUpdate.Restart | beeflow/wf_manager/resources/wf_update.py:95-109 | with no restart left the workflow is 'Failed' in both stores; otherwise the new task is added as WAITING and submitted alone |
| WfUpdate.Finish | beeflow/wf_manager/resources/wf_update.py:111-134 | outputs set; ready tasks submitted exactly when there are some and the workflow is not PAUSED; archived and killed once per completed or FAILED condition |
| WfUpdate.AfterRecord | beeflow/wf_manager/resources/wf_update.py:89-138 | nothing after recording touches the recorded state or metadata |
| WfUpdate.PutUnknownTask | beeflow/wf_manager/resources/wf_update.py:69-71 | a task the graph interface does not know fails the request and changes nothing |
| WfUpdate.PutRecordsState | beeflow/wf_manager/resources/wf_update.py:69-87 | the state is in both stores whatever else happens, with the metadata merged |
| WfUpdate.PutRestart | beeflow/wf_manager/resources/wf_update.py:95-109 | with a checkpoint, either 'Failed' and no submission, or the new task added as WAITING and submitted alone; the outputs are untouched |
| WfUpdate.PutFinished | beeflow/wf_manager/resources/wf_update.py:111-138 | COMPLETED or FAILED without checkpoint finishes as `Finish` says |
| WfUpdate.PutOtherState | beeflow/wf_manager/resources/wf_update.py:136-138 | any other state only records state and metadata, and returns 200 |
| WfUpdate.UpdateResource.SetTaskOutputs | beeflow/wf_manager/resources/wf_update.py:112-116 | the loop over the task's outputs sets them as `SetOutputs` describes and changes nothing else |
| WfUpdate.UpdateResource.Put | beeflow/wf_manager/resources/wf_update.py:61-138 | the stores change in place, call by call, exactly as `PutOutcome` says, with its response or exception |
| Requirements.Coerce | beeflow/common/gdb/neo4j_driver.py:215-248 | integer iff all digits; float iff not digits and float-parseable; boolean iff neither and "True" or "False"; otherwise the same string |
| Requirements.CoerceNatToString | beeflow/common/gdb/neo4j_driver.py:241-242 | a natural written in decimal comes back as that integer |
| Requirements.CoerceKeepsText | beeflow/common/gdb/neo4j_driver.py:236-250 | a value neither integer nor float comes back as the text it was |
| Requirements.Step3Elements | beeflow/common/gdb/neo4j_driver.py:240 | a step-3 slice has the expected length and the elements at start + 3k |
| Requirements.Zip3 | beeflow/common/gdb/neo4j_driver.py:240 | `zip` gives as many triples as the shortest list, position by position |
| Requirements.TriplesLayout | beeflow/common/gdb/neo4j_driver.py:240 | a list of length n gives floor(n/3) triples from positions 3i, 3i+1, 3i+2 |
| Requirements.ReconstructRequirement | beeflow/common/gdb/neo4j_driver.py:239-252 | the loop builds the set of the decoded triples |
| Requirements.ReconstructedMembers | beeflow/common/gdb/neo4j_driver.py:239-252 | a requirement is in the set exactly when some whole group of three decodes to it |
| Requirements.ReconstructedShort | beeflow/common/gdb/neo4j_driver.py:240 | fewer than three strings, the empty list included, give the empty set |
| Requirements.ReconstructedIgnoresTail | beeflow/common/gdb/neo4j_driver.py:240 | one or two trailing strings change nothing |
| Requirements.ReconstructedRepeated | beeflow/common/gdb/neo4j_driver.py:239-252 | repeated groups collapse in the set |
| Requirements.ReconstructedSize | beeflow/common/gdb/neo4j_driver.py:239-252 | at most one requirement per group of three |
| LsfWorker.BeeStatesTable | src/beeflow/common/worker/lsf_worker.py:77-83 | exactly seven LSF states; the three suspended ones are PAUSED and nothing else is |
| LsfWorker.LsfWorker.constructor | src/beeflow/common/worker/lsf_worker.py:51-85 | the work directory, the template text (empty when none is configured or it cannot be read), the state table, and runner options defaulting to '' |
| LsfWorker.LsfWorker.BuildText | src/beeflow/common/worker/lsf_worker.py:87-136 | a failing substitution of the header raises; otherwise the text is the rendered template alone, the header discarded |
| LsfWorker.LsfWorker.WriteScript | src/beeflow/common/worker/lsf_worker.py:138-147 | when the text can be built, the script's path is returned |
| LsfWorker.LsfWorker.ScriptPath | src/beeflow/common/worker/lsf_worker.py:140-143 | `{workdir}/workflows/{workflow_id}/{name}-{id}/{name}-{id}.sh` |
| LsfWorker.LsfWorker.QueryJob | src/beeflow/common/worker/lsf_worker.py:149-156 | succeeds iff the answer has no 'not found', has three fields and its third is in the table; then gives that field's BEE state |
| LsfWorker.LsfWorker.SubmitJob | src/beeflow/common/worker/lsf_worker.py:158-163 | succeeds iff the job id and the state can both be read; then gives both |
| LsfWorker.LsfWorker.SubmitTask | src/beeflow/common/worker/lsf_worker.py:165-169 | writes the script, then submits it |
| LsfWorker.LsfWorker.CancelTask | src/beeflow/common/worker/lsf_worker.py:176-180 | succeeds exactly when `bkill` on the job exits with status 0, and then gives CANCELLED; otherwise CalledProcessError |
| LsfWorker.CancelCommand | src/beeflow/common/worker/lsf_worker.py:178 | the command is `bkill` with one argument, which `int()` reads back as the job id |
| LsfWorker.JobId | src/beeflow/common/worker/lsf_worker.py:161 | succeeds iff there is a second field whose inside, brackets removed, is an integer; then that integer |
| LsfWorker.JobIdOfBsubAnswer | src/beeflow/common/worker/lsf_worker.py:160-161 | an answer `Job <123> ...` gives back 123 |
| LsfWorker.QueryJobOfBjobsLine | src/beeflow/common/worker/lsf_worker.py:153-155 | a `bjobs` line whose STAT field is an LSF state gives that state's BEE state |
| LsfWorker.QueryJobNotFound | src/beeflow/common/worker/lsf_worker.py:153-154 | an answer containing 'not found' never gives a state |
| SimpleWorker.StateOf | src/beeflow/common/worker/simple_worker.py:63-70 | RUNNING iff no return code, COMPLETED iff 0, FAILED iff any other code |
| SimpleWorker.SimpleWorker.constructor | src/beeflow/common/worker/simple_worker.py:27-31 | no process is recorded |
| SimpleWorker.SimpleWorker.SubmitTask | src/beeflow/common/worker/simple_worker.py:33-44 | the process is recorded under the task id, replacing any earlier one; the answer is (task id, PENDING) |
| SimpleWorker.SimpleWorker.CancelTask | src/beeflow/common/worker/simple_worker.py:46-54 | a known job's process is killed and the answer is CANCELLED; an unknown job is a KeyError that kills nothing |
| SimpleWorker.SimpleWorker.QueryTask | src/beeflow/common/worker/simple_worker.py:56-70 | a known job's state follows from its process's return code; an unknown job is a KeyError |
| SimpleWorker.SubmitThenQuery | src/beeflow/common/worker/simple_worker.py:33-70 | a query after a submit asks the process just started |
| DataTask.Task.constructor | beeflow/common/data/task.py:7-28 | id, base command, arguments, dependencies and requirements are stored unchanged; the name is not |
| DataTask.Task.ConstructCommand | beeflow/common/data/task.py:34-37 | the base command alone without arguments, else the base command and each argument joined by single spaces |
| DataTask.CommandLine | beeflow/common/data/task.py:37 | starts with the base command; an empty argument list gives just the base command |
| DataTask.CommandLineSplits | beeflow/common/data/task.py:37 | the command splits back into the base command and the arguments when none holds a space |
| DataTask.CommandLineLength | beeflow/common/data/task.py:37 | each argument adds its length plus one space |
| BeeLog.LevelName | src/beeflow/common/log.py:6-7 | level 15 is named STEP_INFO; a level without a name is shown as `Level <n>` |
| BeeLog.LevelNameNumber | src/beeflow/common/log.py:6-7 | the name of each named level, NOTSET included, reads back as that level when given to `setLevel`; the text shown for any other level is refused |
| BeeLog.FormatTable | src/beeflow/common/log.py:32-57 | the colour table exactly when colours are asked for; both tables have the same six level keys |
| BeeLog.FormatFor | src/beeflow/common/log.py:59-66 | the table's format for a named level, else the default message format |
| BeeLog.PlainFormatUncoloured | src/beeflow/common/log.py:41-48 | without colours every level shows level name, colon and message |
| BeeLog.ConsoleHandlersSplit | src/beeflow/common/log.py:117-128 | every record passes exactly one of the two console handlers; INFO and STEP_INFO go to the first |
| BeeLog.Logger.constructor | src/beeflow/common/log.py:110 | a fresh logger has no handlers |
| BeeLog.Logger.SetupLogging | src/beeflow/common/log.py:103-130 | a logger with handlers only gets the level; otherwise the two console handlers are added first; a level name `setLevel` does not know raises ValueError and leaves the level as it was, the handlers already added |
| BeeLog.Logger.SaveLog | src/beeflow/common/log.py:132-156 | one file handler without colours is added, on the path as written |
| BeeLog.SaveLogPathAbsolute | src/beeflow/common/log.py:144-148 | with an absolute work directory the doubled join is harmless |
| BeeLog.SaveLogPathRelative | src/beeflow/common/log.py:144-148 | with work directory "bee" the file opened is bee/bee/logs/x.log, outside the directory bee/logs that was created |
| BeeLog.IntendedLogPathInLogDir | src/beeflow/common/log.py:144-148 | the intended file always lies in the directory just created |
| BeeStart.StartAllCount | src/beeflow/cli.py:356 | starting everything means no service flag, or all five |
| BeeStart.Offset | src/beeflow/cli.py:37-39 | the offset is below 100 |
| BeeStart.DefaultPort | src/beeflow/cli.py:40-45 | a default port lies in [base, base+99] at offset uid mod 100 |
| BeeStart.DefaultPortsPerUser | src/beeflow/cli.py:37-45 | two users get the same default port iff their ids agree modulo 100 |
| BeeStart.DefaultPortText | src/beeflow/cli.py:40-50 | a default port written into the configuration reads back as base + uid mod 100 |
| BeeStart.ModifySection | src/beeflow/cli.py:50 | the options are set in the section; other sections are unchanged |
| BeeStart.WithDefaults | src/beeflow/cli.py:31-50 | a missing section is written with its defaults; an existing one is left as it is |
| BeeStart.StartTaskManager | src/beeflow/cli.py:237-270 | as written, without a task_manager section no process is given; with one the process is started; a given job template is written in both cases |
| BeeStart.StartTaskManagerFixed | src/beeflow/cli.py:237-270 | corrected, no process only under `--config-only` |
| BeeStart.StartService | src/beeflow/cli.py:28-303 | each helper writes its section, drops none, and gives a process unless `--config-only` (the task manager as written aside) |
| BeeStart.PlanAll | src/beeflow/cli.py:393-437 | starting everything tries slurmrestd (only under Slurm), then the scheduler, database, workflow manager and task manager |
| BeeStart.PlanWanted | src/beeflow/cli.py:393-437 | a service is tried iff its flag or start_all holds (slurmrestd also needs Slurm), and at most once |
| BeeStart.Configured | src/beeflow/cli.py:372-377 | the command-line work directory and scheduler overwrite the DEFAULT section |
| BeeStart.Scheduler | src/beeflow/cli.py:388-392 | the configured workload scheduler, or 'Slurm' written as the default |
| BeeStart.StartIfWanted | src/beeflow/cli.py:402-411 | one block of `main` performs the next step of the plan run: on no process, not config-only, it stops with 1 |
| BeeStart.RunMain | src/beeflow/cli.py:354-456 | the debug check returns 1 before configuring anything; otherwise the outcome of running the plan in order |
| BeeStart.StartServices | src/beeflow/cli.py:393-437 | the five blocks compute the plan run |
| BeeStart.StartLastThree | src/beeflow/cli.py:412-437 | the last three blocks compute the rest of the plan run |
| BeeStart.StarterWritesSections | src/beeflow/cli.py:28-303 | every helper writes its own section and drops none |
| BeeStart.RunPlanKeepsSections | src/beeflow/cli.py:393-437 | sections once written stay |
| BeeStart.RunPlanConfigOnly | src/beeflow/cli.py:393-439 | with `--config-only`, every wanted service is configured, none is waited for, and the code is 0 |
| BeeStart.RunPlanPrefix | src/beeflow/cli.py:393-437 | the services tried are a prefix of the plan; the code is 0 or 1, and 0 only after the whole plan |
| BeeStart.RunPlanAllStarted | src/beeflow/cli.py:402-437 | when every process starts, all wanted services are tried and the scheduler, workflow manager and task manager are waited for, by name |
| BeeStart.TmStartsLast | src/beeflow/cli.py:429-434 | a task manager without its section makes the run end with 1 after everything before it started |
| BeeStart.StarterAsWritten | src/beeflow/cli.py:237-256 | as written, every helper but the task manager starts; without its section the task manager does not |
| BeeStart.StarterFixedStarts | src/beeflow/cli.py:207-235 | with the task manager corrected, every helper starts |
| BeeStart.FirstStartExitsWithOne | src/beeflow/cli.py:240-256 | as written, a first start without a task_manager section ends with 1 though every process could start |
| BeeStart.AllStartedExitsZero | src/beeflow/cli.py:393-456 | corrected, the same first start starts every service of the plan (slurmrestd only under Slurm) and ends with 0, waiting for three processes |
| BeeStart.ReplaceJoin | src/beeflow/cli.py:105-107 | replacing a pattern without a newline in the whole text is replacing it line by line |
| BeeStart.ThreeReplaces | src/beeflow/cli.py:105-107 | three replacements of patterns none contains another turn a line into its replacement |
| BeeStart.UncommentLines | src/beeflow/cli.py:105-107 | the edit of the whole text is the edit of each line |
| BeeStart.Neo4jConfLines | src/beeflow/cli.py:105-107 | the three commented listen lines are replaced by uncommented lines with the configured ports and every other line is left alone |
| BeeStart.Neo4jConfEdit | src/beeflow/cli.py:105-107 | the same, given ports without `#` |

## Left out

- Floating point. `float()` in the requirement decoder is an oracle (`FloatParser`) and float values are reals. MARS, its policy, training and the `Logger` wrapper's file logging (beeflow/scheduler/algorithms.py:164-259, beeflow/scheduler/train.py) are outside the model; `Choose` only names them.
- The resource arithmetic of `sched_types` and `util` (`rsum`, `diff`, `fits_requirements`, `calculate_overlap`, `calculate_remaining`, `allocate_aggregate`) enters as functions of `Env`. FCFS assumes only that the overlap is drawn from the allocations and ends after the time asked about.
- `time.time()` is a parameter; the time Backfill takes is not modelled.
- `str.isdigit` is modelled on ASCII digits only; Python also accepts other Unicode digits.
- WfManager.ValidateWfId: `int()` is modelled for ASCII decimal digits with single underscores; the other Unicode decimal digits Python also accepts are not modelled. The same holds for the job id `LsfWorker.JobId` reads.
- DataTask.CommandLineSplits: "a space" means any character Python's `str.isspace()` accepts, the set `PyText.IsSpace` lists.
- WfManager.WorkflowManager.Patch: as written, a failed resume leaves the flag cleared with a task still saved, so the invariant that a task is saved only while paused is not kept by `Patch`.
- Requirements.Reconstructed: Python's `1 == 1.0 == True` makes such requirements collapse into one set element; the model keeps them apart.
- Encode/decode of `TimeSlot`, `Partition`, `Cluster` and `Workflow` (self-referencing and shallow-copy aliasing), and the shared mutable default arguments: each instance gets its own list.
- Allocation.Partition.Fit: the possible overrun is modelled as written; the corrected `FitInSlot` is stated beside it and `fcfs` uses the code as written.
- The back-pointer from a time slot to its partition is not kept.
- Concurrency: the APScheduler job of the task manager runs `check_tasks` as one sequential step.
- Flask, HTTP, `requests`, `jsonpickle`: handlers are methods; messages sent are recorded in logs.
- Processes, files, directories, `tar`, copying the configuration, writing the output JSON file of `WFUpdate.put`, jinja2 and `string.Template`: parameters or left out.
- Under each task, `Graph` keeps one metadata node; where several match, the first valued source is taken. Hint and requirement nodes, the `get_*` read queries, `set_task_output`, `reset_workflow_id` and `cleanup` are not modelled.
- Cypher injection through `set_task_metadata` keys and values is not modelled; values are rendered as given.
- The Neo4j driver's own load sequence and session plumbing are not part of this model; `LoadTask` stands for create, metadata, dependencies.
- The stray `checkthis` in src/beeflow/wf_manager.py:405 raises NameError on import; the handlers are modelled as if the module loaded.
- Hints are maps of maps; `dict(task.hints)` on other shapes is not modelled.
- LsfWorker.LsfWorker.BuildText: the runner and MPI options it computes are unused in the source and are not modelled.
- `config_driver` and `BeeConfig` are not part of this model: the configuration is a map of sections, and the DEFAULT-section fallback of configparser is not modelled.
- BeeStart.BeeWorkdir: a missing `bee_workdir` gives "" where Python's join would raise TypeError.
- BeeStart.RunMain: `setup_logging` is taken never to return None (src/beeflow/cli.py:380-383); the sleep, poll and wait at the end only log (441-454); `create_pid_file`, the slurmrestd socket removal, the Charliecloud `which` checks and the image unpacking are folded into the `launch` oracle; the Windows parent-process offset is the `id` parameter.
- Log handlers other than the console and file handlers, stream output and `catch_exception` are not modelled.
- `wf_data` and the driver's hint conversion are not part of this model.
- Algorithms.BackfillPassRequeues: stated by membership, not by the order of the tasks left, which the source keeps in visiting order.

## Findings

| source | as written | input that shows it | evidently intended | confidence | as-written member | corrected member |
|---|---|---|---|---|---|---|
| beeflow/task_manager/task_manager.py:179-187 | `delete` removes from `job_queue` while iterating it | three distinct queued jobs | cancel every job | high, not executed | TaskManager.DeleteLeavesEveryOther | TaskManager.DeleteAllCancelsEvery |
| beeflow/task_manager/task_manager.py:121-136 | `update_jobs` removes a finished job while iterating, skipping the next | job 1 completed, job 2 now running | every job is queried each round | high, not executed | TaskManager.UpdateJobsSkipsNext | TaskManager.UpdateAllEvery |
| src/beeflow/wf_manager.py:260-266 | `resume` passes one task to `submit_tasks_tm`, which iterates it | pause, complete a task, resume | submit the saved task as a list | high, not executed | WfManager.ResumeSavedTaskFails | WfManager.ResumeFixed |
| src/beeflow/common/gdb/neo4j_cypher.py:195-207 | the downstream half runs only on rows the upstream half left | a consumer loaded before a producer that reads only a workflow input | both halves independent | medium, not executed | Cypher.AddDependenciesMissesConsumer | Cypher.LoadAllBothDepends |
| src/beeflow/common/log.py:144-148 | the work directory is joined in twice | bee_workdir "bee", logfile "x.log" | the file inside the logs directory | medium, not executed | BeeLog.SaveLogPathRelative | BeeLog.IntendedLogPathInLogDir |
| src/beeflow/cli.py:241-256 | `StartTaskManager` returns None after writing the defaults | first start, no task_manager section | start the task manager | medium, not executed | BeeStart.FirstStartExitsWithOne | BeeStart.AllStartedExitsZero |
| beeflow/scheduler/allocation.py:213-216 | `fit` ignores the slot's length | open slot 10-12, task of 5, start 7 | offer only slots the task `fits` | medium, not executed | Allocation.FitOverrunsSlot | Allocation.FitInSlotInside |
