# Repartition execution in Citus, modelled in Dafny

This project models how Citus runs the tasks of a repartition join. It also models the small
planner that handles queries over citus local tables.

A repartition join is planned as a task graph:
- map tasks partition their shard's rows into files;
- map-output-fetch tasks copy one partition file to the worker of a merge task;
- merge tasks combine the fetched files;
- top-level tasks run elsewhere.

`ExecuteDependedTasks` runs every task below the top-level ones. It comes in two executor
variants, each with its own phases.

Adaptive executor, `adaptive_executor_repartioning.c`:
1. group the tasks by type;
2. write the fetch command into every map-output-fetch task;
3. create one temporary schema per job on every worker;
4. run the tasks round by round in dependency order.

Repartition logic, `repartition_logic.c`:
1. refuse to run after modifications in the transaction;
2. group the merge tasks;
3. create the schemas;
4. run the rounds;
5. remove the job directories of the same jobs on every worker.

How the main entities are modelled:
- **Tasks** (`TaskModel.Task`) are objects whose only mutable field is `queryString`.
  Dependencies are references to tasks that already exist, so the graph is acyclic by construction.
- **The completed-task hash table** is a class with `Enter` (`HASH_ENTER`) and `Find` (`HASH_FIND`).
- **The workers and the adaptive executor** form the `Workers.Cluster` class. Its `log` records
  every call that took effect. Whether a call succeeds is chosen freely: in C, a failure is an
  `ereport(ERROR)` that ends the whole query.
- **Runs** are stated with `Workers.Ran(outcome, before, after, planned)`. It means the log grew
  by a prefix of the planned calls, and by all of them exactly when the run passed. So an error
  in one phase skips all later phases.
- **The round loop** is proved against the functions `Schedule.Scan` (one pass over all tasks)
  and `Schedule.Rounds` (the batches until a pass admits nothing).

Command text is symbolic. Every SQL template is a constructor of `TaskModel.Statement`, so
filling a template is injective in its arguments. Appending to a `StringInfo` is sequence
concatenation.

Some functions are identical in both executor files:
- `CreateJobIds` / `DoesJobIDExist`;
- `SendCommandToAllWorkers`;
- `CreateSchemasOnAllWorkers`;
- `CleanUpSchemas`.

Each is defined once, in `JobIds` or `Workers`. In the adaptive file, `GenerateCreateSchemasCommand`
is its own loop. In `repartition_logic.c` it goes through `GenerateCommand`. Both are modelled and
proved equal to `JobCommands.ExpandTemplate`.

Behaviour of the code worth knowing:
- **Rounds are not a strict barrier.** `IsTaskAlreadyCompleted` probes with `HASH_ENTER`, so a
  ready task's key is entered during the scan itself. A later task of the same scan that depends
  on it is admitted into the same batch, and the executor may run the two concurrently
  (`Schedule.DependentJoinsSameBatch`). In general, a task that is ready when the scan reaches
  it is admitted (`Schedule.ReadyWhenReachedIsAdmitted`).
  - The barrier is strict when the task list holds dependents before their dependencies
    (`Schedule.ScanIsBarrierWhenDependentsFirst`).
  - A map, a fetch and a merge task listed dependents-first take three rounds. Listed with
    dependencies first they take one (`Scenarios.DependentsFirstTakesThreeRounds`,
    `Scenarios.DependenciesFirstTakesOneRound`).
  - The order of the task list comes from `TaskAndExecutionList`, which is not part of this model.
- **Completion is recorded during the scan, not after the batch.** The keys of a batch are already
  in the table before the batch is dispatched, and the later `AddCompletedTasks` changes nothing
  (`DependencyOrder.RecordingABatchAgainChangesNothing`). This cannot be observed, because an
  executor error ends the run and the table is discarded.
- **Fetch queries are written before scheduling.** The adaptive executor writes them once, before
  any schema is created, not round by round. Every executor call therefore sends each fetch task
  with its fetch command: the `log` records the query text of every task at the moment of the
  call. `repartition_logic.c` does not write them at all.
- **Only the first dependency is read.** The fetch command is built from the first dependency of
  each fetch task (`linitial`); nothing checks that there is exactly one.
- **The adaptive variant tears nothing down.** It removes no job directories. Only
  `repartition_logic.c` sends the delete-jobdir batch.
- **Two broad rules in `citus_local_planner.c`:**
  - Every command that is not INSERT, UPDATE or DELETE is checked by the SELECT rules of the
    validator, not only SELECT.
  - The INSERT .. SELECT rule fires when the query has any reference or distributed table, not
    only when the SELECT part reads one.

Source paths below are relative to the repository root.

Some functions only define the terms the executor contracts are written in and state no
property of their own, so the table leaves them out: `Workers.QueriesOf` (the query text of
each task of a list), `Workers.QueriesIn` (the same text read from a snapshot),
`Workers.TaskListEvents` (one executor call per batch) and
`AdaptiveRepartitioning.FetchedQueries` (the query text after the fetch commands are written).
What they mean for the source is proved by `Workers.SnapshotMapHolds`,
`DependencyOrder.QueriesMatchSnapshot`, `AdaptiveRepartitioning.FetchedSnapshot` and
`AdaptiveRepartitioning.PlanSendsFetchQueries`.

## Model

| member | source | states |
|---|---|---|
| TaskModel.TaskHashCompare | src/backend/distributed/executor/adaptive_executor_repartioning.c:357-363 | returns 0 exactly when both jobId and taskId agree, and 1 otherwise |
| TaskModel.TaskKeyIdentifiesIds | src/backend/distributed/executor/adaptive_executor_repartioning.c:320-325 | two tasks get the same hash key, and TaskHashCompare calls them equal, exactly when they agree on jobId and taskId, whatever task objects they are |
| TaskGroups.FilterByTypeMembers | src/backend/distributed/executor/adaptive_executor_repartioning.c:73-85 | a task is in the filtered list exactly when it is in the task list and has the type |
| TaskGroups.FilterByTypeConcat | src/backend/distributed/executor/adaptive_executor_repartioning.c:73-85 | filtering a concatenation concatenates the filtered parts, so relative order is kept |
| AdaptiveRepartitioning.FillTaskGroups | src/backend/distributed/executor/adaptive_executor_repartioning.c:68-86 | appends the order-preserving filter on map-output-fetch tasks to the fetch list and the filter on merge tasks to the merge list; the task list is only read |
| TaskGroups.FilterByTypeKeepsAll | src/backend/distributed/executor/repartition_logic.c:88-97 | a list holding only tasks of the type is its own filter |
| RepartitionLogic.FillTaskGroups | src/backend/distributed/executor/repartition_logic.c:84-98 | appends the order-preserving filter on merge tasks to the merge list |
| AdaptiveRepartitioning.MapFetchTaskQueryString | src/backend/distributed/executor/adaptive_executor_repartioning.c:112-136 | the one fetch command decodes to map jobId, map taskId, fetch partitionId, fetch upstreamTaskId, node name and port of the map task's first placement, in that order; requires a fetch task and a map task with a placement |
| AdaptiveRepartitioning.FetchQueryInjective | src/backend/distributed/executor/adaptive_executor_repartioning.c:129-133 | two fetch tasks get the same query only when all six parameters agree |
| AdaptiveRepartitioning.FetchQueryExample | src/backend/distributed/executor/adaptive_executor_repartioning.c:112-136 | map task (10, 2) on w1:5432, partition 4, merge task 20 gives the arguments (10, 2, 4, 20, w1, 5432) |
| AdaptiveRepartitioning.PutMapOutputFetchQueryStrings | src/backend/distributed/executor/adaptive_executor_repartioning.c:89-103 | every listed fetch task's queryString becomes the fetch command built from its first dependency; only those tasks are written |
| JobIds.Dedup | src/backend/distributed/executor/adaptive_executor_repartioning.c:148-163 | the first occurrences have no duplicates, the same members as the input and at most its length |
| JobIds.DedupFirstOccurrenceOrder | src/backend/distributed/executor/adaptive_executor_repartioning.c:154-161 | the distinct ids are listed in the order of their first occurrence in the input |
| JobIds.DedupOfDistinct | src/backend/distributed/executor/repartition_logic.c:119-134 | a list without repetitions is returned unchanged |
| JobIds.DedupExample | src/backend/distributed/executor/repartition_logic.c:119-134 | job ids 3, 3, 7, 3, 9 give 3, 7, 9 |
| JobIds.DoesJobIDExist | src/backend/distributed/executor/adaptive_executor_repartioning.c:207-220 | true exactly when the job id is in the list |
| JobIds.CreateJobIds | src/backend/distributed/executor/adaptive_executor_repartioning.c:148-163 | the result is the first-occurrence dedup of the merge tasks' job ids: duplicate-free, and holding exactly the job ids of the merge tasks |
| JobCommands.GenerateCommand | src/backend/distributed/executor/repartition_logic.c:187-199 | exactly one sub-command per job id: the template applied to the i-th id at position i; no ids give the empty command |
| JobCommands.GenerateCreateSchemasCommand | src/backend/distributed/executor/repartition_logic.c:173-177 | the create-schema template applied to every job id in order |
| JobCommands.GenerateDeleteJobsCommand | src/backend/distributed/executor/repartition_logic.c:248-252 | the delete-jobdir template applied to every job id in order |
| JobCommands.ExpandTemplateRoundTrip | src/backend/distributed/executor/repartition_logic.c:187-199 | the job ids can be read back from the command unchanged, and every statement uses the template |
| JobCommands.OneStatementPerJob | src/backend/distributed/executor/repartition_logic.c:187-199 | with distinct ids, each job's statement occurs exactly once and the command holds nothing else |
| AdaptiveRepartitioning.GenerateCreateSchemasCommand | src/backend/distributed/executor/adaptive_executor_repartioning.c:192-204 | the create-schema template applied to every job id in order |
| Workers.Cluster.SendCommandListToWorkerInSingleTransaction | src/backend/distributed/executor/repartition_logic.c:162-164 | either the whole command list commits on that worker and is recorded, or nothing is and the call fails |
| Workers.Cluster.ExecuteTaskList | src/backend/distributed/executor/adaptive_executor_repartioning.c:253 | either the whole task list runs and is recorded, or nothing is recorded and the call fails |
| Workers.RanSequence | src/backend/distributed/executor/repartition_logic.c:69-77 | a phase that passed followed by a next phase makes a run of the concatenated plan |
| Workers.RanStopsEarly | src/backend/distributed/executor/repartition_logic.c:69-77 | a phase that failed makes a failed run of any longer plan: later phases never start |
| Workers.BroadcastEvents | src/backend/distributed/executor/repartition_logic.c:159-166 | one transaction per worker, in worker order, each carrying the identical command list as the extension owner |
| Workers.SnapshotMapHolds | src/backend/distributed/executor/adaptive_executor_repartioning.c:253 | a snapshot of the current query strings holds exactly the listed tasks, each with its own query |
| Workers.RanPassed | src/backend/distributed/executor/repartition_logic.c:153-167 | a run that made every planned call passed |
| Workers.RanFailed | src/backend/distributed/executor/repartition_logic.c:153-167 | a run that stopped with an error after n planned calls is a failed run of the plan |
| Workers.BroadcastFailed | src/backend/distributed/executor/repartition_logic.c:159-166 | a broadcast stopped at worker n recorded the workers before it and reports worker n |
| Workers.SendCommandToAllWorkers | src/backend/distributed/executor/repartition_logic.c:153-167 | the calls that took effect are a prefix of the broadcast, and all of it exactly when every worker committed; an error is that of the first worker whose transaction failed, the one after the recorded calls |
| Workers.CreateSchemasOnAllWorkers | src/backend/distributed/executor/repartition_logic.c:140-146 | broadcasts the one create-schemas command as a one-element command list, with the failing worker's error |
| Workers.CleanUpSchemas | src/backend/distributed/executor/repartition_logic.c:225-230 | broadcasts the one fixed cleanup statement, which names no job, with the failing worker's error |
| DependencyOrder.CompletedTaskTable.constructor | src/backend/distributed/executor/adaptive_executor_repartioning.c:276-283 | the table starts empty |
| DependencyOrder.CompletedTaskTable.Enter | src/backend/distributed/executor/adaptive_executor_repartioning.c:293 | reports whether the key was present and inserts it either way |
| DependencyOrder.CompletedTaskTable.Find | src/backend/distributed/executor/adaptive_executor_repartioning.c:310 | reports whether the key is present and changes nothing |
| DependencyOrder.AddCompletedTasks | src/backend/distributed/executor/adaptive_executor_repartioning.c:260-273 | the table grows by exactly the keys of the listed tasks |
| DependencyOrder.IsTaskAlreadyCompleted | src/backend/distributed/executor/adaptive_executor_repartioning.c:286-295 | true exactly when the task's key was present; the key is present afterwards in every case |
| DependencyOrder.IsAllDependencyCompleted | src/backend/distributed/executor/adaptive_executor_repartioning.c:298-317 | true exactly when every dependency's key is in the table |
| DependencyOrder.CollectReadyTasks | src/backend/distributed/executor/adaptive_executor_repartioning.c:237-247 | the batch and the new table are those of one Scan from the old table |
| DependencyOrder.ExecuteTasksInDependencyOrder | src/backend/distributed/executor/adaptive_executor_repartioning.c:223-257 | the executor calls that took effect are the batches of Rounds seeded with the top-level keys, in order, each sent with the query text its tasks had on entry; an error ends the run after the batches before it and is the executor's |
| DependencyOrder.RecordingABatchAgainChangesNothing | src/backend/distributed/executor/adaptive_executor_repartioning.c:254 | the keys of a scan's batch are already in the completed set the scan leaves, so adding them again changes nothing |
| DependencyOrder.LastRound | src/backend/distributed/executor/adaptive_executor_repartioning.c:249-252 | an empty scan ends the rounds |
| DependencyOrder.QueriesMatchSnapshot | src/backend/distributed/executor/adaptive_executor_repartioning.c:253 | tasks of the list sent while the queries are unchanged carry the text of the snapshot taken on entry |
| DependencyOrder.NextRound | src/backend/distributed/executor/adaptive_executor_repartioning.c:237-254 | the batch of a productive scan is the next round of Rounds, and fewer rounds are left |
| DependencyOrder.PlannedStep | src/backend/distributed/executor/adaptive_executor_repartioning.c:253 | recording one more batch extends the log by the next planned executor call |
| Schedule.Scan | src/backend/distributed/executor/adaptive_executor_repartioning.c:237-247 | the completed set after a scan is the one before it plus the keys of the batch |
| Schedule.ScanDrawsFromTasks | src/backend/distributed/executor/adaptive_executor_repartioning.c:237-246 | a batch holds only tasks of the task list |
| Schedule.ScanAdmitsOnlyReady | src/backend/distributed/executor/adaptive_executor_repartioning.c:242-246 | every task of a batch had its dependencies completed when reached, counting the tasks admitted before it, and was not completed itself |
| Schedule.ScanEmptyIff | src/backend/distributed/executor/adaptive_executor_repartioning.c:249-252 | a scan is empty exactly when no task is ready at its start |
| Schedule.ScanCompletesReady | src/backend/distributed/executor/adaptive_executor_repartioning.c:237-247 | a task whose dependencies were completed before a scan is completed after it |
| Schedule.ScanProgress | src/backend/distributed/executor/adaptive_executor_repartioning.c:235-256 | a non-empty scan completes a task key that was not completed, so the loop terminates |
| Schedule.Rounds | src/backend/distributed/executor/adaptive_executor_repartioning.c:235-256 | every listed batch is non-empty |
| Schedule.RoundsAdmitOnlyReady | src/backend/distributed/executor/adaptive_executor_repartioning.c:237-254 | in execution order, every task was ready when admitted, given the seed and everything admitted before it |
| Schedule.RoundsAtMostOnce | src/backend/distributed/executor/adaptive_executor_repartioning.c:242-246 | the keys of all admitted tasks are pairwise distinct and none was seeded: at most one batch per task |
| Schedule.SeededTasksNeverScheduled | src/backend/distributed/executor/adaptive_executor_repartioning.c:232-234 | no top-level task is ever put in a batch |
| Schedule.RoundsDrawFromTasks | src/backend/distributed/executor/adaptive_executor_repartioning.c:237-247 | every admitted task is from the task list |
| Schedule.RoundsReachFixpoint | src/backend/distributed/executor/adaptive_executor_repartioning.c:235-256 | once all batches have run, no task is ready |
| Schedule.RoundsCompleteEveryTask | src/backend/distributed/executor/adaptive_executor_repartioning.c:235-256 | on a ranked graph closed under dependencies, every task's key is completed when the loop stops |
| Schedule.RoundsRunEachTaskOnce | src/backend/distributed/executor/adaptive_executor_repartioning.c:235-256 | with unique keys on such a graph, every unseeded task runs in exactly one batch and no seeded task runs |
| Schedule.RoundsWithinDepth | src/backend/distributed/executor/adaptive_executor_repartioning.c:235-256 | there are at most as many non-empty batches as the graph is deep |
| Schedule.ReadyWhenReachedIsAdmitted | src/backend/distributed/executor/adaptive_executor_repartioning.c:237-246 | a task ready when the scan reaches it, counting the tasks admitted before it, is in the batch: the converse of ScanAdmitsOnlyReady |
| Schedule.DependentJoinsSameBatch | src/backend/distributed/executor/adaptive_executor_repartioning.c:293 | a task whose dependencies are a task ready earlier in the same scan, or were already completed, joins the same batch as that task unless it was completed on the way |
| Schedule.ScanIsBarrierWhenDependentsFirst | src/backend/distributed/executor/adaptive_executor_repartioning.c:237-246 | with dependents listed before dependencies, every task of a batch had all dependencies completed before the scan began |
| AdaptiveRepartitioning.CreateTemporarySchemas | src/backend/distributed/executor/adaptive_executor_repartioning.c:139-145 | broadcasts one command holding one create-schema statement per distinct job of the merge tasks; an error is the failing worker's |
| AdaptiveRepartitioning.FetchedSnapshot | src/backend/distributed/executor/adaptive_executor_repartioning.c:89-103 | after the write, every fetch task maps to its fetch command and every other task to the query it had before |
| AdaptiveRepartitioning.GroupAndFetch | src/backend/distributed/executor/adaptive_executor_repartioning.c:59-60 | returns the merge tasks in list order, and leaves every fetch task with its fetch command and every other task with its query |
| AdaptiveRepartitioning.FetchedQueriesHold | src/backend/distributed/executor/adaptive_executor_repartioning.c:60 | once the queries are written, every fetch task's queryString is its fetch command |
| AdaptiveRepartitioning.PlanSendsFetchQueries | src/backend/distributed/executor/adaptive_executor_repartioning.c:59-64 | in every executor call of the plan, each task comes from the task list and is sent with its fetch command if it is a fetch task, else with the query it had on entry |
| AdaptiveRepartitioning.SentFromPlan | src/backend/distributed/executor/adaptive_executor_repartioning.c:59-64 | every executor call that took effect in a run of the plan sent each fetch task with its fetch command |
| AdaptiveRepartitioning.ExecuteDependedTasks | src/backend/distributed/executor/adaptive_executor_repartioning.c:48-65 | every fetch task ends with its fetch command, and the calls that took effect are a prefix of the schema broadcast followed by the rounds, whose executor calls carry the fetch commands already; an error skips the rest and is the failing worker's within the broadcast, the executor's after it |
| RepartitionLogic.CreateTemporarySchemas | src/backend/distributed/executor/repartition_logic.c:105-112 | returns the distinct job ids of the merge tasks after broadcasting one create-schema statement per job; an error is the failing worker's |
| RepartitionLogic.RemoveTempJobDirs | src/backend/distributed/executor/repartition_logic.c:237-242 | broadcasts one command holding one delete-jobdir statement per job id; an error is the failing worker's |
| RepartitionLogic.ExecuteDependedTasks | src/backend/distributed/executor/repartition_logic.c:61-78 | nothing is sent after modifications; otherwise the calls that took effect are a prefix of the schema broadcast, the rounds with the queries the tasks had on entry, and the delete-jobdir broadcast, and all of it exactly on success: an error skips all later phases |
| RepartitionLogic.RunTasksAndRemoveJobDirs | src/backend/distributed/executor/repartition_logic.c:75-77 | the rounds, then the delete-jobdir broadcast unless a round failed; an error within the rounds is the executor's, after them the failing worker's |
| RepartitionLogic.ProvisionMatchesTeardown | src/backend/distributed/executor/repartition_logic.c:73-77 | both broadcasts name the same jobs in the same order; every merge task's job gets exactly one create-schema and one delete-jobdir statement, and no other job gets one |
| CitusLocalPlanner.ShouldUseCitusLocalPlanner | src/backend/distributed/planner/citus_local_planner.c:271-290 | the citus local planner is only chosen when there is a citus table |
| CitusLocalPlanner.NoCitusTableNoLocalPlanner | src/backend/distributed/planner/citus_local_planner.c:274-277 | without a citus table the answer is false |
| CitusLocalPlanner.LocalPlannerChoice | src/backend/distributed/planner/citus_local_planner.c:279-289 | with a citus table the answer is true exactly for a citus local table, or a reference table with the coordinator added as a worker |
| CitusLocalPlanner.ErrorIfUnsupportedQueryWithCitusLocalTables | src/backend/distributed/planner/citus_local_planner.c:308-400 | no error without a citus local table; the coordinator error exactly when there is one and the node is not the coordinator added as a worker |
| CitusLocalPlanner.ErrorsExactlyOnUnsupported | src/backend/distributed/planner/citus_local_planner.c:293-307 | an error is raised exactly for the unsupported queries listed case by case |
| CitusLocalPlanner.PlainModifyAccepted | src/backend/distributed/planner/citus_local_planner.c:328-336 | on the coordinator, a modification without reference or distributed tables is accepted |
| CitusLocalPlanner.ModifyErrors | src/backend/distributed/planner/citus_local_planner.c:338-368 | with reference or distributed tables, UPDATE/DELETE gets its error; INSERT gets the INSERT .. SELECT error exactly when it is INSERT .. SELECT into a citus local table |
| CitusLocalPlanner.SelectErrors | src/backend/distributed/planner/citus_local_planner.c:370-399 | a SELECT errors with distributed tables; otherwise it errors with reference tables exactly when it is not a simple select |
| CitusLocalPlanner.AcceptedLocalQueryUsesLocalPlanner | src/backend/distributed/planner/citus_local_planner.c:312-324 | an accepted query with a citus local table runs on the coordinator added as a worker and goes to the citus local planner |
| CitusLocalPlanner.SortPlacementsByShardId | src/backend/distributed/planner/citus_local_planner.c:224 | the placements come back sorted by shardId and as a permutation of the input |
| CitusLocalPlanner.SortedHeadIsMinimum | src/backend/distributed/planner/citus_local_planner.c:226-227 | the first placement of the sorted list is one of the placements and has the lowest shardId |
| CitusLocalPlanner.CitusLocalPlanTaskList | src/backend/distributed/planner/citus_local_planner.c:193-267 | a one-task list; SELECT_TASK for SELECT and MODIFY_TASK for a modification; anchorDistributedTableId is the result relation only for INSERT; placements are every relation's placements, sorted and permuted; the anchor shard is the lowest shardId of a placement |
| Scenarios.DependentsFirstTakesThreeRounds | src/backend/distributed/executor/adaptive_executor_repartioning.c:235-256 | top, merge, fetch, map listed in that order run in the rounds [map], [fetch], [merge] |
| Scenarios.DependenciesFirstTakesOneRound | src/backend/distributed/executor/adaptive_executor_repartioning.c:237-247 | top, map, fetch, merge listed in that order run in the single round [map, fetch, merge] |
| Scenarios.RepartitionCommands | src/backend/distributed/executor/repartition_logic.c:105-112 | in both orders job 5 gets one create-schema and one delete-jobdir statement, and the fetch task reads partition 0 for merge task 99 from the map task's first placement |

## Left out

- `ExecuteTasksInDependencyOrder` called at `repartition_logic.c:75` comes from
  `directed_acylic_graph_execution_logic.h` (`repartition_logic.c:30`), which is not part of this model.
  It is assumed to schedule exactly like `adaptive_executor_repartioning.c:223-257`, including the
  `HASH_ENTER` probe, and both variants use `DependencyOrder.ExecuteTasksInDependencyOrder`.
- RepartitionLogic.ExecuteDependedTasks: states which phases ran and that an error skips the later
  ones, but not which error a failing phase raises. The phases it calls state that: the broadcasts
  the failing worker's error, the rounds the executor's.
- `TaskAndExecutionList` is not part of this model. The task list is a parameter, so its order is
  not known; the scenarios show both orders.
- `TrackerCleanupJobDirectories` (the first call of the adaptive `ExecuteDependedTasks`) is external
  cleanup and is not modelled.
- `EnsureNoModificationsHaveBeenDone` is reduced to its answer, the boolean parameter
  `modificationsDone`. The error it raises is `ModificationsAlreadyDone`.
- `ActiveReadableNodeList` and `CitusExtensionOwnerName` are the constant fields of `Workers.Cluster`,
  fixed for one run.
- `SendCommandListToWorkerInSingleTransaction` and `ExecuteTaskList` are external.
  - Their success is chosen freely.
  - The parallel execution inside one batch and `MaxAdaptiveExecutorPoolSize` are not modelled.
- `TaskHash`, `hash_combine`, `InitHashTableInfo` and the sizing and memory context of
  `CreateTaskHashTable` are not modelled. The table is a set of keys, so the 32-bit truncation of
  jobId in `TaskHash` only matters for bucket choice, which is not modelled.
- Errors raised by `hash_search` itself, for example out of memory, are not modelled.
- The SQL text of the template macros is not modelled. Their definitions are not part of the modelled
  files; each template is an injective constructor.
- The adaptive `ExecuteDependedTasks` requires every map-output-fetch task to have a first dependency
  that is a map task with a placement. C reads that dependency with `linitial` and only asserts the types.
- Planner plumbing is not modelled: `CreateCitusLocalPlan`, `CreateCitusLocalPlanJob`,
  `UpdateRelationOidsWithLocalShardOids`, `GetTableLocalShardOid`, the `shardIntervalList` passed to
  `RelationShardListForShardIntervalList`, `SetTaskQueryIfShouldLazyDeparse`, `make_ands_explicit`,
  locking, version conditionals and debug logging are all foreign calls.
- These functions are outside the modelled files, and their answers are parameters: `IsCoordinator`,
  `CoordinatorAddedAsWorkerNode`, `CheckInsertSelectQuery`, `QueryIsNotSimpleSelect`, `IsCitusTable`
  and `PartitionMethod`.
- `IsModifyCommand` and `IsUpdateOrDelete` are defined by their usual meaning: INSERT/UPDATE/DELETE,
  and UPDATE/DELETE.
- `RTEListProperties` keeps only the four flags the planner reads.
- `CitusLocalPlanTaskList` takes each relation's shard id and active placements as data, so the table
  lookups and their asserts are not modelled.
- `CitusLocalPlanTaskList` requires the collected placements to be non-empty, because C reads the first
  with `linitial`.
- `CitusLocalPlanTaskList` requires a SELECT or a modification, because C has `Assert(false)` for the
  other commands.
- CitusLocalPlanner.SortPlacementsByShardId: promises only a sorted permutation. `SortList` uses the
  C library's quicksort, whose order among placements of one shard is unspecified; insertion sort stands
  in for it.
- src/include/distributed/local_executor.h holds declarations only and has nothing to model.
