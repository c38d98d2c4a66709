/** ExecuteDependedTasks of the adaptive executor: group the tasks, fill in the query of
    every map-output-fetch task, create one schema per job on every worker, then run the
    tasks in dependency order. */
module AdaptiveRepartitioning {
  import opened TaskModel
  import opened TaskGroups
  import opened JobIds
  import JobCommands
  import opened Workers
  import opened Schedule
  import opened DependencyOrder

  /** FillTaskGroups: appends every map-output-fetch task to the fetch list and every
      merge task to the merge list, keeping list order; the task list is only read. */
  method FillTaskGroups(allTasks: seq<Task>, outputFetchTasks: seq<Task>, mergeTasks: seq<Task>)
    returns (outputFetchTasksOut: seq<Task>, mergeTasksOut: seq<Task>)
    ensures outputFetchTasksOut == outputFetchTasks + FilterByType(allTasks, MapOutputFetchTask)
    ensures mergeTasksOut == mergeTasks + FilterByType(allTasks, MergeTask)
  {
    outputFetchTasksOut := outputFetchTasks;
    mergeTasksOut := mergeTasks;
    var i := 0;
    while i < |allTasks|
      invariant 0 <= i <= |allTasks|
      invariant outputFetchTasksOut == outputFetchTasks + FilterByType(allTasks[..i], MapOutputFetchTask)
      invariant mergeTasksOut == mergeTasks + FilterByType(allTasks[..i], MergeTask)
    {
      var task := allTasks[i];
      assert allTasks[..i + 1] == allTasks[..i] + [task];
      FilterByTypeSnoc(allTasks[..i], task, MapOutputFetchTask);
      FilterByTypeSnoc(allTasks[..i], task, MergeTask);
      if task.taskType == MapOutputFetchTask {
        outputFetchTasksOut := outputFetchTasksOut + [task];
      }
      if task.taskType == MergeTask {
        mergeTasksOut := mergeTasksOut + [task];
      }
      i := i + 1;
    }
    assert allTasks[..i] == allTasks;
  }

  /** What MapFetchTaskQueryString relies on: the task is a map-output-fetch task, its
      first dependency is a map task, and that map task has a first placement. The two
      types are asserted in the source; the first dependency and the first placement are
      read without a check. */
  predicate FetchTaskWellFormed(task: Task)
  {
    && task.taskType == MapOutputFetchTask
    && |task.dependedTaskList| > 0
    && task.dependedTaskList[0].taskType == MapTask
    && |task.dependedTaskList[0].taskPlacementList| > 0
  }

  /** The parameters of MAP_OUTPUT_FETCH_COMMAND, in the template's order. */
  datatype FetchArguments = FetchArguments(mapJobId: uint64, mapTaskId: uint32, partitionFileId: uint32,
                                           mergeTaskId: uint32, nodeName: string, nodePort: uint32)

  /** Reads the parameters back out of a one-statement fetch command. */
  function FetchCommandArguments(query: SqlText): Option<FetchArguments>
  {
    if |query| == 1 && query[0].MapOutputFetchCommand? then
      var c := query[0];
      Some(FetchArguments(c.mapJobId, c.mapTaskId, c.partitionFileId, c.mergeTaskId, c.nodeName, c.nodePort))
    else None
  }

  /** MapFetchTaskQueryString: the fetch command carries map job id, map task id, the
      fetch task's partition id, the fetch task's upstream (merge) task id, and the node
      name and port of the map task's first placement, in that order. */
  function MapFetchTaskQueryString(mapFetchTask: Task, mapTask: Task): (query: SqlText)
    requires mapFetchTask.taskType == MapOutputFetchTask
    requires mapTask.taskType == MapTask
    requires |mapTask.taskPlacementList| > 0
    ensures FetchCommandArguments(query)
            == Some(FetchArguments(mapTask.jobId, mapTask.taskId, mapFetchTask.partitionId,
                                   mapFetchTask.upstreamTaskId, mapTask.taskPlacementList[0].nodeName,
                                   mapTask.taskPlacementList[0].nodePort))
  {
    var partitionFileId := mapFetchTask.partitionId;
    var mergeTaskId := mapFetchTask.upstreamTaskId;
    var mapTaskPlacement := mapTask.taskPlacementList[0];
    [MapOutputFetchCommand(mapTask.jobId, mapTask.taskId, partitionFileId, mergeTaskId,
                           mapTaskPlacement.nodeName, mapTaskPlacement.nodePort)]
  }

  /** The query a well-formed fetch task gets from its first dependency. */
  function FetchQuery(task: Task): SqlText
    requires FetchTaskWellFormed(task)
  {
    MapFetchTaskQueryString(task, task.dependedTaskList[0])
  }

  /** Two fetch tasks get the same query only when their six parameters agree.
      No other proof uses it: it states on its own that the command loses no argument. */
  lemma FetchQueryInjective(f1: Task, f2: Task)
    requires FetchTaskWellFormed(f1) && FetchTaskWellFormed(f2)
    requires FetchQuery(f1) == FetchQuery(f2)
    ensures f1.dependedTaskList[0].jobId == f2.dependedTaskList[0].jobId
    ensures f1.dependedTaskList[0].taskId == f2.dependedTaskList[0].taskId
    ensures f1.partitionId == f2.partitionId && f1.upstreamTaskId == f2.upstreamTaskId
    ensures f1.dependedTaskList[0].taskPlacementList[0].nodeName == f2.dependedTaskList[0].taskPlacementList[0].nodeName
    ensures f1.dependedTaskList[0].taskPlacementList[0].nodePort == f2.dependedTaskList[0].taskPlacementList[0].nodePort
  {
    assert FetchCommandArguments(FetchQuery(f1)) == FetchCommandArguments(FetchQuery(f2));
  }

  /** Map task (10, 2) placed on w1:5432, fetch task with partition 4
      for merge task 20. */
  lemma FetchQueryExample(fetch: Task)
    requires FetchTaskWellFormed(fetch)
    requires fetch.partitionId == 4 && fetch.upstreamTaskId == 20
    requires fetch.dependedTaskList[0].jobId == 10 && fetch.dependedTaskList[0].taskId == 2
    requires fetch.dependedTaskList[0].taskPlacementList[0] == ShardPlacement(fetch.dependedTaskList[0].taskPlacementList[0].shardId, "w1", 5432)
    ensures FetchCommandArguments(FetchQuery(fetch)) == Some(FetchArguments(10, 2, 4, 20, "w1", 5432))
  {
    var p := fetch.dependedTaskList[0].taskPlacementList[0];
    assert p.nodeName == "w1" && p.nodePort == 5432;
  }

  /** PutMapOutputFetchQueryStrings: every listed fetch task gets the query built from its
      first dependency; nothing but the query strings of the listed tasks is written. */
  method PutMapOutputFetchQueryStrings(mapOutputFetchTasks: seq<Task>)
    requires forall t :: t in mapOutputFetchTasks ==> FetchTaskWellFormed(t)
    modifies set t | t in mapOutputFetchTasks
    ensures forall t :: t in mapOutputFetchTasks ==> t.queryString == FetchQuery(t)
  {
    var i := 0;
    while i < |mapOutputFetchTasks|
      invariant 0 <= i <= |mapOutputFetchTasks|
      invariant forall k :: 0 <= k < i ==> mapOutputFetchTasks[k].queryString == FetchQuery(mapOutputFetchTasks[k])
    {
      var task := mapOutputFetchTasks[i];
      assert task in mapOutputFetchTasks;
      var mapTask := task.dependedTaskList[0];
      var mapFetchTaskQueryString := MapFetchTaskQueryString(task, mapTask);
      task.queryString := mapFetchTaskQueryString;
      i := i + 1;
    }
    assert forall t :: t in mapOutputFetchTasks ==> exists k :: 0 <= k < |mapOutputFetchTasks| && mapOutputFetchTasks[k] == t;
  }

  /** GenerateCreateSchemasCommand: the create-schema template for every job id, in order. */
  method GenerateCreateSchemasCommand(jobIds: seq<uint64>) returns (createSchemaCommand: SqlText)
    ensures createSchemaCommand == JobCommands.ExpandTemplate(jobIds, WorkerCreateSchemaQuery)
  {
    createSchemaCommand := [];
    var i := 0;
    while i < |jobIds|
      invariant 0 <= i <= |jobIds|
      invariant createSchemaCommand == JobCommands.ExpandTemplate(jobIds[..i], WorkerCreateSchemaQuery)
    {
      createSchemaCommand := createSchemaCommand + [JobCommand(WorkerCreateSchemaQuery, jobIds[i])];
      i := i + 1;
    }
    assert jobIds[..i] == jobIds;
  }

  /** The create-schema command for a list of merge tasks. */
  function ProvisionCommandForMergeTasks(mergeTasks: seq<Task>): SqlText
  {
    JobCommands.ExpandTemplate(Dedup(JobIdsOf(mergeTasks)), WorkerCreateSchemaQuery)
  }

  /** CreateTemporarySchemas: one create-schema statement per distinct job of the merge
      tasks, sent as one command to every worker. */
  method CreateTemporarySchemas(mergeTasks: seq<Task>, cluster: Cluster) returns (outcome: Outcome)
    modifies cluster
    ensures Ran(outcome, old(cluster.log), cluster.log,
                BroadcastEvents(cluster.activeReadableNodes, cluster.extensionOwner,
                                [ProvisionCommandForMergeTasks(mergeTasks)]))
    ensures outcome.Fail? ==>
              && |cluster.log| < |old(cluster.log)| + |cluster.activeReadableNodes|
              && outcome.error == NodeFailure(cluster.activeReadableNodes[|cluster.log| - |old(cluster.log)|])
  {
    var jobIds := CreateJobIds(mergeTasks);
    var createSchemasCommand := GenerateCreateSchemasCommand(jobIds);
    outcome := CreateSchemasOnAllWorkers(cluster, createSchemasCommand);
  }

  /** The query strings `queries` of the tasks, with the fetch command in place of the
      query of every well-formed fetch task. */
  function FetchedQueries(tasks: seq<Task>, queries: seq<SqlText>): (fetched: seq<SqlText>)
    requires |queries| == |tasks|
    ensures |fetched| == |tasks|
  {
    seq(|tasks|, i requires 0 <= i < |tasks| =>
      if FetchTaskWellFormed(tasks[i]) then FetchQuery(tasks[i]) else queries[i])
  }

  /** A snapshot of the fetched queries maps every fetch task to its fetch command and
      every other task to its entry in the snapshot of the queries before. */
  lemma {:induction false} FetchedSnapshot(tasks: seq<Task>, queries: seq<SqlText>)
    requires |queries| == |tasks|
    ensures forall t :: t in tasks ==>
              && t in SnapshotMap(tasks, FetchedQueries(tasks, queries)) && t in SnapshotMap(tasks, queries)
              && SnapshotMap(tasks, FetchedQueries(tasks, queries))[t]
                 == if FetchTaskWellFormed(t) then FetchQuery(t) else SnapshotMap(tasks, queries)[t]
    decreases |tasks|
  {
    if tasks != [] {
      assert FetchedQueries(tasks, queries)[1..] == FetchedQueries(tasks[1..], queries[1..]);
      FetchedSnapshot(tasks[1..], queries[1..]);
      assert forall t :: t in tasks ==> t == tasks[0] || t in tasks[1..];
    }
  }

  /** Everything ExecuteDependedTasks sends out, in order: the create-schema broadcast,
      then one executor call per round with the query strings of `snapshot`. */
  function AdaptivePlan(nodes: seq<WorkerNode>, owner: string, topLevelTasks: seq<Task>,
                        allTasks: seq<Task>, snapshot: map<Task, SqlText>): seq<Event>
  {
    BroadcastEvents(nodes, owner, [ProvisionCommandForMergeTasks(FilterByType(allTasks, MergeTask))])
    + TaskListEvents(Rounds(allTasks, KeySet(topLevelTasks)), snapshot)
  }

  /** Each executor call of the plan sends every fetch task with its fetch command and
      every other task with the query it had before: the tasks come from the task list. */
  lemma PlanSendsFetchQueries(nodes: seq<WorkerNode>, owner: string, topLevelTasks: seq<Task>,
                              allTasks: seq<Task>, queries: seq<SqlText>)
    requires |queries| == |allTasks|
    requires forall t :: t in allTasks && t.taskType == MapOutputFetchTask ==> FetchTaskWellFormed(t)
    ensures forall e, i :: e in AdaptivePlan(nodes, owner, topLevelTasks, allTasks,
                                             SnapshotMap(allTasks, FetchedQueries(allTasks, queries)))
                           && e.TaskListExecution? && 0 <= i < |e.tasks| ==>
              && e.tasks[i] in allTasks && |e.queries| == |e.tasks| && e.tasks[i] in SnapshotMap(allTasks, queries)
              && e.queries[i] == (if e.tasks[i].taskType == MapOutputFetchTask then FetchQuery(e.tasks[i])
                                  else SnapshotMap(allTasks, queries)[e.tasks[i]])
  {
    var fetched := SnapshotMap(allTasks, FetchedQueries(allTasks, queries));
    var rounds := Rounds(allTasks, KeySet(topLevelTasks));
    var b := BroadcastEvents(nodes, owner, [ProvisionCommandForMergeTasks(FilterByType(allTasks, MergeTask))]);
    var r := TaskListEvents(rounds, fetched);
    RoundsDrawFromTasks(allTasks, KeySet(topLevelTasks));
    FetchedSnapshot(allTasks, queries);
    forall e: Event, i | e in b + r && e.TaskListExecution? && 0 <= i < |e.tasks|
      ensures && e.tasks[i] in allTasks && |e.queries| == |e.tasks| && e.tasks[i] in SnapshotMap(allTasks, queries)
              && e.queries[i] == (if e.tasks[i].taskType == MapOutputFetchTask then FetchQuery(e.tasks[i])
                                  else SnapshotMap(allTasks, queries)[e.tasks[i]])
    {
      var n :| 0 <= n < |b + r| && (b + r)[n] == e;
      assert n >= |b|;
      var k := n - |b|;
      assert e == r[k] == TaskListExecution(RowModifyNone, rounds[k], QueriesIn(rounds[k], fetched));
      FlattenContainsBatch(rounds, k);
      assert e.tasks[i] in rounds[k];
    }
  }



  /** The first two steps of ExecuteDependedTasks: group the tasks by type and give every
      fetch task its fetch command, leaving the other tasks' queries as they were. */
  method GroupAndFetch(allTasks: seq<Task>, ghost before: seq<SqlText>) returns (mergeTasks: seq<Task>)
    requires forall t :: t in allTasks && t.taskType == MapOutputFetchTask ==> FetchTaskWellFormed(t)
    requires QueriesOf(allTasks) == before
    modifies set t | t in allTasks && t.taskType == MapOutputFetchTask
    ensures mergeTasks == FilterByType(allTasks, MergeTask)
    ensures QueriesOf(allTasks) == FetchedQueries(allTasks, before)
  {
    var mapOutputFetchTasks: seq<Task> := [];
    mergeTasks := [];
    mapOutputFetchTasks, mergeTasks := FillTaskGroups(allTasks, mapOutputFetchTasks, mergeTasks);
    assert mapOutputFetchTasks == FilterByType(allTasks, MapOutputFetchTask);
    FilterByTypeMembers(allTasks, MapOutputFetchTask);
    PutMapOutputFetchQueryStrings(mapOutputFetchTasks);
    forall i | 0 <= i < |allTasks| ensures QueriesOf(allTasks)[i] == FetchedQueries(allTasks, before)[i] {
      assert allTasks[i] in allTasks;
    }
  }

  /** ExecuteDependedTasks: the phases in their fixed order. Every fetch task of the list
      has its query before anything is sent, so every executor call sends it with its fetch
      command and every other task with the query it had on entry; a failed schema
      broadcast skips the rounds. */
  method ExecuteDependedTasks(topLevelTasks: seq<Task>, allTasks: seq<Task>, cluster: Cluster)
    returns (outcome: Outcome)
    requires forall t :: t in allTasks && t.taskType == MapOutputFetchTask ==> FetchTaskWellFormed(t)
    modifies cluster, set t | t in allTasks && t.taskType == MapOutputFetchTask
    ensures forall t :: t in allTasks && t.taskType == MapOutputFetchTask ==> t.queryString == FetchQuery(t)
    ensures Ran(outcome, old(cluster.log), cluster.log,
                AdaptivePlan(cluster.activeReadableNodes, cluster.extensionOwner, topLevelTasks, allTasks,
                             SnapshotMap(allTasks, FetchedQueries(allTasks, old(QueriesOf(allTasks))))))
    ensures outcome.Fail? ==>
              var n := |cluster.log| - |old(cluster.log)|;
              if n < |cluster.activeReadableNodes| then outcome.error == NodeFailure(cluster.activeReadableNodes[n])
              else outcome.error == TaskExecutionFailed
  {
    ghost var before := QueriesOf(allTasks);
    var mergeTasks := GroupAndFetch(allTasks, before);
    FetchedQueriesHold(allTasks, before);
    ghost var snapshot := SnapshotMap(allTasks, FetchedQueries(allTasks, before));
    ghost var provisioned := BroadcastEvents(cluster.activeReadableNodes, cluster.extensionOwner,
                                             [ProvisionCommandForMergeTasks(mergeTasks)]);
    ghost var rounds := TaskListEvents(Rounds(allTasks, KeySet(topLevelTasks)), snapshot);
    assert AdaptivePlan(cluster.activeReadableNodes, cluster.extensionOwner, topLevelTasks, allTasks, snapshot)
           == provisioned + rounds;
    ghost var start := cluster.log;
    outcome := CreateTemporarySchemas(mergeTasks, cluster);
    if outcome.Fail? {
      RanStopsEarly(outcome, start, cluster.log, provisioned, rounds);
      assert |cluster.log| - |start| < |cluster.activeReadableNodes|;
      assert outcome.error == NodeFailure(cluster.activeReadableNodes[|cluster.log| - |start|]);
      return;
    }
    ghost var middle := cluster.log;
    ghost var provisionedOutcome := outcome;
    assert |middle| == |start| + |cluster.activeReadableNodes|;
    assert QueriesOf(allTasks) == FetchedQueries(allTasks, before);
    outcome := ExecuteTasksInDependencyOrder(allTasks, topLevelTasks, cluster);
    RanSequence(provisionedOutcome, outcome, start, middle, cluster.log, provisioned, rounds);
    assert outcome.Fail? ==> |cluster.log| - |start| >= |cluster.activeReadableNodes| && outcome.error == TaskExecutionFailed;
  }

  /** Query strings that match the fetched queries hold the fetch command on every fetch task. */
  lemma FetchedQueriesHold(allTasks: seq<Task>, before: seq<SqlText>)
    requires |before| == |allTasks|
    requires forall t :: t in allTasks && t.taskType == MapOutputFetchTask ==> FetchTaskWellFormed(t)
    requires QueriesOf(allTasks) == FetchedQueries(allTasks, before)
    ensures forall t :: t in allTasks && t.taskType == MapOutputFetchTask ==> t.queryString == FetchQuery(t)
  {
    forall t | t in allTasks && t.taskType == MapOutputFetchTask
      ensures t.queryString == FetchQuery(t)
    {
      var i :| 0 <= i < |allTasks| && allTasks[i] == t;
      assert QueriesOf(allTasks)[i] == FetchedQueries(allTasks, before)[i];
    }
  }

  /** The executor calls of a run of the plan send every fetch task with its fetch command. */
  lemma SentFromPlan(nodes: seq<WorkerNode>, owner: string, topLevelTasks: seq<Task>,
                     allTasks: seq<Task>, queries: seq<SqlText>, outcome: Outcome,
                     before: seq<Event>, after: seq<Event>)
    requires |queries| == |allTasks|
    requires forall t :: t in allTasks && t.taskType == MapOutputFetchTask ==> FetchTaskWellFormed(t)
    requires Ran(outcome, before, after, AdaptivePlan(nodes, owner, topLevelTasks, allTasks,
                                                      SnapshotMap(allTasks, FetchedQueries(allTasks, queries))))
    ensures forall e, i :: e in after[|before|..] && e.TaskListExecution? && 0 <= i < |e.tasks|
                           && e.tasks[i].taskType == MapOutputFetchTask ==>
              && e.tasks[i] in allTasks && |e.queries| == |e.tasks| && e.queries[i] == FetchQuery(e.tasks[i])
  {
    var planned := AdaptivePlan(nodes, owner, topLevelTasks, allTasks,
                                SnapshotMap(allTasks, FetchedQueries(allTasks, queries)));
    assert after[|before|..] == planned[..|after| - |before|];
    PlanSendsFetchQueries(nodes, owner, topLevelTasks, allTasks, queries);
  }
}
