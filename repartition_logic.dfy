/** ExecuteDependedTasks of repartition_logic.c: refuse to run after modifications, group
    the merge tasks, create one schema per job on every worker, run the tasks in dependency
    order, then remove the job directories of the same jobs on every worker. */
module RepartitionLogic {
  import opened TaskModel
  import opened TaskGroups
  import opened JobIds
  import opened JobCommands
  import opened Workers
  import opened Schedule
  import opened DependencyOrder

  /** FillTaskGroups: appends every merge task to the merge list, keeping list order; the
      task list is only read. */
  method FillTaskGroups(allTasks: seq<Task>, mergeTasks: seq<Task>) returns (mergeTasksOut: seq<Task>)
    ensures mergeTasksOut == mergeTasks + FilterByType(allTasks, MergeTask)
  {
    mergeTasksOut := mergeTasks;
    var i := 0;
    while i < |allTasks|
      invariant 0 <= i <= |allTasks|
      invariant mergeTasksOut == mergeTasks + FilterByType(allTasks[..i], MergeTask)
    {
      var task := allTasks[i];
      assert allTasks[..i + 1] == allTasks[..i] + [task];
      FilterByTypeSnoc(allTasks[..i], task, MergeTask);
      if task.taskType == MergeTask {
        mergeTasksOut := mergeTasksOut + [task];
      }
      i := i + 1;
    }
    assert allTasks[..i] == allTasks;
  }

  /** The create-schema and the delete-jobdir command of one job list. */
  function ProvisionCommand(jobIds: seq<uint64>): SqlText
  {
    ExpandTemplate(jobIds, WorkerCreateSchemaQuery)
  }

  function TeardownCommand(jobIds: seq<uint64>): SqlText
  {
    ExpandTemplate(jobIds, WorkerDeleteJobDirQuery)
  }

  /** CreateTemporarySchemas: the distinct job ids of the merge tasks, after one
      create-schema statement per job has been sent as one command to every worker. The
      job ids are returned when the broadcast errors too; the run then ends. */
  method CreateTemporarySchemas(mergeTasks: seq<Task>, cluster: Cluster)
    returns (jobIds: seq<uint64>, outcome: Outcome)
    modifies cluster
    ensures jobIds == Dedup(JobIdsOf(mergeTasks))
    ensures Ran(outcome, old(cluster.log), cluster.log,
                BroadcastEvents(cluster.activeReadableNodes, cluster.extensionOwner, [ProvisionCommand(jobIds)]))
    ensures outcome.Fail? ==>
              && |cluster.log| < |old(cluster.log)| + |cluster.activeReadableNodes|
              && outcome.error == NodeFailure(cluster.activeReadableNodes[|cluster.log| - |old(cluster.log)|])
  {
    jobIds := CreateJobIds(mergeTasks);
    var createSchemasCommand := GenerateCreateSchemasCommand(jobIds);
    outcome := CreateSchemasOnAllWorkers(cluster, createSchemasCommand);
  }

  /** RemoveTempJobDirs: one delete-jobdir statement per job, sent as one command to every
      worker. */
  method RemoveTempJobDirs(jobIds: seq<uint64>, cluster: Cluster) returns (outcome: Outcome)
    modifies cluster
    ensures Ran(outcome, old(cluster.log), cluster.log,
                BroadcastEvents(cluster.activeReadableNodes, cluster.extensionOwner, [TeardownCommand(jobIds)]))
    ensures outcome.Fail? ==>
              && |cluster.log| < |old(cluster.log)| + |cluster.activeReadableNodes|
              && outcome.error == NodeFailure(cluster.activeReadableNodes[|cluster.log| - |old(cluster.log)|])
  {
    var deleteJobsCommand := GenerateDeleteJobsCommand(jobIds);
    outcome := SendCommandToAllWorkers(cluster, [deleteJobsCommand]);
  }

  /** The job ids ExecuteDependedTasks provisions and tears down. */
  function DependedJobIds(allTasks: seq<Task>): seq<uint64>
  {
    Dedup(JobIdsOf(FilterByType(allTasks, MergeTask)))
  }

  /** Everything ExecuteDependedTasks sends out, in order: the create-schema broadcast, one
      executor call per round with the query strings of `snapshot`, the delete-jobdir
      broadcast. */
  function DependedTasksPlan(nodes: seq<WorkerNode>, owner: string, topLevelTasks: seq<Task>,
                             allTasks: seq<Task>, snapshot: map<Task, SqlText>): seq<Event>
  {
    BroadcastEvents(nodes, owner, [ProvisionCommand(DependedJobIds(allTasks))])
    + (TaskListEvents(Rounds(allTasks, KeySet(topLevelTasks)), snapshot)
       + BroadcastEvents(nodes, owner, [TeardownCommand(DependedJobIds(allTasks))]))
  }

  /** ExecuteDependedTasks: nothing is sent when modifications were already done in the
      transaction; otherwise the phases run in their fixed order, the rounds with the query
      strings the tasks have on entry, and an error in one of them skips all later ones. */
  method ExecuteDependedTasks(modificationsDone: bool, topLevelTasks: seq<Task>, allTasks: seq<Task>,
                              cluster: Cluster)
    returns (outcome: Outcome)
    modifies cluster
    ensures modificationsDone ==> outcome == Fail(ModificationsAlreadyDone) && cluster.log == old(cluster.log)
    ensures !modificationsDone ==>
              Ran(outcome, old(cluster.log), cluster.log,
                  DependedTasksPlan(cluster.activeReadableNodes, cluster.extensionOwner, topLevelTasks, allTasks,
                                    old(QuerySnapshot(allTasks))))
  {
    ghost var snapshot := QuerySnapshot(allTasks);
    if modificationsDone {
      return Fail(ModificationsAlreadyDone);
    }
    var mergeTasks: seq<Task> := [];
    mergeTasks := FillTaskGroups(allTasks, mergeTasks);
    assert mergeTasks == FilterByType(allTasks, MergeTask);
    ghost var nodes := cluster.activeReadableNodes;
    ghost var rounds := Rounds(allTasks, KeySet(topLevelTasks));
    ghost var provisioned := BroadcastEvents(nodes, cluster.extensionOwner, [ProvisionCommand(DependedJobIds(allTasks))]);
    ghost var executedRounds := TaskListEvents(rounds, snapshot);
    ghost var removed := BroadcastEvents(nodes, cluster.extensionOwner, [TeardownCommand(DependedJobIds(allTasks))]);
    assert DependedTasksPlan(nodes, cluster.extensionOwner, topLevelTasks, allTasks, snapshot)
           == provisioned + (executedRounds + removed);
    ghost var start := cluster.log;
    var jobIds, provisionOutcome := CreateTemporarySchemas(mergeTasks, cluster);
    if provisionOutcome.Fail? {
      outcome := provisionOutcome;
      RanStopsEarly(outcome, start, cluster.log, provisioned, executedRounds + removed);
      return;
    }
    ghost var afterProvision := cluster.log;
    assert |afterProvision| == |start| + |nodes|;
    assert QuerySnapshot(allTasks) == snapshot;
    outcome := RunTasksAndRemoveJobDirs(jobIds, topLevelTasks, allTasks, cluster, snapshot);
    RanSequence(provisionOutcome, outcome, start, afterProvision, cluster.log, provisioned, executedRounds + removed);
  }

  /** The phases of ExecuteDependedTasks after the schemas exist: the rounds, with the
      query strings of `snapshot`, which are the tasks' own on entry, then, unless a round
      failed, the delete-jobdir broadcast. */
  method RunTasksAndRemoveJobDirs(jobIds: seq<uint64>, topLevelTasks: seq<Task>, allTasks: seq<Task>,
                                  cluster: Cluster, ghost snapshot: map<Task, SqlText>)
    returns (outcome: Outcome)
    requires QuerySnapshot(allTasks) == snapshot
    modifies cluster
    ensures Ran(outcome, old(cluster.log), cluster.log,
                TaskListEvents(Rounds(allTasks, KeySet(topLevelTasks)), snapshot)
                + BroadcastEvents(cluster.activeReadableNodes, cluster.extensionOwner, [TeardownCommand(jobIds)]))
    ensures outcome.Fail? ==>
              var n := |cluster.log| - |old(cluster.log)|;
              var rounds := |Rounds(allTasks, KeySet(topLevelTasks))|;
              if n < rounds then outcome.error == TaskExecutionFailed
              else outcome.error == NodeFailure(cluster.activeReadableNodes[n - rounds])
  {
    ghost var start := cluster.log;
    ghost var rounds := Rounds(allTasks, KeySet(topLevelTasks));
    ghost var executedRounds := TaskListEvents(rounds, snapshot);
    ghost var removed := BroadcastEvents(cluster.activeReadableNodes, cluster.extensionOwner, [TeardownCommand(jobIds)]);
    outcome := ExecuteTasksInDependencyOrder(allTasks, topLevelTasks, cluster);
    if outcome.Fail? {
      RanStopsEarly(outcome, start, cluster.log, executedRounds, removed);
      assert |cluster.log| - |start| < |rounds|;
      return;
    }
    ghost var afterRounds := cluster.log;
    ghost var roundsOutcome := outcome;
    assert |afterRounds| == |start| + |rounds|;
    outcome := RemoveTempJobDirs(jobIds, cluster);
    RanSequence(roundsOutcome, outcome, start, afterRounds, cluster.log, executedRounds, removed);
    assert outcome.Fail? ==> |cluster.log| - |start| - |rounds| == |cluster.log| - |afterRounds|;
  }

  /** The create-schema and the delete-jobdir batches name the same jobs in the same order,
      and each job of a merge task gets exactly one provision and one teardown statement. */
  lemma ProvisionMatchesTeardown(allTasks: seq<Task>)
    ensures JobIdsIn(ProvisionCommand(DependedJobIds(allTasks))) == JobIdsIn(TeardownCommand(DependedJobIds(allTasks)))
    ensures forall t :: t in allTasks && t.taskType == MergeTask ==>
              && multiset(ProvisionCommand(DependedJobIds(allTasks)))[JobCommand(WorkerCreateSchemaQuery, t.jobId)] == 1
              && multiset(TeardownCommand(DependedJobIds(allTasks)))[JobCommand(WorkerDeleteJobDirQuery, t.jobId)] == 1
    ensures forall s :: s in ProvisionCommand(DependedJobIds(allTasks)) + TeardownCommand(DependedJobIds(allTasks)) ==>
              s.JobCommand? && exists t :: t in allTasks && t.taskType == MergeTask && t.jobId == s.jobId
  {
    var mergeTasks := FilterByType(allTasks, MergeTask);
    var jobIds := DependedJobIds(allTasks);
    ExpandTemplateRoundTrip(jobIds, WorkerCreateSchemaQuery);
    ExpandTemplateRoundTrip(jobIds, WorkerDeleteJobDirQuery);
    OneStatementPerJob(jobIds, WorkerCreateSchemaQuery);
    OneStatementPerJob(jobIds, WorkerDeleteJobDirQuery);
    FilterByTypeMembers(allTasks, MergeTask);
    forall t | t in allTasks && t.taskType == MergeTask
      ensures t.jobId in jobIds
    {
      var k :| 0 <= k < |mergeTasks| && mergeTasks[k] == t;
      assert JobIdsOf(mergeTasks)[k] == t.jobId;
    }
    forall j | j in jobIds
      ensures exists t :: t in allTasks && t.taskType == MergeTask && t.jobId == j
    {
      var k :| 0 <= k < |mergeTasks| && JobIdsOf(mergeTasks)[k] == j;
      assert mergeTasks[k] in mergeTasks;
    }
  }
}
