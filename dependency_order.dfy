/** ExecuteTasksInDependencyOrder and its helpers as they run: a completed-task hash table
    mutated in place, rebuilt batches, and the executor called once per batch. Each method
    is proved against the functions of module Schedule. */
module DependencyOrder {
  import opened TaskModel
  import opened Schedule
  import opened Workers

  /** The completed-task hash table, keyed by (jobId, taskId). */
  class CompletedTaskTable {
    var entries: set<TaskHashKey>

    /** CreateTaskHashTable. */
    constructor ()
      ensures entries == {}
    {
      entries := {};
    }

    /** hash_search with HASH_ENTER: reports whether the key was there, and inserts it. */
    method Enter(key: TaskHashKey) returns (found: bool)
      modifies this
      ensures found == (key in old(entries))
      ensures entries == old(entries) + {key}
    {
      found := key in entries;
      entries := entries + {key};
    }

    /** hash_search with HASH_FIND: reports whether the key is there. */
    method Find(key: TaskHashKey) returns (found: bool)
      ensures found == (key in entries)
    {
      found := key in entries;
    }
  }

  /** AddCompletedTasks: enters the key of every listed task. */
  method AddCompletedTasks(curCompletedTasks: seq<Task>, completedTasks: CompletedTaskTable)
    modifies completedTasks
    ensures completedTasks.entries == old(completedTasks.entries) + KeySet(curCompletedTasks)
  {
    var i := 0;
    while i < |curCompletedTasks|
      invariant 0 <= i <= |curCompletedTasks|
      invariant completedTasks.entries == old(completedTasks.entries) + KeySet(curCompletedTasks[..i])
    {
      var task := curCompletedTasks[i];
      var _ := completedTasks.Enter(TaskKey(task));
      assert curCompletedTasks[..i + 1] == curCompletedTasks[..i] + [task];
      KeySetConcat(curCompletedTasks[..i], [task]);
      KeySetSingleton(task);
      i := i + 1;
    }
    assert curCompletedTasks[..i] == curCompletedTasks;
  }

  /** IsTaskAlreadyCompleted: probes with HASH_ENTER, so the key is in the table afterwards
      whatever the answer. */
  method IsTaskAlreadyCompleted(task: Task, completedTasks: CompletedTaskTable) returns (found: bool)
    modifies completedTasks
    ensures found == (TaskKey(task) in old(completedTasks.entries))
    ensures completedTasks.entries == old(completedTasks.entries) + {TaskKey(task)}
  {
    found := completedTasks.Enter(TaskKey(task));
  }

  /** IsAllDependencyCompleted: every dependency's key is in the table. */
  method IsAllDependencyCompleted(targetTask: Task, completedTasks: CompletedTaskTable) returns (allCompleted: bool)
    ensures allCompleted == AllDependenciesIn(targetTask, completedTasks.entries)
  {
    var deps := targetTask.dependedTaskList;
    var i := 0;
    while i < |deps|
      invariant 0 <= i <= |deps|
      invariant forall k :: 0 <= k < i ==> TaskKey(deps[k]) in completedTasks.entries
    {
      var found := completedTasks.Find(TaskKey(deps[i]));
      if !found {
        return false;
      }
      i := i + 1;
    }
    return true;
  }

  /** One pass of the scheduling loop over all tasks (the inner foreach of
      ExecuteTasksInDependencyOrder): a task joins the batch when its dependencies are in
      the table and the HASH_ENTER probe finds it absent, the probe having inserted it. */
  method CollectReadyTasks(allTasks: seq<Task>, completedTasks: CompletedTaskTable) returns (curTasks: seq<Task>)
    modifies completedTasks
    ensures curTasks == Scan(allTasks, old(completedTasks.entries)).batch
    ensures completedTasks.entries == Scan(allTasks, old(completedTasks.entries)).completed
  {
    ghost var before := completedTasks.entries;
    curTasks := [];
    var i := 0;
    while i < |allTasks|
      invariant 0 <= i <= |allTasks|
      invariant curTasks + Scan(allTasks[i..], completedTasks.entries).batch == Scan(allTasks, before).batch
      invariant Scan(allTasks[i..], completedTasks.entries).completed == Scan(allTasks, before).completed
    {
      var task := allTasks[i];
      assert allTasks[i..][1..] == allTasks[i + 1..];
      ghost var c := completedTasks.entries;
      var allDone := IsAllDependencyCompleted(task, completedTasks);
      if allDone {
        var found := IsTaskAlreadyCompleted(task, completedTasks);
        if !found {
          curTasks := curTasks + [task];
        } else {
          assert completedTasks.entries == c;
        }
      }
      i := i + 1;
    }
    assert allTasks[i..] == [];
  }

  /** ExecuteTasksInDependencyOrder: seeds the table with the top-level tasks, then scans
      all tasks, runs the batch of ready ones and records it, until a scan finds none. The
      executor calls that took effect are the batches of Rounds, in order, each sent with
      the query strings its tasks had when the method was called; an executor error ends
      the run before the failed batch is recorded. */
  method ExecuteTasksInDependencyOrder(allTasks: seq<Task>, topLevelTasks: seq<Task>, cluster: Cluster)
    returns (outcome: Outcome)
    modifies cluster
    ensures Ran(outcome, old(cluster.log), cluster.log,
                TaskListEvents(Rounds(allTasks, KeySet(topLevelTasks)), old(QuerySnapshot(allTasks))))
    ensures outcome.Fail? ==> outcome.error == TaskExecutionFailed
  {
    ghost var queries := QueriesOf(allTasks);
    ghost var snapshot := SnapshotMap(allTasks, queries);
    var completedTasks := new CompletedTaskTable();
    AddCompletedTasks(topLevelTasks, completedTasks);
    assert completedTasks.entries == KeySet(topLevelTasks);
    ghost var plan := Rounds(allTasks, KeySet(topLevelTasks));
    ghost var planned := TaskListEvents(plan, snapshot);
    ghost var done: seq<seq<Task>> := [];
    ghost var completed := KeySet(topLevelTasks);
    while true
      invariant fresh(completedTasks) && completedTasks.entries == completed
      invariant done + Rounds(allTasks, completed) == plan
      invariant cluster.log == old(cluster.log) + planned[..|done|]
      invariant QueriesOf(allTasks) == queries
      decreases |plan| - |done|
    {
      var curTasks := CollectReadyTasks(allTasks, completedTasks);
      if |curTasks| == 0 {
        LastRound(allTasks, completed);
        break;
      }
      ghost var after := completedTasks.entries;
      NextRound(allTasks, completed, done, plan);
      ScanDrawsFromTasks(allTasks, completed);
      ghost var logged := cluster.log;
      var ok := cluster.ExecuteTaskList(RowModifyNone, curTasks);
      QueriesMatchSnapshot(curTasks, allTasks, queries);
      if !ok {
        outcome := Fail(TaskExecutionFailed);
        RanFailed(outcome, old(cluster.log), cluster.log, planned, |done|);
        return;
      }
      PlannedStep(plan, snapshot, done, curTasks, Rounds(allTasks, after), old(cluster.log), logged, cluster.log);
      AddCompletedTasks(curTasks, completedTasks);
      RecordingABatchAgainChangesNothing(allTasks, completed);
      done := done + [curTasks];
      completed := after;
    }
    assert done == plan;
    assert planned[..|done|] == planned;
    RanPassed(old(cluster.log), planned);
    outcome := Pass;
  }

  /** Tasks of a list whose query strings are as recorded carry the recorded text. */
  lemma QueriesMatchSnapshot(tasks: seq<Task>, allTasks: seq<Task>, queries: seq<SqlText>)
    requires forall t :: t in tasks ==> t in allTasks
    requires QueriesOf(allTasks) == queries
    ensures QueriesOf(tasks) == QueriesIn(tasks, SnapshotMap(allTasks, queries))
  {
    SnapshotMapHolds(allTasks, queries);
    forall i | 0 <= i < |tasks|
      ensures QueriesOf(tasks)[i] == QueriesIn(tasks, SnapshotMap(allTasks, queries))[i]
    {
      assert tasks[i] in allTasks;
    }
  }

  /** The batch of a productive scan is the next round, and the scan shrinks what is left. */
  lemma NextRound(allTasks: seq<Task>, before: set<TaskHashKey>, done: seq<seq<Task>>, plan: seq<seq<Task>>)
    requires Scan(allTasks, before).batch != []
    requires done + Rounds(allTasks, before) == plan
    ensures done + [Scan(allTasks, before).batch] + Rounds(allTasks, Scan(allTasks, before).completed) == plan
    ensures |done| < |plan|
  {
    RoundsUnfold(allTasks, before);
  }

  /** The scan already entered every key of its batch, so recording the batch as
      completed afterwards leaves the table as the scan left it. */
  lemma RecordingABatchAgainChangesNothing(allTasks: seq<Task>, before: set<TaskHashKey>)
    ensures Scan(allTasks, before).completed + KeySet(Scan(allTasks, before).batch)
            == Scan(allTasks, before).completed
  {
  }

  /** A scan that admits nothing ends the rounds. */
  lemma LastRound(allTasks: seq<Task>, before: set<TaskHashKey>)
    requires Scan(allTasks, before).batch == []
    ensures Rounds(allTasks, before) == []
  {
  }

  /** The planned events up to one more batch. */
  lemma PlannedStep(plan: seq<seq<Task>>, snapshot: map<Task, SqlText>, done: seq<seq<Task>>,
                    batch: seq<Task>, rest: seq<seq<Task>>,
                    before: seq<Event>, logged: seq<Event>, after: seq<Event>)
    requires done + [batch] + rest == plan
    requires logged == before + TaskListEvents(plan, snapshot)[..|done|]
    requires after == logged + [TaskListExecution(RowModifyNone, batch, QueriesIn(batch, snapshot))]
    ensures after == before + TaskListEvents(plan, snapshot)[..|done + [batch]|]
  {
    var events := TaskListEvents(plan, snapshot);
    assert plan[|done|] == batch;
    assert events[..|done| + 1] == events[..|done|] + [events[|done|]];
  }
}
