/** A small repartition: a map task M1, a fetch task F1 of partition 0 for merge task 99,
    the merge task of job 5 that reads F1, and a top-level task over the merge. How many
    rounds it takes depends on the order in which the task list holds the tasks. */
module Scenarios {
  import opened TaskModel
  import opened Schedule
  import opened TaskGroups
  import opened JobIds
  import opened JobCommands
  import RepartitionLogic
  import AdaptiveRepartitioning

  predicate Repartition(top: Task, m1: Task, f1: Task, merge: Task)
  {
    && top.taskType == SelectTask && top.dependedTaskList == [merge]
    && m1.taskType == MapTask && m1.dependedTaskList == [] && |m1.taskPlacementList| > 0
    && f1.taskType == MapOutputFetchTask && f1.dependedTaskList == [m1]
    && f1.partitionId == 0 && f1.upstreamTaskId == 99
    && merge.taskType == MergeTask && merge.dependedTaskList == [f1] && merge.jobId == 5 && merge.taskId == 99
    && TaskKey(top) != TaskKey(m1) && TaskKey(top) != TaskKey(f1) && TaskKey(top) != TaskKey(merge)
    && TaskKey(m1) != TaskKey(f1) && TaskKey(m1) != TaskKey(merge) && TaskKey(f1) != TaskKey(merge)
  }

  /** A scan passes over a task that is not ready. */
  lemma ScanSkips(t: Task, rest: seq<Task>, completed: set<TaskHashKey>)
    requires !Ready(t, completed)
    ensures Scan([t] + rest, completed) == Scan(rest, completed)
  {
    assert ([t] + rest)[1..] == rest;
  }

  /** A scan admits a ready task and goes on with its key entered. */
  lemma ScanAdmits(t: Task, rest: seq<Task>, completed: set<TaskHashKey>)
    requires Ready(t, completed)
    ensures Scan([t] + rest, completed).batch == [t] + Scan(rest, completed + {TaskKey(t)}).batch
  {
    assert ([t] + rest)[1..] == rest;
  }

  lemma ScanEmpty(completed: set<TaskHashKey>)
    ensures Scan([], completed).batch == []
  {
  }

  /** The four scans of the dependents-first order, one per lemma. */
  lemma DependentsFirstScan1(top: Task, m1: Task, f1: Task, merge: Task)
    requires Repartition(top, m1, f1, merge)
    ensures Scan([top, merge, f1, m1], {TaskKey(top)}).batch == [m1]
  {
    var c0 := {TaskKey(top)};
    assert [top, merge, f1, m1] == [top] + ([merge] + ([f1] + ([m1] + [])));
    ScanSkips(top, [merge, f1, m1], c0);
    ScanSkips(merge, [f1, m1], c0);
    ScanSkips(f1, [m1], c0);
    ScanAdmits(m1, [], c0);
    ScanEmpty(c0 + {TaskKey(m1)});
  }

  lemma DependentsFirstScan2(top: Task, m1: Task, f1: Task, merge: Task)
    requires Repartition(top, m1, f1, merge)
    ensures Scan([top, merge, f1, m1], {TaskKey(top), TaskKey(m1)}).batch == [f1]
  {
    var c1 := {TaskKey(top), TaskKey(m1)};
    var c2 := c1 + {TaskKey(f1)};
    assert [top, merge, f1, m1] == [top] + ([merge] + ([f1] + ([m1] + [])));
    ScanSkips(top, [merge, f1, m1], c1);
    ScanSkips(merge, [f1, m1], c1);
    ScanAdmits(f1, [m1], c1);
    ScanSkips(m1, [], c2);
    ScanEmpty(c2);
  }

  lemma DependentsFirstScan3(top: Task, m1: Task, f1: Task, merge: Task)
    requires Repartition(top, m1, f1, merge)
    ensures Scan([top, merge, f1, m1], {TaskKey(top), TaskKey(m1), TaskKey(f1)}).batch == [merge]
  {
    var c2 := {TaskKey(top), TaskKey(m1), TaskKey(f1)};
    var c3 := c2 + {TaskKey(merge)};
    assert [top, merge, f1, m1] == [top] + ([merge] + ([f1] + ([m1] + [])));
    ScanSkips(top, [merge, f1, m1], c2);
    ScanAdmits(merge, [f1, m1], c2);
    ScanSkips(f1, [m1], c3);
    ScanSkips(m1, [], c3);
    ScanEmpty(c3);
  }

  lemma DependentsFirstScan4(top: Task, m1: Task, f1: Task, merge: Task)
    requires Repartition(top, m1, f1, merge)
    ensures Scan([top, merge, f1, m1], {TaskKey(top), TaskKey(m1), TaskKey(f1), TaskKey(merge)}).batch == []
  {
    var c3 := {TaskKey(top), TaskKey(m1), TaskKey(f1), TaskKey(merge)};
    assert [top, merge, f1, m1] == [top] + ([merge] + ([f1] + ([m1] + [])));
    ScanSkips(top, [merge, f1, m1], c3);
    ScanSkips(merge, [f1, m1], c3);
    ScanSkips(f1, [m1], c3);
    ScanSkips(m1, [], c3);
    ScanEmpty(c3);
  }

  /** Listed with dependents before their dependencies, the tasks run in three rounds:
      M1, then F1, then the merge; the fourth scan finds nothing. */
  lemma DependentsFirstTakesThreeRounds(top: Task, m1: Task, f1: Task, merge: Task)
    requires Repartition(top, m1, f1, merge)
    ensures Rounds([top, merge, f1, m1], KeySet([top])) == [[m1], [f1], [merge]]
  {
    var all := [top, merge, f1, m1];
    KeySetSingleton(top);
    KeySetSingleton(m1);
    KeySetSingleton(f1);
    KeySetSingleton(merge);
    var c0 := {TaskKey(top)};
    var c1 := {TaskKey(top), TaskKey(m1)};
    var c2 := {TaskKey(top), TaskKey(m1), TaskKey(f1)};
    var c3 := {TaskKey(top), TaskKey(m1), TaskKey(f1), TaskKey(merge)};
    DependentsFirstScan1(top, m1, f1, merge);
    assert Scan(all, c0).completed == c1;
    RoundsUnfold(all, c0);
    DependentsFirstScan2(top, m1, f1, merge);
    assert Scan(all, c1).completed == c2;
    RoundsUnfold(all, c1);
    DependentsFirstScan3(top, m1, f1, merge);
    assert Scan(all, c2).completed == c3;
    RoundsUnfold(all, c2);
    DependentsFirstScan4(top, m1, f1, merge);
    assert Rounds(all, c3) == [];
  }

  /** The two scans of the dependencies-first order. */
  lemma DependenciesFirstScan1(top: Task, m1: Task, f1: Task, merge: Task)
    requires Repartition(top, m1, f1, merge)
    ensures Scan([top, m1, f1, merge], {TaskKey(top)}).batch == [m1, f1, merge]
  {
    var c0 := {TaskKey(top)};
    var c1 := c0 + {TaskKey(m1)};
    var c2 := c1 + {TaskKey(f1)};
    assert [top, m1, f1, merge] == [top] + ([m1] + ([f1] + ([merge] + [])));
    ScanSkips(top, [m1, f1, merge], c0);
    ScanAdmits(m1, [f1, merge], c0);
    ScanAdmits(f1, [merge], c1);
    ScanAdmits(merge, [], c2);
    ScanEmpty(c2 + {TaskKey(merge)});
  }

  lemma DependenciesFirstScan2(top: Task, m1: Task, f1: Task, merge: Task)
    requires Repartition(top, m1, f1, merge)
    ensures Scan([top, m1, f1, merge], {TaskKey(top), TaskKey(m1), TaskKey(f1), TaskKey(merge)}).batch == []
  {
    var c3 := {TaskKey(top), TaskKey(m1), TaskKey(f1), TaskKey(merge)};
    assert [top, m1, f1, merge] == [top] + ([m1] + ([f1] + ([merge] + [])));
    ScanSkips(top, [m1, f1, merge], c3);
    ScanSkips(m1, [f1, merge], c3);
    ScanSkips(f1, [merge], c3);
    ScanSkips(merge, [], c3);
    ScanEmpty(c3);
  }

  /** Listed with dependencies first, all three join the first batch, because the
      completed-set probe enters each admitted key before the next task is looked at. */
  lemma DependenciesFirstTakesOneRound(top: Task, m1: Task, f1: Task, merge: Task)
    requires Repartition(top, m1, f1, merge)
    ensures Rounds([top, m1, f1, merge], KeySet([top])) == [[m1, f1, merge]]
  {
    var all := [top, m1, f1, merge];
    KeySetSingleton(top);
    var c0 := {TaskKey(top)};
    var c3 := {TaskKey(top), TaskKey(m1), TaskKey(f1), TaskKey(merge)};
    DependenciesFirstScan1(top, m1, f1, merge);
    KeySetOfThree(m1, f1, merge);
    assert Scan(all, c0).completed == c3;
    RoundsUnfold(all, c0);
    DependenciesFirstScan2(top, m1, f1, merge);
    assert Rounds(all, c3) == [];
  }

  lemma KeySetOfThree(a: Task, b: Task, c: Task)
    ensures KeySet([a, b, c]) == {TaskKey(a), TaskKey(b), TaskKey(c)}
  {
    assert a in [a, b, c] && b in [a, b, c] && c in [a, b, c];
  }

  /** The merge tasks of either order: the one merge task. */
  lemma MergeTasksDependentsFirst(top: Task, m1: Task, f1: Task, merge: Task)
    requires Repartition(top, m1, f1, merge)
    ensures FilterByType([top, merge, f1, m1], MergeTask) == [merge]
  {
    FilterByTypeSnoc([], top, MergeTask);
    assert [] + [top] == [top];
    FilterByTypeSnoc([top], merge, MergeTask);
    FilterByTypeSnoc([top, merge], f1, MergeTask);
    FilterByTypeSnoc([top, merge, f1], m1, MergeTask);
    assert [top] + [merge] == [top, merge] && [top, merge] + [f1] == [top, merge, f1];
    assert [top, merge, f1] + [m1] == [top, merge, f1, m1];
  }

  lemma MergeTasksDependenciesFirst(top: Task, m1: Task, f1: Task, merge: Task)
    requires Repartition(top, m1, f1, merge)
    ensures FilterByType([top, m1, f1, merge], MergeTask) == [merge]
  {
    FilterByTypeSnoc([], top, MergeTask);
    assert [] + [top] == [top];
    FilterByTypeSnoc([top], m1, MergeTask);
    FilterByTypeSnoc([top, m1], f1, MergeTask);
    FilterByTypeSnoc([top, m1, f1], merge, MergeTask);
    assert [top] + [m1] == [top, m1] && [top, m1] + [f1] == [top, m1, f1];
    assert [top, m1, f1] + [merge] == [top, m1, f1, merge];
  }

  /** In either order job 5 gets one create-schema statement before the rounds and one
      delete-jobdir statement after them, and F1 fetches partition 0 for merge task 99
      from M1's first placement. */
  lemma RepartitionCommands(top: Task, m1: Task, f1: Task, merge: Task)
    requires Repartition(top, m1, f1, merge)
    ensures RepartitionLogic.DependedJobIds([top, merge, f1, m1]) == [5]
    ensures RepartitionLogic.DependedJobIds([top, m1, f1, merge]) == [5]
    ensures RepartitionLogic.ProvisionCommand([5]) == [JobCommand(WorkerCreateSchemaQuery, 5)]
    ensures RepartitionLogic.TeardownCommand([5]) == [JobCommand(WorkerDeleteJobDirQuery, 5)]
    ensures AdaptiveRepartitioning.FetchTaskWellFormed(f1)
    ensures AdaptiveRepartitioning.FetchQuery(f1)
            == [MapOutputFetchCommand(m1.jobId, m1.taskId, 0, 99,
                                      m1.taskPlacementList[0].nodeName, m1.taskPlacementList[0].nodePort)]
  {
    MergeTasksDependentsFirst(top, m1, f1, merge);
    MergeTasksDependenciesFirst(top, m1, f1, merge);
    assert JobIdsOf([merge]) == [5];
    assert Dedup([5]) == [5];
  }
}
