/** The collaborators outside the core: the worker nodes reached through one transaction
    per worker, and the adaptive executor that runs a task list. Both either return or
    raise an error for the whole query; which of the two is not known to the core, so the
    model chooses it freely. Every call that took effect is recorded in `log`. */
module Workers {
  import opened TaskModel

  datatype WorkerNode = WorkerNode(workerName: string, workerPort: uint32)

  datatype RowModifyLevel = RowModifyNone | RowModifyReadonly | RowModifyCommutative | RowModifyNoncommutative

  datatype Event =
    | WorkerTransaction(nodeName: string, nodePort: uint32, user: string, commandList: seq<SqlText>)
    | TaskListExecution(modLevel: RowModifyLevel, tasks: seq<Task>, queries: seq<SqlText>)

  datatype Error =
    | ModificationsAlreadyDone
    | WorkerTransactionFailed(nodeName: string, nodePort: uint32)
    | TaskExecutionFailed

  /** The query text of every task of a list, as it stands at the moment of the call. */
  function QueriesOf(tasks: seq<Task>): (queries: seq<SqlText>)
    reads tasks
    ensures |queries| == |tasks|
    ensures forall i :: 0 <= i < |tasks| ==> queries[i] == tasks[i].queryString
  {
    seq(|tasks|, i reads tasks requires 0 <= i < |tasks| => tasks[i].queryString)
  }

  /** The error a worker raises when its transaction fails. */
  function NodeFailure(node: WorkerNode): Error
  {
    WorkerTransactionFailed(node.workerName, node.workerPort)
  }

  /** Returning normally, or an error raised with ereport(ERROR). */
  datatype Outcome = Pass | Fail(error: Error)

  /** A run that was planned to produce `planned` went from `before` to `after`: it
      produced a prefix of the plan, and all of it exactly when it passed. An error
      therefore skips every later step. */
  predicate Ran(outcome: Outcome, before: seq<Event>, after: seq<Event>, planned: seq<Event>)
  {
    && |before| <= |after| <= |before| + |planned|
    && after == before + planned[..|after| - |before|]
    && (outcome.Pass? <==> after == before + planned)
  }

  /** A run that made all of its planned calls. */
  lemma RanPassed(before: seq<Event>, planned: seq<Event>)
    ensures Ran(Pass, before, before + planned, planned)
  {
  }

  /** An error after `n` of the planned calls leaves exactly those. */
  lemma RanFailed(outcome: Outcome, before: seq<Event>, after: seq<Event>, planned: seq<Event>, n: nat)
    requires outcome.Fail? && n < |planned| && after == before + planned[..n]
    ensures |after| == |before| + n
    ensures Ran(outcome, before, after, planned)
  {
  }

  /** A broadcast stopped by worker `n` saw the calls to the workers before it, and reports
      worker `n`. */
  lemma BroadcastFailed(outcome: Outcome, before: seq<Event>, after: seq<Event>, planned: seq<Event>,
                        nodes: seq<WorkerNode>, n: nat)
    requires n < |nodes| == |planned| && after == before + planned[..n]
    requires outcome == Fail(NodeFailure(nodes[n]))
    ensures Ran(outcome, before, after, planned)
    ensures |after| < |before| + |nodes|
    ensures outcome.error == NodeFailure(nodes[|after| - |before|])
  {
  }

  /** A step that passed followed by another step runs the two plans one after the other. */
  lemma RanSequence(first: Outcome, second: Outcome, a: seq<Event>, b: seq<Event>, c: seq<Event>,
                    p: seq<Event>, q: seq<Event>)
    requires first.Pass? && Ran(first, a, b, p) && Ran(second, b, c, q)
    ensures |b| == |a| + |p|
    ensures Ran(second, a, c, p + q)
  {
    assert c == a + (p + q)[..|c| - |a|] by {
      assert (p + q)[..|c| - |a|] == p + q[..|c| - |b|];
    }
  }

  /** A step that failed ends the run: the later plan never starts. */
  lemma RanStopsEarly(outcome: Outcome, a: seq<Event>, b: seq<Event>, p: seq<Event>, q: seq<Event>)
    requires outcome.Fail? && Ran(outcome, a, b, p)
    ensures |b| < |a| + |p|
    ensures Ran(outcome, a, b, p + q)
  {
    assert |b| < |a| + |p|;
    assert (p + q)[..|b| - |a|] == p[..|b| - |a|];
  }

  /** The workers, the extension owner and the record of calls that took effect. */
  class Cluster {
    /** ActiveReadableNodeList(), taken as fixed for the length of one run. */
    const activeReadableNodes: seq<WorkerNode>
    /** CitusExtensionOwnerName(). */
    const extensionOwner: string
    var log: seq<Event>

    constructor (activeReadableNodes: seq<WorkerNode>, extensionOwner: string)
      ensures this.activeReadableNodes == activeReadableNodes
      ensures this.extensionOwner == extensionOwner
      ensures log == []
    {
      this.activeReadableNodes := activeReadableNodes;
      this.extensionOwner := extensionOwner;
      log := [];
    }

    /** SendCommandListToWorkerInSingleTransaction: either every command commits on that
        worker, or none does and the query errors. */
    method SendCommandListToWorkerInSingleTransaction(nodeName: string, nodePort: uint32,
                                                      nodeUser: string, commandList: seq<SqlText>)
      returns (ok: bool)
      modifies this
      ensures log == old(log) + (if ok then [WorkerTransaction(nodeName, nodePort, nodeUser, commandList)] else [])
    {
      ok :| true;
      if ok {
        log := log + [WorkerTransaction(nodeName, nodePort, nodeUser, commandList)];
      }
    }

    /** ExecuteTaskList: the whole list runs, or the query errors and no task of it
        counts as done. The call records the query text each task carries when it is sent. */
    method ExecuteTaskList(modLevel: RowModifyLevel, taskList: seq<Task>) returns (ok: bool)
      modifies this
      ensures log == old(log) + (if ok then [TaskListExecution(modLevel, taskList, QueriesOf(taskList))] else [])
    {
      ok :| true;
      if ok {
        log := log + [TaskListExecution(modLevel, taskList, QueriesOf(taskList))];
      }
    }
  }

  /** One transaction per worker, each carrying the identical command list, in worker order. */
  function BroadcastEvents(nodes: seq<WorkerNode>, user: string, commandList: seq<SqlText>): (events: seq<Event>)
    ensures |events| == |nodes|
    ensures forall i :: 0 <= i < |nodes| ==>
              events[i] == WorkerTransaction(nodes[i].workerName, nodes[i].workerPort, user, commandList)
  {
    if nodes == [] then []
    else [WorkerTransaction(nodes[0].workerName, nodes[0].workerPort, user, commandList)]
         + BroadcastEvents(nodes[1..], user, commandList)
  }

  /** The map from each listed task to the query text at its first position. */
  function SnapshotMap(tasks: seq<Task>, queries: seq<SqlText>): map<Task, SqlText>
    requires |queries| == |tasks|
  {
    if tasks == [] then map[] else SnapshotMap(tasks[1..], queries[1..])[tasks[0] := queries[0]]
  }

  /** A snapshot taken from the current query strings maps every listed task to its own. */
  lemma {:induction false} SnapshotMapHolds(tasks: seq<Task>, queries: seq<SqlText>)
    requires QueriesOf(tasks) == queries
    ensures forall t :: t in SnapshotMap(tasks, queries) ==> t in tasks
    ensures forall t :: t in tasks ==> t in SnapshotMap(tasks, queries) && SnapshotMap(tasks, queries)[t] == t.queryString
    decreases |tasks|
  {
    if tasks != [] {
      assert QueriesOf(tasks[1..]) == queries[1..];
      SnapshotMapHolds(tasks[1..], queries[1..]);
      assert forall t :: t in tasks ==> t == tasks[0] || t in tasks[1..];
    }
  }

  /** The query string of every listed task, as a value. */
  function QuerySnapshot(tasks: seq<Task>): map<Task, SqlText>
    reads tasks
  {
    SnapshotMap(tasks, QueriesOf(tasks))
  }

  /** The query text of every task of a list, read from a snapshot. */
  function QueriesIn(tasks: seq<Task>, snapshot: map<Task, SqlText>): (queries: seq<SqlText>)
    ensures |queries| == |tasks|
    ensures forall i :: 0 <= i < |tasks| && tasks[i] in snapshot ==> queries[i] == snapshot[tasks[i]]
  {
    seq(|tasks|, i requires 0 <= i < |tasks| => if tasks[i] in snapshot then snapshot[tasks[i]] else [])
  }

  /** One executor call per batch, in batch order, all without row modifications, each
      carrying the query text its tasks have in `snapshot`. */
  function TaskListEvents(batches: seq<seq<Task>>, snapshot: map<Task, SqlText>): (events: seq<Event>)
    ensures |events| == |batches|
    ensures forall i :: 0 <= i < |batches| ==>
              events[i] == TaskListExecution(RowModifyNone, batches[i], QueriesIn(batches[i], snapshot))
  {
    seq(|batches|, i requires 0 <= i < |batches| =>
      TaskListExecution(RowModifyNone, batches[i], QueriesIn(batches[i], snapshot)))
  }

  /** SendCommandToAllWorkers: the command list to every active readable worker, one
      single-transaction call per worker, in list order; the first failing worker ends it. */
  method SendCommandToAllWorkers(cluster: Cluster, commandList: seq<SqlText>) returns (outcome: Outcome)
    modifies cluster
    ensures Ran(outcome, old(cluster.log), cluster.log,
                BroadcastEvents(cluster.activeReadableNodes, cluster.extensionOwner, commandList))
    ensures outcome.Fail? ==>
              && |cluster.log| < |old(cluster.log)| + |cluster.activeReadableNodes|
              && outcome.error == NodeFailure(cluster.activeReadableNodes[|cluster.log| - |old(cluster.log)|])
  {
    var extensionOwner := cluster.extensionOwner;
    var workerNodeList := cluster.activeReadableNodes;
    ghost var planned := BroadcastEvents(workerNodeList, extensionOwner, commandList);
    var i := 0;
    while i < |workerNodeList|
      invariant 0 <= i <= |workerNodeList|
      invariant cluster.log == old(cluster.log) + planned[..i]
    {
      var workerNode := workerNodeList[i];
      var ok := cluster.SendCommandListToWorkerInSingleTransaction(
        workerNode.workerName, workerNode.workerPort, extensionOwner, commandList);
      if !ok {
        outcome := Fail(NodeFailure(workerNode));
        BroadcastFailed(outcome, old(cluster.log), cluster.log, planned, workerNodeList, i);
        return;
      }
      assert planned[..i + 1] == planned[..i] + [planned[i]];
      i := i + 1;
    }
    assert planned[..i] == planned;
    outcome := Pass;
  }

  /** CreateSchemasOnAllWorkers: the one create-schemas command, broadcast. */
  method CreateSchemasOnAllWorkers(cluster: Cluster, createSchemasCommand: SqlText) returns (outcome: Outcome)
    modifies cluster
    ensures Ran(outcome, old(cluster.log), cluster.log,
                BroadcastEvents(cluster.activeReadableNodes, cluster.extensionOwner, [createSchemasCommand]))
    ensures outcome.Fail? ==>
              && |cluster.log| < |old(cluster.log)| + |cluster.activeReadableNodes|
              && outcome.error == NodeFailure(cluster.activeReadableNodes[|cluster.log| - |old(cluster.log)|])
  {
    outcome := SendCommandToAllWorkers(cluster, [createSchemasCommand]);
  }

  /** CleanUpSchemas: the one fixed cleanup statement, broadcast; it names no job. */
  method CleanUpSchemas(cluster: Cluster) returns (outcome: Outcome)
    modifies cluster
    ensures Ran(outcome, old(cluster.log), cluster.log,
                BroadcastEvents(cluster.activeReadableNodes, cluster.extensionOwner, [[JobSchemaCleanup]]))
    ensures outcome.Fail? ==>
              && |cluster.log| < |old(cluster.log)| + |cluster.activeReadableNodes|
              && outcome.error == NodeFailure(cluster.activeReadableNodes[|cluster.log| - |old(cluster.log)|])
  {
    outcome := SendCommandToAllWorkers(cluster, [[JobSchemaCleanup]]);
  }
}
