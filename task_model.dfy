/** The task graph shared by both repartition executors: task records, their
    (jobId, taskId) hash keys, and the symbolic command text the executors fill in. */
module TaskModel {

  type uint32 = x: int | 0 <= x < 0x1_0000_0000
  type uint64 = x: int | 0 <= x < 0x1_0000_0000_0000_0000

  datatype Option<T> = None | Some(value: T)

  /** The roles a task can have; the executors only distinguish the first five. */
  datatype TaskType =
    | SelectTask
    | MapTask
    | MergeTask
    | MapOutputFetchTask
    | ModifyTask
    | MergeFetchTask
    | OtherTask

  datatype ShardPlacement = ShardPlacement(shardId: uint64, nodeName: string, nodePort: uint32)

  /** The two per-job templates (WORKER_CREATE_SCHEMA_QUERY, WORKER_DELETE_JOBDIR_QUERY). */
  datatype JobTemplate = WorkerCreateSchemaQuery | WorkerDeleteJobDirQuery

  /** One statement of command text. Each template is a constructor, so filling a
      template is injective in its arguments; the SQL spelling is not modelled. */
  datatype Statement =
    | MapOutputFetchCommand(mapJobId: uint64, mapTaskId: uint32, partitionFileId: uint32,
                            mergeTaskId: uint32, nodeName: string, nodePort: uint32)
    | JobCommand(template: JobTemplate, jobId: uint64)
    | JobSchemaCleanup
    | PlannedQuery(text: string)

  /** Command text: appending to a StringInfo is concatenation of statements. */
  type SqlText = seq<Statement>

  /** The key of the completed-task hash table. */
  datatype TaskHashKey = TaskHashKey(jobId: uint64, taskId: uint32)

  /** A task as the planner hands it over. Everything but the query string is fixed once
      the task exists; the executors only ever write `queryString`. Dependencies are
      references to tasks that existed before this one, so the graph is acyclic. */
  class Task {
    const jobId: uint64
    const taskId: uint32
    const taskType: TaskType
    const dependedTaskList: seq<Task>
    const taskPlacementList: seq<ShardPlacement>
    const partitionId: uint32
    const upstreamTaskId: uint32
    var queryString: SqlText

    constructor (jobId: uint64, taskId: uint32, taskType: TaskType, dependedTaskList: seq<Task>,
                 taskPlacementList: seq<ShardPlacement>, partitionId: uint32,
                 upstreamTaskId: uint32, queryString: SqlText)
      ensures this.jobId == jobId && this.taskId == taskId && this.taskType == taskType
      ensures this.dependedTaskList == dependedTaskList
      ensures this.taskPlacementList == taskPlacementList
      ensures this.partitionId == partitionId && this.upstreamTaskId == upstreamTaskId
      ensures this.queryString == queryString
    {
      this.jobId := jobId;
      this.taskId := taskId;
      this.taskType := taskType;
      this.dependedTaskList := dependedTaskList;
      this.taskPlacementList := taskPlacementList;
      this.partitionId := partitionId;
      this.upstreamTaskId := upstreamTaskId;
      this.queryString := queryString;
    }
  }

  /** FillTaskKey: the hash key of a task. */
  function TaskKey(task: Task): TaskHashKey
  {
    TaskHashKey(task.jobId, task.taskId)
  }

  /** TaskHashCompare: 0 means "same entry", anything else means "different". */
  function TaskHashCompare(key1: TaskHashKey, key2: TaskHashKey): (r: int)
    ensures r == 0 <==> key1 == key2
    ensures r == 0 || r == 1
  {
    if key1.jobId != key2.jobId || key1.taskId != key2.taskId then 1 else 0
  }

  /** Two tasks share a hash-table entry exactly when they agree on jobId and taskId,
      whether or not they are the same task object. */
  lemma TaskKeyIdentifiesIds(a: Task, b: Task)
    ensures TaskKey(a) == TaskKey(b) <==> a.jobId == b.jobId && a.taskId == b.taskId
    ensures TaskHashCompare(TaskKey(a), TaskKey(b)) == 0 <==> a.jobId == b.jobId && a.taskId == b.taskId
  {
  }

  /** The keys of a list of tasks. */
  function KeySet(tasks: seq<Task>): set<TaskHashKey>
  {
    set t | t in tasks :: TaskKey(t)
  }

  lemma KeySetConcat(a: seq<Task>, b: seq<Task>)
    ensures KeySet(a + b) == KeySet(a) + KeySet(b)
  {
    forall k | k in KeySet(a + b) ensures k in KeySet(a) + KeySet(b) {
      var t :| t in a + b && TaskKey(t) == k;
      assert t in a || t in b;
    }
    forall k | k in KeySet(a) + KeySet(b) ensures k in KeySet(a + b) {
      if k in KeySet(a) {
        var t :| t in a && TaskKey(t) == k;
        assert t in a + b;
      } else {
        var t :| t in b && TaskKey(t) == k;
        assert t in a + b;
      }
    }
  }

  lemma KeySetSingleton(t: Task)
    ensures KeySet([t]) == {TaskKey(t)}
  {
    assert t in [t];
  }

  /** Every dependency of `task` has its key in `completed`. */
  predicate AllDependenciesIn(task: Task, completed: set<TaskHashKey>)
  {
    forall d :: d in task.dependedTaskList ==> TaskKey(d) in completed
  }

  /** A task is ready when all its dependencies are completed and it is not itself. */
  predicate Ready(task: Task, completed: set<TaskHashKey>)
  {
    AllDependenciesIn(task, completed) && TaskKey(task) !in completed
  }
}
