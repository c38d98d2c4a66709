/** The order-preserving filter of a task list by task type, which both
    FillTaskGroups loops compute. */
module TaskGroups {
  import opened TaskModel

  /** The tasks of `tasks` whose type is `taskType`, in their original order. */
  function FilterByType(tasks: seq<Task>, taskType: TaskType): (r: seq<Task>)
    ensures |r| <= |tasks|
  {
    if tasks == [] then []
    else
      var last := tasks[|tasks| - 1];
      var front := FilterByType(tasks[..|tasks| - 1], taskType);
      if last.taskType == taskType then front + [last] else front
  }

  /** The filter keeps exactly the tasks of that type: nothing else, and none of them is lost. */
  lemma {:induction false} FilterByTypeMembers(tasks: seq<Task>, taskType: TaskType)
    ensures forall t :: t in FilterByType(tasks, taskType) ==> t in tasks && t.taskType == taskType
    ensures forall t :: t in tasks && t.taskType == taskType ==> t in FilterByType(tasks, taskType)
    decreases |tasks|
  {
    if tasks != [] {
      var front := tasks[..|tasks| - 1];
      FilterByTypeMembers(front, taskType);
      assert tasks == front + [tasks[|tasks| - 1]];
    }
  }

  /** One more task at the end extends the filter by that task exactly when it has the type. */
  lemma FilterByTypeSnoc(tasks: seq<Task>, t: Task, taskType: TaskType)
    ensures FilterByType(tasks + [t], taskType)
            == FilterByType(tasks, taskType) + (if t.taskType == taskType then [t] else [])
  {
    assert (tasks + [t])[..|tasks + [t]| - 1] == tasks;
  }

  /** The filter distributes over concatenation: it keeps the relative order of tasks. */
  lemma {:induction false} FilterByTypeConcat(a: seq<Task>, b: seq<Task>, taskType: TaskType)
    ensures FilterByType(a + b, taskType) == FilterByType(a, taskType) + FilterByType(b, taskType)
    decreases |b|
  {
    if b == [] {
      assert a + b == a;
    } else {
      var front := b[..|b| - 1];
      var last := b[|b| - 1];
      assert b == front + [last];
      assert a + b == (a + front) + [last];
      FilterByTypeSnoc(a + front, last, taskType);
      FilterByTypeSnoc(front, last, taskType);
      FilterByTypeConcat(a, front, taskType);
    }
  }

  /** The filter of a list that holds only tasks of that type is the list itself.
      No other proof uses it: it states on its own that the filter drops nothing of the type. */
  lemma {:induction false} FilterByTypeKeepsAll(tasks: seq<Task>, taskType: TaskType)
    requires forall t :: t in tasks ==> t.taskType == taskType
    ensures FilterByType(tasks, taskType) == tasks
    decreases |tasks|
  {
    if tasks != [] {
      var front := tasks[..|tasks| - 1];
      assert forall t :: t in front ==> t in tasks;
      FilterByTypeKeepsAll(front, taskType);
      assert tasks == front + [tasks[|tasks| - 1]];
    }
  }
}
