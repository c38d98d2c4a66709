/** The round-based dependency order of ExecuteTasksInDependencyOrder, as functions:
    one scan of all tasks yields a batch, and batches are executed until a scan yields
    none. The completed-set probe inserts the key of every task whose dependencies are
    complete, during the scan itself, so a task can join the batch of a dependency that
    came earlier in the same scan: completion is a linear order, not a strict barrier
    between rounds. */
module Schedule {
  import opened TaskModel

  datatype ScanResult = ScanResult(batch: seq<Task>, completed: set<TaskHashKey>)

  /** One pass over the tasks in list order, starting from `completed`. */
  function Scan(tasks: seq<Task>, completed: set<TaskHashKey>): (r: ScanResult)
    ensures r.completed == completed + KeySet(r.batch)
    decreases |tasks|
  {
    if tasks == [] then ScanResult([], completed)
    else
      var t := tasks[0];
      if Ready(t, completed) then
        var rest := Scan(tasks[1..], completed + {TaskKey(t)});
        KeySetConcat([t], rest.batch);
        KeySetSingleton(t);
        ScanResult([t] + rest.batch, rest.completed)
      else
        Scan(tasks[1..], completed)
  }

  /** A batch holds only tasks of the scanned list. */
  lemma {:induction false} ScanDrawsFromTasks(tasks: seq<Task>, completed: set<TaskHashKey>)
    ensures forall t :: t in Scan(tasks, completed).batch ==> t in tasks
    decreases |tasks|
  {
    if tasks != [] {
      var t := tasks[0];
      var c1 := if Ready(t, completed) then completed + {TaskKey(t)} else completed;
      ScanDrawsFromTasks(tasks[1..], c1);
    }
  }

  /** Each task of `f` was ready when it was admitted, given `completed` and the tasks
      admitted before it. */
  predicate AdmittedInOrder(f: seq<Task>, completed: set<TaskHashKey>)
  {
    forall j :: 0 <= j < |f| ==> Ready(f[j], completed + KeySet(f[..j]))
  }

  /** Admitting `b` and then `rest` is admitting `b + rest`. */
  lemma AdmittedInOrderConcat(b: seq<Task>, rest: seq<Task>, completed: set<TaskHashKey>)
    requires AdmittedInOrder(b, completed)
    requires AdmittedInOrder(rest, completed + KeySet(b))
    ensures AdmittedInOrder(b + rest, completed)
  {
    var f := b + rest;
    forall j | 0 <= j < |f| ensures Ready(f[j], completed + KeySet(f[..j])) {
      if j < |b| {
        assert f[..j] == b[..j];
      } else {
        var j' := j - |b|;
        assert f[j] == rest[j'];
        assert f[..j] == b + rest[..j'];
        KeySetConcat(b, rest[..j']);
        assert completed + KeySet(f[..j]) == (completed + KeySet(b)) + KeySet(rest[..j']);
      }
    }
  }

  /** Every task of a batch was ready when the scan reached it: its dependencies were
      completed, counting the tasks admitted before it, and it was not. */
  lemma {:induction false} ScanAdmitsOnlyReady(tasks: seq<Task>, completed: set<TaskHashKey>)
    ensures AdmittedInOrder(Scan(tasks, completed).batch, completed)
    decreases |tasks|
  {
    if tasks != [] {
      var t := tasks[0];
      if Ready(t, completed) {
        var c1 := completed + {TaskKey(t)};
        ScanAdmitsOnlyReady(tasks[1..], c1);
        var rb := Scan(tasks[1..], c1).batch;
        assert Scan(tasks, completed).batch == [t] + rb;
        assert [t][..0] == [];
        assert KeySet([t][..0]) == {};
        assert AdmittedInOrder([t], completed);
        KeySetSingleton(t);
        AdmittedInOrderConcat([t], rb, completed);
      } else {
        ScanAdmitsOnlyReady(tasks[1..], completed);
      }
    }
  }

  /** The converse of ScanAdmitsOnlyReady: a task that is ready when the scan reaches it,
      counting everything the scan admitted before it, is admitted. */
  lemma {:induction false} ReadyWhenReachedIsAdmitted(tasks: seq<Task>, completed: set<TaskHashKey>, i: int)
    requires 0 <= i < |tasks| && Ready(tasks[i], Scan(tasks[..i], completed).completed)
    ensures tasks[i] in Scan(tasks, completed).batch
    decreases |tasks|
  {
    var t := tasks[0];
    var c1 := if Ready(t, completed) then completed + {TaskKey(t)} else completed;
    if i == 0 {
      assert tasks[..0] == [];
    } else {
      assert tasks[..i][1..] == tasks[1..][..i - 1];
      assert Scan(tasks[..i], completed).completed == Scan(tasks[1..][..i - 1], c1).completed;
      ReadyWhenReachedIsAdmitted(tasks[1..], c1, i - 1);
    }
  }

  /** Scanning one more task enters its key exactly when it is ready at that point. */
  lemma {:induction false} ScanSnoc(tasks: seq<Task>, t: Task, completed: set<TaskHashKey>)
    ensures Scan(tasks + [t], completed).completed
            == if Ready(t, Scan(tasks, completed).completed)
               then Scan(tasks, completed).completed + {TaskKey(t)}
               else Scan(tasks, completed).completed
    decreases |tasks|
  {
    if tasks == [] {
      assert [] + [t] == [t];
      assert [t][1..] == [];
    } else {
      var c1 := if Ready(tasks[0], completed) then completed + {TaskKey(tasks[0])} else completed;
      assert (tasks + [t])[1..] == tasks[1..] + [t];
      ScanSnoc(tasks[1..], t, c1);
    }
  }

  /** The completed set only grows as the scan moves along the list. */
  lemma {:induction false} ScanPrefixGrows(tasks: seq<Task>, completed: set<TaskHashKey>, i: int, j: int)
    requires 0 <= i <= j <= |tasks|
    ensures Scan(tasks[..i], completed).completed <= Scan(tasks[..j], completed).completed
    decreases j - i
  {
    if i < j {
      ScanPrefixGrows(tasks, completed, i, j - 1);
      assert tasks[..j] == tasks[..j - 1] + [tasks[j - 1]];
      ScanSnoc(tasks[..j - 1], tasks[j - 1], completed);
    }
  }

  /** A scan comes back empty exactly when no task is ready at its start. */
  lemma {:induction false} ScanEmptyIff(tasks: seq<Task>, completed: set<TaskHashKey>)
    ensures Scan(tasks, completed).batch == [] <==> forall t :: t in tasks ==> !Ready(t, completed)
    decreases |tasks|
  {
    if tasks != [] {
      ScanEmptyIff(tasks[1..], completed);
      assert forall t :: t in tasks <==> t == tasks[0] || t in tasks[1..];
    }
  }

  /** A task whose dependencies are completed before the scan is completed after it,
      whether it was admitted now or earlier. */
  lemma {:induction false} ScanCompletesReady(tasks: seq<Task>, completed: set<TaskHashKey>)
    ensures forall t :: t in tasks && AllDependenciesIn(t, completed) ==>
              TaskKey(t) in Scan(tasks, completed).completed
    decreases |tasks|
  {
    if tasks != [] {
      var t0 := tasks[0];
      var c1 := if Ready(t0, completed) then completed + {TaskKey(t0)} else completed;
      ScanCompletesReady(tasks[1..], c1);
      assert Scan(tasks, completed).completed == Scan(tasks[1..], c1).completed;
      forall t | t in tasks && AllDependenciesIn(t, completed)
        ensures TaskKey(t) in Scan(tasks, completed).completed
      {
        if t != t0 {
          assert t in tasks[1..];
          assert AllDependenciesIn(t, c1);
        }
      }
    }
  }

  lemma ProperShrink(all: set<TaskHashKey>, c: set<TaskHashKey>, c2: set<TaskHashKey>, k: TaskHashKey)
    requires c <= c2 && k in all && k !in c && k in c2
    ensures |all - c2| < |all - c|
  {
    var big := all - c;
    var small := all - c2;
    assert small <= big - {k};
    assert big == (big - {k}) + {k};
    assert |big - {k}| == |big| - 1;
    SubsetCard(small, big - {k});
  }

  lemma {:induction false} SubsetCard(a: set<TaskHashKey>, b: set<TaskHashKey>)
    requires a <= b
    ensures |a| <= |b|
    decreases |b|
  {
    if a != {} {
      var x :| x in a;
      SubsetCard(a - {x}, b - {x});
    }
  }

  /** A non-empty batch completes at least one task of the list that was not completed. */
  lemma ScanProgress(tasks: seq<Task>, completed: set<TaskHashKey>)
    requires Scan(tasks, completed).batch != []
    ensures |KeySet(tasks) - Scan(tasks, completed).completed| < |KeySet(tasks) - completed|
  {
    var r := Scan(tasks, completed);
    ScanAdmitsOnlyReady(tasks, completed);
    ScanDrawsFromTasks(tasks, completed);
    assert r.batch[..0] == [];
    var t := r.batch[0];
    assert t in tasks;
    assert TaskKey(t) in KeySet(r.batch);
    ProperShrink(KeySet(tasks), completed, r.completed, TaskKey(t));
  }

  /** The batches of the scheduling loop, from the given completed set until a scan
      comes back empty (the final empty scan is not listed). */
  function Rounds(tasks: seq<Task>, completed: set<TaskHashKey>): (rounds: seq<seq<Task>>)
    ensures forall i :: 0 <= i < |rounds| ==> rounds[i] != []
    decreases |KeySet(tasks) - completed|
  {
    var scan := Scan(tasks, completed);
    if scan.batch == [] then []
    else
      ScanProgress(tasks, completed);
      [scan.batch] + Rounds(tasks, scan.completed)
  }

  /** The tasks of the batches, in execution order. */
  function Flatten(batches: seq<seq<Task>>): seq<Task>
  {
    if batches == [] then [] else batches[0] + Flatten(batches[1..])
  }

  /** A task of one batch is a task of the flattened batches. */
  lemma {:induction false} FlattenContainsBatch(batches: seq<seq<Task>>, k: nat)
    requires k < |batches|
    ensures forall t :: t in batches[k] ==> t in Flatten(batches)
    decreases k
  {
    if k > 0 {
      FlattenContainsBatch(batches[1..], k - 1);
      assert batches[1..][k - 1] == batches[k];
    }
  }

  /** Rounds unfolded once, for a scan that admitted something. */
  lemma RoundsUnfold(tasks: seq<Task>, completed: set<TaskHashKey>)
    requires Scan(tasks, completed).batch != []
    ensures var scan := Scan(tasks, completed);
            Rounds(tasks, completed) == [scan.batch] + Rounds(tasks, scan.completed)
            && Flatten(Rounds(tasks, completed)) == scan.batch + Flatten(Rounds(tasks, scan.completed))
  {
    var scan := Scan(tasks, completed);
    var r := Rounds(tasks, completed);
    assert r[1..] == Rounds(tasks, scan.completed);
  }

  /** Topological soundness in the form the code gives it: in execution order, every task
      was ready at the moment it was admitted, given the seeded keys and all tasks admitted
      before it. In particular no task is admitted twice and none of the seeded ones. */
  lemma {:induction false} RoundsAdmitOnlyReady(tasks: seq<Task>, completed: set<TaskHashKey>)
    ensures AdmittedInOrder(Flatten(Rounds(tasks, completed)), completed)
    decreases |KeySet(tasks) - completed|
  {
    var scan := Scan(tasks, completed);
    if scan.batch != [] {
      ScanProgress(tasks, completed);
      RoundsUnfold(tasks, completed);
      RoundsAdmitOnlyReady(tasks, scan.completed);
      ScanAdmitsOnlyReady(tasks, completed);
      AdmittedInOrderConcat(scan.batch, Flatten(Rounds(tasks, scan.completed)), completed);
    } else {
      assert Flatten(Rounds(tasks, completed)) == [];
    }
  }

  /** At most once: the keys of all admitted tasks are pairwise distinct, and none of
      them was in the seeded set. */
  lemma RoundsAtMostOnce(tasks: seq<Task>, completed: set<TaskHashKey>)
    ensures var f := Flatten(Rounds(tasks, completed));
            (forall i, j :: 0 <= i < j < |f| ==> TaskKey(f[i]) != TaskKey(f[j]))
            && (forall t :: t in f ==> TaskKey(t) !in completed)
  {
    var f := Flatten(Rounds(tasks, completed));
    RoundsAdmitOnlyReady(tasks, completed);
    forall i, j | 0 <= i < j < |f| ensures TaskKey(f[i]) != TaskKey(f[j]) {
      assert Ready(f[j], completed + KeySet(f[..j]));
      assert f[..j][i] == f[i];
      assert TaskKey(f[i]) in KeySet(f[..j]);
    }
    forall t | t in f ensures TaskKey(t) !in completed {
      var j :| 0 <= j < |f| && f[j] == t;
      assert Ready(f[j], completed + KeySet(f[..j]));
    }
  }

  /** Top-level exclusion: a seeded task is never put in a batch. */
  lemma SeededTasksNeverScheduled(tasks: seq<Task>, topLevelTasks: seq<Task>)
    ensures forall t :: t in topLevelTasks ==> t !in Flatten(Rounds(tasks, KeySet(topLevelTasks)))
  {
    var f := Flatten(Rounds(tasks, KeySet(topLevelTasks)));
    RoundsAtMostOnce(tasks, KeySet(topLevelTasks));
    forall t | t in topLevelTasks ensures t !in f {
      assert TaskKey(t) in KeySet(topLevelTasks);
      assert forall u :: u in f ==> TaskKey(u) !in KeySet(topLevelTasks);
    }
  }

  /** Every admitted task comes from the list. */
  lemma {:induction false} RoundsDrawFromTasks(tasks: seq<Task>, completed: set<TaskHashKey>)
    ensures forall t :: t in Flatten(Rounds(tasks, completed)) ==> t in tasks
    decreases |KeySet(tasks) - completed|
  {
    var scan := Scan(tasks, completed);
    if scan.batch != [] {
      ScanProgress(tasks, completed);
      RoundsUnfold(tasks, completed);
      RoundsDrawFromTasks(tasks, scan.completed);
      ScanDrawsFromTasks(tasks, completed);
    }
  }

  /** The loop stops at a fixpoint: once all batches have run, no task is ready. */
  lemma {:induction false} RoundsReachFixpoint(tasks: seq<Task>, completed: set<TaskHashKey>)
    ensures forall t :: t in tasks ==> !Ready(t, completed + KeySet(Flatten(Rounds(tasks, completed))))
    decreases |KeySet(tasks) - completed|
  {
    var scan := Scan(tasks, completed);
    if scan.batch == [] {
      ScanEmptyIff(tasks, completed);
      assert KeySet(Flatten(Rounds(tasks, completed))) == {};
      assert completed + {} == completed;
    } else {
      ScanProgress(tasks, completed);
      RoundsUnfold(tasks, completed);
      RoundsReachFixpoint(tasks, scan.completed);
      KeySetConcat(scan.batch, Flatten(Rounds(tasks, scan.completed)));
    }
  }

  /** The dependencies of every listed task are listed too, and a rank that drops along
      every dependency edge stays below `depth` (the task graph is acyclic of depth `depth`). */
  predicate RankedClosed(tasks: seq<Task>, rank: Task -> nat, depth: nat)
  {
    && (forall t, d :: t in tasks && d in t.dependedTaskList ==> d in tasks && rank(d) < rank(t))
    && (forall t :: t in tasks ==> rank(t) < depth)
  }

  lemma {:induction false} FixpointCoversRanks(tasks: seq<Task>, done: set<TaskHashKey>,
                                               rank: Task -> nat, depth: nat, n: nat)
    requires RankedClosed(tasks, rank, depth)
    requires forall t :: t in tasks ==> !Ready(t, done)
    ensures forall t :: t in tasks && rank(t) <= n ==> TaskKey(t) in done
    decreases n
  {
    if n > 0 {
      FixpointCoversRanks(tasks, done, rank, depth, n - 1);
    }
    forall t | t in tasks && rank(t) <= n ensures TaskKey(t) in done {
      forall d | d in t.dependedTaskList ensures TaskKey(d) in done {
        assert d in tasks && rank(d) < rank(t);
      }
      assert AllDependenciesIn(t, done);
    }
  }

  /** Completeness: on an acyclic graph closed under dependencies, every listed task is
      completed when the loop stops. */
  lemma RoundsCompleteEveryTask(tasks: seq<Task>, completed: set<TaskHashKey>, rank: Task -> nat, depth: nat)
    requires RankedClosed(tasks, rank, depth)
    ensures KeySet(tasks) <= completed + KeySet(Flatten(Rounds(tasks, completed)))
  {
    var done := completed + KeySet(Flatten(Rounds(tasks, completed)));
    RoundsReachFixpoint(tasks, completed);
    FixpointCoversRanks(tasks, done, rank, depth, depth);
  }

  lemma {:induction false} DistinctKeysCountOnce(f: seq<Task>, t: Task)
    requires forall i, j :: 0 <= i < j < |f| ==> TaskKey(f[i]) != TaskKey(f[j])
    requires t in f
    ensures multiset(f)[t] == 1
    decreases |f|
  {
    if f[0] == t {
      assert forall k :: 0 <= k < |f[1..]| ==> f[1..][k] == f[k + 1];
      assert t !in f[1..];
    } else {
      DistinctKeysCountOnce(f[1..], t);
    }
    assert f == [f[0]] + f[1..];
  }

  /** Exactly once: on an acyclic graph closed under dependencies whose keys are unique,
      every task not seeded as completed runs in exactly one batch, and no seeded task runs. */
  lemma RoundsRunEachTaskOnce(tasks: seq<Task>, completed: set<TaskHashKey>, rank: Task -> nat, depth: nat)
    requires RankedClosed(tasks, rank, depth)
    requires forall t1, t2 :: t1 in tasks && t2 in tasks && TaskKey(t1) == TaskKey(t2) ==> t1 == t2
    ensures forall t :: t in tasks && TaskKey(t) !in completed ==>
              multiset(Flatten(Rounds(tasks, completed)))[t] == 1
    ensures forall t :: t in tasks && TaskKey(t) in completed ==>
              t !in Flatten(Rounds(tasks, completed))
  {
    var f := Flatten(Rounds(tasks, completed));
    RoundsCompleteEveryTask(tasks, completed, rank, depth);
    RoundsAtMostOnce(tasks, completed);
    RoundsDrawFromTasks(tasks, completed);
    forall t | t in tasks && TaskKey(t) !in completed ensures multiset(f)[t] == 1 {
      assert TaskKey(t) in KeySet(tasks);
      var u :| u in f && TaskKey(u) == TaskKey(t);
      assert u == t;
      DistinctKeysCountOnce(f, t);
    }
  }

  /** If every task of rank below `k` is completed, a scan completes every task of rank `k`. */
  lemma NextLayerCompleted(tasks: seq<Task>, completed: set<TaskHashKey>, rank: Task -> nat, depth: nat, k: nat)
    requires RankedClosed(tasks, rank, depth)
    requires forall t :: t in tasks && rank(t) < k ==> TaskKey(t) in completed
    ensures forall t :: t in tasks && rank(t) < k + 1 ==> TaskKey(t) in Scan(tasks, completed).completed
  {
    ScanCompletesReady(tasks, completed);
    forall t | t in tasks && rank(t) < k + 1 ensures TaskKey(t) in Scan(tasks, completed).completed {
      forall d | d in t.dependedTaskList ensures TaskKey(d) in completed {
        assert d in tasks && rank(d) < rank(t);
      }
      assert AllDependenciesIn(t, completed);
    }
  }

  /** A non-empty scan admits a task that was not completed, so its rank is at least `k`. */
  lemma ScanAdmitsUncompleted(tasks: seq<Task>, completed: set<TaskHashKey>)
    requires Scan(tasks, completed).batch != []
    ensures exists t :: t in tasks && TaskKey(t) !in completed
  {
    var b := Scan(tasks, completed).batch;
    ScanAdmitsOnlyReady(tasks, completed);
    ScanDrawsFromTasks(tasks, completed);
    assert b[..0] == [];
    assert KeySet(b[..0]) == {};
    assert Ready(b[0], completed);
    assert b[0] in tasks;
  }

  /** Termination bound: with all tasks of rank below `k` already completed, at most
      `depth - k` non-empty batches follow. */
  lemma {:induction false} RoundsWithinDepthFrom(tasks: seq<Task>, completed: set<TaskHashKey>,
                                                 rank: Task -> nat, depth: nat, k: nat)
    requires RankedClosed(tasks, rank, depth)
    requires k <= depth
    requires forall t :: t in tasks && rank(t) < k ==> TaskKey(t) in completed
    ensures |Rounds(tasks, completed)| <= depth - k
    decreases depth - k
  {
    var scan := Scan(tasks, completed);
    if scan.batch != [] {
      RoundsUnfold(tasks, completed);
      ScanAdmitsUncompleted(tasks, completed);
      var first :| first in tasks && TaskKey(first) !in completed;
      assert k <= rank(first) < depth;
      NextLayerCompleted(tasks, completed, rank, depth, k);
      RoundsWithinDepthFrom(tasks, scan.completed, rank, depth, k + 1);
    }
  }

  /** The loop runs at most as many non-empty batches as the graph is deep. */
  lemma RoundsWithinDepth(tasks: seq<Task>, completed: set<TaskHashKey>, rank: Task -> nat, depth: nat)
    requires RankedClosed(tasks, rank, depth)
    ensures |Rounds(tasks, completed)| <= depth
  {
    RoundsWithinDepthFrom(tasks, completed, rank, depth, 0);
  }

  /** The list holds no task before a task that depends on it (keys compared). */
  predicate DependentsFirst(tasks: seq<Task>)
  {
    forall i, j, d :: 0 <= i < j < |tasks| && d in tasks[j].dependedTaskList ==> TaskKey(d) != TaskKey(tasks[i])
  }

  /** With dependents listed before their dependencies the round barrier is strict: every
      task of a batch had all its dependencies completed before the scan began. */
  lemma {:induction false} ScanIsBarrierWhenDependentsFirst(tasks: seq<Task>, completed: set<TaskHashKey>)
    requires DependentsFirst(tasks)
    ensures forall t :: t in Scan(tasks, completed).batch ==> AllDependenciesIn(t, completed)
    decreases |tasks|
  {
    if tasks != [] {
      var t := tasks[0];
      var rest := tasks[1..];
      assert DependentsFirst(rest) by {
        forall i, j, d | 0 <= i < j < |rest| && d in rest[j].dependedTaskList
          ensures TaskKey(d) != TaskKey(rest[i])
        {
          assert rest[i] == tasks[i + 1] && rest[j] == tasks[j + 1];
        }
      }
      if Ready(t, completed) {
        var c1 := completed + {TaskKey(t)};
        ScanIsBarrierWhenDependentsFirst(rest, c1);
        ScanDrawsFromTasks(rest, c1);
        forall u | u in Scan(rest, c1).batch ensures AllDependenciesIn(u, completed) {
          var j :| 0 <= j < |rest| && rest[j] == u;
          assert tasks[j + 1] == u;
          forall d | d in u.dependedTaskList ensures TaskKey(d) in completed {
            assert TaskKey(d) != TaskKey(tasks[0]);
          }
        }
      } else {
        ScanIsBarrierWhenDependentsFirst(rest, completed);
      }
    }
  }

  /** No strict barrier: a task whose dependencies are a task admitted earlier in the same
      scan, or were completed before it, is admitted into the same batch, unless it was
      itself completed on the way. */
  lemma DependentJoinsSameBatch(tasks: seq<Task>, completed: set<TaskHashKey>, i: int, j: int)
    requires 0 <= i < j < |tasks|
    requires Ready(tasks[i], Scan(tasks[..i], completed).completed)
    requires AllDependenciesIn(tasks[j], completed + {TaskKey(tasks[i])})
    requires TaskKey(tasks[j]) !in Scan(tasks[..j], completed).completed
    ensures tasks[i] in Scan(tasks, completed).batch
    ensures tasks[j] in Scan(tasks, completed).batch
  {
    ReadyWhenReachedIsAdmitted(tasks, completed, i);
    assert tasks[..i + 1] == tasks[..i] + [tasks[i]];
    ScanSnoc(tasks[..i], tasks[i], completed);
    ScanPrefixGrows(tasks, completed, 0, i + 1);
    ScanPrefixGrows(tasks, completed, i + 1, j);
    assert tasks[..0] == [];
    ReadyWhenReachedIsAdmitted(tasks, completed, j);
  }
}
