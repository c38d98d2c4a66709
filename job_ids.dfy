/** The distinct job ids of the merge tasks (CreateJobIds and DoesJobIDExist, which
    both executor files define identically). */
module JobIds {
  import opened TaskModel

  predicate NoDuplicates(s: seq<uint64>)
  {
    forall i, j :: 0 <= i < j < |s| ==> s[i] != s[j]
  }

  /** The job id of every task, in list order. */
  function JobIdsOf(tasks: seq<Task>): (r: seq<uint64>)
    ensures |r| == |tasks|
    ensures forall i :: 0 <= i < |tasks| ==> r[i] == tasks[i].jobId
  {
    if tasks == [] then [] else JobIdsOf(tasks[..|tasks| - 1]) + [tasks[|tasks| - 1].jobId]
  }

  /** Reference definition: the first occurrence of every value of `s`, in order. */
  function Dedup(s: seq<uint64>): (r: seq<uint64>)
    ensures NoDuplicates(r)
    ensures forall x :: x in r <==> x in s
    ensures |r| <= |s|
  {
    if s == [] then []
    else
      var front := Dedup(s[..|s| - 1]);
      var last := s[|s| - 1];
      assert s == s[..|s| - 1] + [last];
      if last in front then front else front + [last]
  }

  /** The index of the first occurrence of `x` in `s`. */
  function FirstIndex(s: seq<uint64>, x: uint64): (i: nat)
    requires x in s
    ensures i < |s| && s[i] == x && x !in s[..i]
  {
    if s[0] == x then 0 else 1 + FirstIndex(s[1..], x)
  }

  lemma FirstIndexSnoc(s: seq<uint64>, last: uint64, x: uint64)
    requires x in s
    ensures FirstIndex(s + [last], x) == FirstIndex(s, x)
  {
    var a := FirstIndex(s + [last], x);
    var b := FirstIndex(s, x);
    assert forall j :: 0 <= j < b ==> s[j] != x by {
      forall j | 0 <= j < b ensures s[j] != x { assert s[..b][j] == s[j]; }
    }
    assert forall j :: 0 <= j < a ==> (s + [last])[j] != x by {
      forall j | 0 <= j < a ensures (s + [last])[j] != x { assert (s + [last])[..a][j] == (s + [last])[j]; }
    }
    assert (s + [last])[b] == s[b];
    assert a < |s| ==> s[a] == (s + [last])[a];
  }

  /** Dedup lists the values of `s` in the order in which they first occur there. */
  lemma {:induction false} DedupFirstOccurrenceOrder(s: seq<uint64>)
    ensures forall i, j :: 0 <= i < j < |Dedup(s)| ==>
              FirstIndex(s, Dedup(s)[i]) < FirstIndex(s, Dedup(s)[j])
    decreases |s|
  {
    if s != [] {
      var front := s[..|s| - 1];
      var last := s[|s| - 1];
      assert s == front + [last];
      DedupFirstOccurrenceOrder(front);
      var d := Dedup(front);
      forall x | x in d ensures FirstIndex(s, x) == FirstIndex(front, x) {
        FirstIndexSnoc(front, last, x);
      }
      if last !in d {
        assert last !in front;
        assert FirstIndex(s, last) == |front| by {
          assert forall j :: 0 <= j < |front| ==> s[j] == front[j] && s[j] != last;
        }
      }
    }
  }

  /** A list without repetitions is its own Dedup. */
  lemma {:induction false} DedupOfDistinct(s: seq<uint64>)
    requires NoDuplicates(s)
    ensures Dedup(s) == s
    decreases |s|
  {
    if s != [] {
      var front := s[..|s| - 1];
      assert NoDuplicates(front);
      DedupOfDistinct(front);
      assert s == front + [s[|s| - 1]];
    }
  }

  /** Merge tasks from jobs 3, 3, 7, 3, 9. */
  lemma DedupExample()
    ensures Dedup([3, 3, 7, 3, 9]) == [3, 7, 9]
  {
    assert [3, 3, 7, 3, 9][..4] == [3, 3, 7, 3];
    assert [3, 3, 7, 3][..3] == [3, 3, 7];
    assert [3, 3, 7][..2] == [3, 3];
    assert [3, 3][..1] == [3];
    assert [3][..0] == [];
  }

  /** DoesJobIDExist: linear membership test. */
  method DoesJobIDExist(jobIds: seq<uint64>, jobId: uint64) returns (found: bool)
    ensures found <==> jobId in jobIds
  {
    var i := 0;
    while i < |jobIds|
      invariant 0 <= i <= |jobIds|
      invariant jobId !in jobIds[..i]
    {
      if jobIds[i] == jobId {
        return true;
      }
      i := i + 1;
    }
    assert jobIds[..i] == jobIds;
    return false;
  }

  /** CreateJobIds: the distinct job ids of the merge tasks, in first-occurrence order. */
  method CreateJobIds(mergeTasks: seq<Task>) returns (jobIds: seq<uint64>)
    ensures jobIds == Dedup(JobIdsOf(mergeTasks))
    ensures NoDuplicates(jobIds)
    ensures forall j :: j in jobIds <==> exists t :: t in mergeTasks && t.jobId == j
  {
    jobIds := [];
    var i := 0;
    while i < |mergeTasks|
      invariant 0 <= i <= |mergeTasks|
      invariant jobIds == Dedup(JobIdsOf(mergeTasks[..i]))
    {
      var task := mergeTasks[i];
      assert mergeTasks[..i + 1] == mergeTasks[..i] + [task];
      assert mergeTasks[..i + 1][..i] == mergeTasks[..i];
      var exists_ := DoesJobIDExist(jobIds, task.jobId);
      if !exists_ {
        jobIds := jobIds + [task.jobId];
      }
      i := i + 1;
    }
    assert mergeTasks[..i] == mergeTasks;
    forall j ensures j in jobIds <==> exists t :: t in mergeTasks && t.jobId == j {
      if j in jobIds {
        var k :| 0 <= k < |mergeTasks| && JobIdsOf(mergeTasks)[k] == j;
        assert mergeTasks[k] in mergeTasks;
      }
      if exists t :: t in mergeTasks && t.jobId == j {
        var t :| t in mergeTasks && t.jobId == j;
        var k :| 0 <= k < |mergeTasks| && mergeTasks[k] == t;
        assert JobIdsOf(mergeTasks)[k] == j;
      }
    }
  }
}
