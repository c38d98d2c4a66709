/** Batched per-job command text: one templated statement per job id, concatenated in
    list order (GenerateCommand and its create-schema and delete-jobdir instances). */
module JobCommands {
  import opened TaskModel
  import opened JobIds

  /** The template filled with every job id in turn. */
  function ExpandTemplate(jobIds: seq<uint64>, template: JobTemplate): SqlText
  {
    seq(|jobIds|, i requires 0 <= i < |jobIds| => JobCommand(template, jobIds[i]))
  }

  /** GenerateCommand: exactly one sub-command per job id, in list order; no job ids
      give the empty string. */
  method GenerateCommand(jobIds: seq<uint64>, templateCommand: JobTemplate) returns (command: SqlText)
    ensures |command| == |jobIds|
    ensures forall i :: 0 <= i < |jobIds| ==> command[i] == JobCommand(templateCommand, jobIds[i])
    ensures command == ExpandTemplate(jobIds, templateCommand)
  {
    command := [];
    var i := 0;
    while i < |jobIds|
      invariant 0 <= i <= |jobIds|
      invariant |command| == i
      invariant forall k :: 0 <= k < i ==> command[k] == JobCommand(templateCommand, jobIds[k])
    {
      command := command + [JobCommand(templateCommand, jobIds[i])];
      i := i + 1;
    }
  }

  /** GenerateCreateSchemasCommand: the create-schema template for every job id. */
  method GenerateCreateSchemasCommand(jobIds: seq<uint64>) returns (command: SqlText)
    ensures command == ExpandTemplate(jobIds, WorkerCreateSchemaQuery)
  {
    command := GenerateCommand(jobIds, WorkerCreateSchemaQuery);
  }

  /** GenerateDeleteJobsCommand: the delete-jobdir template for every job id. */
  method GenerateDeleteJobsCommand(jobIds: seq<uint64>) returns (command: SqlText)
    ensures command == ExpandTemplate(jobIds, WorkerDeleteJobDirQuery)
  {
    command := GenerateCommand(jobIds, WorkerDeleteJobDirQuery);
  }

  /** The job id a statement is about, for statements made from a job template. */
  function JobIdsIn(command: SqlText): (r: seq<uint64>)
    requires forall i :: 0 <= i < |command| ==> command[i].JobCommand?
    ensures |r| == |command|
  {
    seq(|command|, i requires 0 <= i < |command| => command[i].jobId)
  }

  /** The job ids can be read back from the expanded command: nothing is lost or reordered. */
  lemma ExpandTemplateRoundTrip(jobIds: seq<uint64>, template: JobTemplate)
    ensures var command := ExpandTemplate(jobIds, template);
            (forall i :: 0 <= i < |command| ==> command[i].JobCommand? && command[i].template == template)
            && JobIdsIn(command) == jobIds
  {
  }

  /** With distinct job ids, every job's statement occurs exactly once in the batch, and the
      batch holds nothing else. */
  lemma {:induction false} OneStatementPerJob(jobIds: seq<uint64>, template: JobTemplate)
    requires NoDuplicates(jobIds)
    ensures forall j :: j in jobIds ==> multiset(ExpandTemplate(jobIds, template))[JobCommand(template, j)] == 1
    ensures forall s :: s in ExpandTemplate(jobIds, template) ==> s.JobCommand? && s.template == template && s.jobId in jobIds
    decreases |jobIds|
  {
    if jobIds != [] {
      var rest := jobIds[1..];
      var head := JobCommand(template, jobIds[0]);
      var tail := ExpandTemplate(rest, template);
      assert NoDuplicates(rest);
      OneStatementPerJob(rest, template);
      assert ExpandTemplate(jobIds, template) == [head] + tail;
      assert multiset(ExpandTemplate(jobIds, template)) == multiset([head]) + multiset(tail);
      assert jobIds[0] !in rest;
      assert head !in tail;
    }
  }
}
