/** Planning of queries that involve citus local tables: whether the citus local planner
    is used, which such queries are refused, and the single task the plan consists of.
    Catalog lookups, the coordinator checks and the query-tree walkers are outside the
    planner; their answers are parameters. */
module CitusLocalPlanner {
  import opened TaskModel

  /** The facts about the range tables of a query that the planner reads. */
  datatype RTEListProperties = RTEListProperties(
    hasCitusTable: bool,
    hasCitusLocalTable: bool,
    hasReferenceTable: bool,
    hasDistributedTable: bool)

  /** A citus local table, a reference table and a distributed table are all citus tables. */
  predicate ConsistentProperties(props: RTEListProperties)
  {
    props.hasCitusLocalTable || props.hasReferenceTable || props.hasDistributedTable ==> props.hasCitusTable
  }

  datatype CmdType = CmdUnknown | CmdSelect | CmdUpdate | CmdInsert | CmdDelete | CmdUtility | CmdNothing

  /** IsModifyCommand: INSERT, UPDATE or DELETE. */
  predicate IsModifyCommand(commandType: CmdType)
  {
    commandType == CmdInsert || commandType == CmdUpdate || commandType == CmdDelete
  }

  predicate IsUpdateOrDelete(commandType: CmdType)
  {
    commandType == CmdUpdate || commandType == CmdDelete
  }

  /** ShouldUseCitusLocalPlanner, with CoordinatorAddedAsWorkerNode() as a parameter. */
  function ShouldUseCitusLocalPlanner(props: RTEListProperties, coordinatorAddedAsWorkerNode: bool): (r: bool)
    ensures r ==> props.hasCitusTable
  {
    if !props.hasCitusTable then false
    else if props.hasCitusLocalTable then true
    else if props.hasReferenceTable && coordinatorAddedAsWorkerNode then true
    else false
  }

  /** Without citus tables the citus local planner is never used. */
  lemma NoCitusTableNoLocalPlanner(props: RTEListProperties, coordinatorAddedAsWorkerNode: bool)
    requires !props.hasCitusTable
    ensures !ShouldUseCitusLocalPlanner(props, coordinatorAddedAsWorkerNode)
  {
  }

  /** With citus tables, the citus local planner is used exactly for a citus local table,
      or for a reference table once the coordinator is a worker node. */
  lemma LocalPlannerChoice(props: RTEListProperties, coordinatorAddedAsWorkerNode: bool)
    requires props.hasCitusTable
    ensures ShouldUseCitusLocalPlanner(props, coordinatorAddedAsWorkerNode)
            <==> props.hasCitusLocalTable || (props.hasReferenceTable && coordinatorAddedAsWorkerNode)
  {
  }

  /** The five errors of ErrorIfUnsupportedQueryWithCitusLocalTables. */
  datatype PlannerError =
    | OnlyViaCoordinator
    | UpdateDeleteWithReferenceOrDistributed
    | InsertSelectIntoCitusLocalTable
    | SelectWithDistributed
    | NonSimpleSelectWithReference

  /** What the validator asks about the query besides its range tables: the command, whether
      it is INSERT .. SELECT (CheckInsertSelectQuery), whether its result relation is a
      citus local table, and whether a node of it is not a simple select
      (FindNodeCheck with QueryIsNotSimpleSelect). */
  datatype QueryFacts = QueryFacts(
    commandType: CmdType,
    isInsertSelect: bool,
    resultRelationIsCitusLocalTable: bool,
    queryIsNotSimpleSelect: bool)

  /** ErrorIfUnsupportedQueryWithCitusLocalTables, with IsCoordinator() and
      CoordinatorAddedAsWorkerNode() as parameters: the error raised, if any. */
  function ErrorIfUnsupportedQueryWithCitusLocalTables(query: QueryFacts, props: RTEListProperties,
                                                      isCoordinator: bool, coordinatorAddedAsWorkerNode: bool)
    : (r: Option<PlannerError>)
    ensures !props.hasCitusLocalTable ==> r == None
    ensures r == Some(OnlyViaCoordinator) <==> props.hasCitusLocalTable && !(isCoordinator && coordinatorAddedAsWorkerNode)
  {
    if !props.hasCitusLocalTable then None
    else
      var hasNoDistKeyTableCoordinatorPlacements := isCoordinator && coordinatorAddedAsWorkerNode;
      if !hasNoDistKeyTableCoordinatorPlacements then Some(OnlyViaCoordinator)
      else if IsModifyCommand(query.commandType) then
        if !props.hasReferenceTable && !props.hasDistributedTable then None
        else if IsUpdateOrDelete(query.commandType) then Some(UpdateDeleteWithReferenceOrDistributed)
        else if query.isInsertSelect && query.resultRelationIsCitusLocalTable then Some(InsertSelectIntoCitusLocalTable)
        else None
      else if props.hasDistributedTable then Some(SelectWithDistributed)
      else if props.hasReferenceTable && query.queryIsNotSimpleSelect then Some(NonSimpleSelectWithReference)
      else None
  }

  /** The unsupported queries, case by case as the validator's comment lists them: the
      coordinator conditions, then UPDATE/DELETE, INSERT .. SELECT and SELECT each with
      the other table kinds. Every command that does not modify is checked as a SELECT. */
  predicate Unsupported(query: QueryFacts, props: RTEListProperties, isCoordinator: bool, coordinatorAddedAsWorkerNode: bool)
  {
    var otherCitusTables := props.hasReferenceTable || props.hasDistributedTable;
    && props.hasCitusLocalTable
    && (|| !isCoordinator
        || !coordinatorAddedAsWorkerNode
        || (IsUpdateOrDelete(query.commandType) && otherCitusTables)
        || (query.commandType == CmdInsert && query.isInsertSelect && query.resultRelationIsCitusLocalTable && otherCitusTables)
        || (!IsModifyCommand(query.commandType) && props.hasDistributedTable)
        || (!IsModifyCommand(query.commandType) && props.hasReferenceTable && query.queryIsNotSimpleSelect))
  }

  /** The validator errors exactly on the unsupported queries. */
  lemma ErrorsExactlyOnUnsupported(query: QueryFacts, props: RTEListProperties,
                                   isCoordinator: bool, coordinatorAddedAsWorkerNode: bool)
    ensures ErrorIfUnsupportedQueryWithCitusLocalTables(query, props, isCoordinator, coordinatorAddedAsWorkerNode).Some?
            <==> Unsupported(query, props, isCoordinator, coordinatorAddedAsWorkerNode)
  {
  }

  /** On the coordinator added as a worker, a modification that reads no reference or
      distributed table is accepted, whatever its other facts. */
  lemma PlainModifyAccepted(query: QueryFacts, props: RTEListProperties)
    requires IsModifyCommand(query.commandType)
    requires !props.hasReferenceTable && !props.hasDistributedTable
    ensures ErrorIfUnsupportedQueryWithCitusLocalTables(query, props, true, true) == None
  {
  }

  /** With a citus local table on the coordinator: UPDATE or DELETE with a reference or
      distributed table, and INSERT .. SELECT into a citus local table from one, are refused
      with their own errors; an INSERT .. SELECT into another table is accepted. */
  lemma ModifyErrors(query: QueryFacts, props: RTEListProperties)
    requires props.hasCitusLocalTable && (props.hasReferenceTable || props.hasDistributedTable)
    ensures IsUpdateOrDelete(query.commandType) ==>
              ErrorIfUnsupportedQueryWithCitusLocalTables(query, props, true, true) == Some(UpdateDeleteWithReferenceOrDistributed)
    ensures query.commandType == CmdInsert ==>
              ErrorIfUnsupportedQueryWithCitusLocalTables(query, props, true, true)
              == (if query.isInsertSelect && query.resultRelationIsCitusLocalTable
                  then Some(InsertSelectIntoCitusLocalTable) else None)
  {
  }

  /** With a citus local table on the coordinator, a SELECT is refused with a distributed
      table, and otherwise with a reference table when it is not a simple select. */
  lemma SelectErrors(query: QueryFacts, props: RTEListProperties)
    requires props.hasCitusLocalTable && query.commandType == CmdSelect
    ensures ErrorIfUnsupportedQueryWithCitusLocalTables(query, props, true, true)
            == if props.hasDistributedTable then Some(SelectWithDistributed)
               else if props.hasReferenceTable && query.queryIsNotSimpleSelect then Some(NonSimpleSelectWithReference)
               else None
  {
  }

  /** A query with a citus local table that the validator accepts goes to the citus local
      planner. */
  lemma AcceptedLocalQueryUsesLocalPlanner(query: QueryFacts, props: RTEListProperties,
                                           isCoordinator: bool, coordinatorAddedAsWorkerNode: bool)
    requires ConsistentProperties(props) && props.hasCitusLocalTable
    requires ErrorIfUnsupportedQueryWithCitusLocalTables(query, props, isCoordinator, coordinatorAddedAsWorkerNode) == None
    ensures isCoordinator && coordinatorAddedAsWorkerNode
    ensures ShouldUseCitusLocalPlanner(props, coordinatorAddedAsWorkerNode)
  {
  }

  /** A reference or citus local table of the query: its single shard and the active
      placements of that shard (cacheEntry->sortedShardIntervalArray[0] and
      ActiveShardPlacementList). */
  datatype LocalRelation = LocalRelation(relid: uint32, shardId: uint64, activePlacements: seq<ShardPlacement>)

  /** The active placements of all relations, relation by relation. */
  function CollectedPlacements(relations: seq<LocalRelation>): seq<ShardPlacement>
  {
    if relations == [] then []
    else CollectedPlacements(relations[..|relations| - 1]) + relations[|relations| - 1].activePlacements
  }

  predicate SortedByShardId(placements: seq<ShardPlacement>)
  {
    forall i, j :: 0 <= i < j < |placements| ==> placements[i].shardId <= placements[j].shardId
  }

  /** SortList with CompareShardPlacementsByShardId: the placements ordered by shard id. The
      order among placements of one shard is not promised. */
  method SortPlacementsByShardId(placements: seq<ShardPlacement>) returns (sorted: seq<ShardPlacement>)
    ensures SortedByShardId(sorted)
    ensures multiset(sorted) == multiset(placements)
  {
    sorted := [];
    var i := 0;
    while i < |placements|
      invariant 0 <= i <= |placements|
      invariant SortedByShardId(sorted)
      invariant multiset(sorted) == multiset(placements[..i])
    {
      var placement := placements[i];
      var j := InsertionPoint(sorted, placement);
      InsertKeepsSorted(sorted, j, placement);
      InsertAddsOne(sorted, j, placement);
      assert placements[..i + 1] == placements[..i] + [placement];
      sorted := sorted[..j] + [placement] + sorted[j..];
      i := i + 1;
    }
    assert placements[..i] == placements;
  }

  /** The position after the placements whose shard id is at most the new one's. */
  method InsertionPoint(sorted: seq<ShardPlacement>, placement: ShardPlacement) returns (j: nat)
    ensures j <= |sorted|
    ensures forall k :: 0 <= k < j ==> sorted[k].shardId <= placement.shardId
    ensures j < |sorted| ==> placement.shardId < sorted[j].shardId
  {
    j := 0;
    while j < |sorted| && sorted[j].shardId <= placement.shardId
      invariant 0 <= j <= |sorted|
      invariant forall k :: 0 <= k < j ==> sorted[k].shardId <= placement.shardId
    {
      j := j + 1;
    }
  }

  lemma InsertAddsOne(sorted: seq<ShardPlacement>, j: nat, placement: ShardPlacement)
    requires j <= |sorted|
    ensures multiset(sorted[..j] + [placement] + sorted[j..]) == multiset(sorted) + multiset{placement}
  {
    assert sorted == sorted[..j] + sorted[j..];
  }

  /** Inserting after every smaller-or-equal and before every larger shard id keeps the
      order. */
  lemma InsertKeepsSorted(sorted: seq<ShardPlacement>, j: nat, placement: ShardPlacement)
    requires SortedByShardId(sorted) && j <= |sorted|
    requires forall k :: 0 <= k < j ==> sorted[k].shardId <= placement.shardId
    requires j < |sorted| ==> placement.shardId < sorted[j].shardId
    ensures SortedByShardId(sorted[..j] + [placement] + sorted[j..])
  {
    var s := sorted[..j] + [placement] + sorted[j..];
    forall a, b | 0 <= a < b < |s| ensures s[a].shardId <= s[b].shardId {
      if b == j {
        assert s[a] == sorted[a];
      } else if a == j {
        assert s[b] == sorted[b - 1];
      } else {
        assert s[a] == (if a < j then sorted[a] else sorted[a - 1]);
        assert s[b] == (if b < j then sorted[b] else sorted[b - 1]);
      }
    }
  }

  /** The task of a citus local plan. anchorDistributedTableId is InvalidOid (0) unless set. */
  datatype LocalPlanTask = LocalPlanTask(
    taskType: TaskType,
    anchorShardId: uint64,
    anchorDistributedTableId: uint32,
    taskPlacementList: seq<ShardPlacement>)

  const InvalidOid: uint32 := 0

  /** CitusLocalPlanTaskList: one task, over every placement of the relations sorted by
      shard id, anchored at the lowest shard id; a SELECT task for a SELECT and a modify
      task for a modification, the result relation recorded only for an INSERT. The
      source reads the first sorted placement and asserts the command kind, so both are
      demanded of the caller. */
  method CitusLocalPlanTaskList(commandType: CmdType, resultRelation: uint32, localRelationRTEList: seq<LocalRelation>)
    returns (taskList: seq<LocalPlanTask>)
    requires CollectedPlacements(localRelationRTEList) != []
    requires commandType == CmdSelect || IsModifyCommand(commandType)
    ensures |taskList| == 1
    ensures taskList[0].taskType == (if commandType == CmdSelect then SelectTask else ModifyTask)
    ensures taskList[0].anchorDistributedTableId == (if commandType == CmdInsert then resultRelation else InvalidOid)
    ensures SortedByShardId(taskList[0].taskPlacementList)
    ensures multiset(taskList[0].taskPlacementList) == multiset(CollectedPlacements(localRelationRTEList))
    ensures exists p :: p in CollectedPlacements(localRelationRTEList) && p.shardId == taskList[0].anchorShardId
    ensures forall p :: p in CollectedPlacements(localRelationRTEList) ==> taskList[0].anchorShardId <= p.shardId
  {
    var taskPlacementList: seq<ShardPlacement> := [];
    var i := 0;
    while i < |localRelationRTEList|
      invariant 0 <= i <= |localRelationRTEList|
      invariant taskPlacementList == CollectedPlacements(localRelationRTEList[..i])
    {
      var rangeTableEntry := localRelationRTEList[i];
      assert localRelationRTEList[..i + 1][..i] == localRelationRTEList[..i];
      taskPlacementList := taskPlacementList + rangeTableEntry.activePlacements;
      i := i + 1;
    }
    assert localRelationRTEList[..i] == localRelationRTEList;
    ghost var collected := taskPlacementList;
    taskPlacementList := SortPlacementsByShardId(taskPlacementList);
    assert |taskPlacementList| == |collected| by {
      assert |multiset(taskPlacementList)| == |multiset(collected)|;
    }
    var anchorShardId := taskPlacementList[0].shardId;
    SortedHeadIsMinimum(taskPlacementList, collected);

    var taskType := if commandType == CmdSelect then SelectTask else ModifyTask;
    var anchorDistributedTableId := InvalidOid;
    if commandType == CmdInsert {
      anchorDistributedTableId := resultRelation;
    }
    var task := LocalPlanTask(taskType, anchorShardId, anchorDistributedTableId, taskPlacementList);
    taskList := [task];
  }

  /** The first of a sorted permutation has the lowest shard id, and it is one of them. */
  lemma SortedHeadIsMinimum(sorted: seq<ShardPlacement>, placements: seq<ShardPlacement>)
    requires sorted != [] && SortedByShardId(sorted) && multiset(sorted) == multiset(placements)
    ensures sorted[0] in placements
    ensures forall p :: p in placements ==> sorted[0].shardId <= p.shardId
  {
    assert sorted[0] in multiset(sorted);
    forall p | p in placements ensures sorted[0].shardId <= p.shardId {
      assert p in multiset(sorted);
      var k :| 0 <= k < |sorted| && sorted[k] == p;
      if k > 0 {
        assert sorted[0].shardId <= sorted[k].shardId;
      }
    }
  }
}
