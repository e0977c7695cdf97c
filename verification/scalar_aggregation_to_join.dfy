/** The rewrite of a lateral join whose subquery is a scalar aggregation into a
    plan without correlation: the outer input tagged with a unique id, LEFT
    joined on the correlated conjuncts to the decorrelated aggregation source
    (extended with a non-null marker column), aggregated again per outer row,
    and projected back to the lateral join's columns. Whenever decorrelation
    fails the lateral join is returned unchanged. */
module ScalarAggregationToJoin {
  import opened Seqs
  import opened Wrappers
  import opened Expressions
  import opened Plan
  import opened PlanSearch
  import opened ExtendProjection
  import opened Decorrelation

  /** What the rewrite takes from its surroundings: the two symbols the symbol
      allocator hands out (the boolean `non_null` marker and the bigint
      `unique` row id), and function resolution in the function registry. */
  datatype Environment = Environment(
    nonNull: Symbol,
    unique: Symbol,
    resolveFunction: (string, seq<TypeSignature>) -> Signature)

  const Count: string := "count"

  /** The type of the `non_null` marker. */
  const BooleanType: TypeSignature := TypeSignature("boolean")

  /** The assignments builder refuses to give one symbol two expressions. */
  datatype Fault = AssignmentConflict

  /** A rewritten plan together with the next unused node id. */
  datatype Rewrite = Rewrite(plan: PlanNode, nextId: nat)

  // ---------------------------------------------------------------------------
  // Building blocks of the replacement
  // ---------------------------------------------------------------------------

  /** The right side of the join: every output of the decorrelated node passed
      through, plus the marker `non_null := TRUE`, which is null exactly on the
      outer rows the LEFT join found no match for. */
  function NonNullProjection(node: PlanNode, nonNull: Symbol, id: PlanNodeId): (r: Option<PlanNode>)
    ensures r.Some? <==> nonNull !in OutputSymbols(node)
    ensures r.Some? ==>
      && r.value.ProjectNode? && r.value.id == id && r.value.source == node
      && Keys(r.value.assignments) == Dedup(OutputSymbols(node)) + [nonNull]
      && r.value.assignments[|r.value.assignments| - 1].expression == TrueLiteral
      && forall i :: 0 <= i < |r.value.assignments| - 1 ==>
           r.value.assignments[i].expression == SymbolReference(r.value.assignments[i].symbol)
  {
    var assignments := PutAll(Identity(OutputSymbols(node)), [Assignment(nonNull, TrueLiteral)]);
    MarkerAssignments(node, nonNull);
    if assignments.None? then
      None
    else
      Some(ProjectNode(id, node, assignments.value))
  }

  /** Putting the marker after the pass-through identities succeeds exactly
      when it is fresh, and then appends it. */
  lemma MarkerAssignments(node: PlanNode, nonNull: Symbol)
    ensures var identity := Identity(OutputSymbols(node));
      var assignments := PutAll(identity, [Assignment(nonNull, TrueLiteral)]);
      && (assignments.Some? <==> nonNull !in OutputSymbols(node))
      && (assignments.Some? ==> assignments.value == identity + [Assignment(nonNull, TrueLiteral)])
      && Keys(identity + [Assignment(nonNull, TrueLiteral)]) == Dedup(OutputSymbols(node)) + [nonNull]
  {
    MarkerFits(node, nonNull);
    if nonNull !in OutputSymbols(node) {
      PutAllFresh(Identity(OutputSymbols(node)), Assignment(nonNull, TrueLiteral));
    }
    MarkerKeys(node, nonNull);
  }

  lemma MarkerKeys(node: PlanNode, nonNull: Symbol)
    ensures Keys(Identity(OutputSymbols(node)) + [Assignment(nonNull, TrueLiteral)]) == Dedup(OutputSymbols(node)) + [nonNull]
  {
    var identity := Identity(OutputSymbols(node));
    assert Keys(identity + [Assignment(nonNull, TrueLiteral)]) == Keys(identity) + [nonNull];
  }

  /** The marker can join the pass-through assignments exactly when it is not
      already an output of the node. */
  lemma MarkerFits(node: PlanNode, nonNull: Symbol)
    ensures Consistent(Identity(OutputSymbols(node)) + [Assignment(nonNull, TrueLiteral)])
        <==> nonNull !in OutputSymbols(node)
    ensures nonNull !in OutputSymbols(node) <==> nonNull !in Keys(Identity(OutputSymbols(node)))
  {
    var identity := Identity(OutputSymbols(node));
    var marker := Assignment(nonNull, TrueLiteral);
    AssignmentsAreConsistent(identity);
    if nonNull in OutputSymbols(node) {
      assert nonNull in Keys(identity);
      var i :| 0 <= i < |identity| && Keys(identity)[i] == nonNull;
      assert identity[i] in identity + [marker] && marker in identity + [marker];
    } else {
      forall y | y in identity ensures y.symbol != nonNull {
        var i :| 0 <= i < |identity| && identity[i] == y;
        assert Keys(identity)[i] == y.symbol;
      }
    }
  }

  /** The outer input with a fresh unique-id column, LEFT joined without
      equi-criteria to `source` on `joinExpression`; it outputs every column
      of both sides, outer side first. */
  function LeftOuterJoin(input: PlanNode, source: PlanNode, joinExpression: Option<Expr>, unique: Symbol, id: PlanNodeId): (r: PlanNode)
    ensures r.JoinNode? && r.id == id + 1 && r.joinType == Left && r.criteria == []
    ensures r.left == AssignUniqueIdNode(id, input, unique) && r.right == source
    ensures OutputSymbols(r) == OutputSymbols(input) + [unique] + OutputSymbols(source)
    ensures r.filter == joinExpression
    ensures r.leftHashSymbol.None? && r.rightHashSymbol.None? && r.distributionType.None?
  {
    var inputWithUniqueColumns := AssignUniqueIdNode(id, input, unique);
    JoinNode(id + 1, Left, inputWithUniqueColumns, source, [],
             OutputSymbols(inputWithUniqueColumns) + OutputSymbols(source),
             joinExpression, None, None, None)
  }

  /** One aggregate as recomputed over the join: `count` now counts the marker,
      so that an outer row without a match counts zero rather than one. */
  function RebuiltAggregation(a: Aggregation, env: Environment): Aggregation
  {
    if a.callName == Count then
      Aggregation(Count, [SymbolReference(env.nonNull)], env.resolveFunction(Count, [BooleanType]), a.mask)
    else
      a
  }

  /** Every aggregate rebuilt, under the same output symbol and in the same order. */
  function RebuildAggregations(entries: Aggregations, env: Environment): (r: Aggregations)
    ensures AggregationSymbols(r) == AggregationSymbols(entries)
    ensures |r| == |entries|
    ensures forall i :: 0 <= i < |r| && entries[i].aggregation.callName == Count ==>
      && r[i].aggregation.callName == Count
      && r[i].aggregation.callArguments == [SymbolReference(env.nonNull)]
      && r[i].aggregation.signature == env.resolveFunction(Count, [BooleanType])
      && r[i].aggregation.mask == entries[i].aggregation.mask
    ensures forall i :: 0 <= i < |r| && entries[i].aggregation.callName != Count ==>
      r[i].aggregation == entries[i].aggregation
  {
    var r := seq(|entries|, i requires 0 <= i < |entries| =>
      AggregationEntry(entries[i].symbol, RebuiltAggregation(entries[i].aggregation, env)));
    assert AggregationSymbols(r) == AggregationSymbols(entries);
    r
  }

  /** The aggregation over the join: the same aggregates, grouped by every
      column of the id-tagged outer side, with the original step and hash
      symbol. */
  function CreateAggregationNode(scalarAggregation: PlanNode, leftOuterJoin: PlanNode, env: Environment, id: PlanNodeId): (r: Option<PlanNode>)
    requires scalarAggregation.AggregationNode? && leftOuterJoin.JoinNode?
    ensures r.Some?
    ensures r.value.AggregationNode? && r.value.id == id && r.value.source == leftOuterJoin
    ensures r.value.aggregations == RebuildAggregations(scalarAggregation.aggregations, env)
    ensures r.value.groupingSets == [OutputSymbols(leftOuterJoin.left)]
    ensures r.value.step == scalarAggregation.step && r.value.hashSymbol == scalarAggregation.hashSymbol
    ensures r.value.groupIdSymbol.None?
  {
    var groupBySymbols := OutputSymbols(leftOuterJoin.left);
    Some(AggregationNode(id, leftOuterJoin, RebuildAggregations(scalarAggregation.aggregations, env),
                         [groupBySymbols], scalarAggregation.step, scalarAggregation.hashSymbol, None))
  }

  /** The rebuilt aggregation produces the outer side's columns (once each),
      then the hash symbol if any, then exactly the original aggregate symbols. */
  lemma AggregationOutputs(scalarAggregation: PlanNode, leftOuterJoin: PlanNode, env: Environment, id: PlanNodeId)
    requires scalarAggregation.AggregationNode? && leftOuterJoin.JoinNode?
    ensures var a := CreateAggregationNode(scalarAggregation, leftOuterJoin, env, id).value;
      OutputSymbols(a) == Dedup(OutputSymbols(leftOuterJoin.left))
                          + (OptionalSymbol(scalarAggregation.hashSymbol) + AggregationSymbols(scalarAggregation.aggregations))
  {
    var groupBySymbols := OutputSymbols(leftOuterJoin.left);
    assert Flatten([groupBySymbols]) == groupBySymbols + Flatten([]);
    assert groupBySymbols + [] == groupBySymbols;
    var hash, symbols := OptionalSymbol(scalarAggregation.hashSymbol), AggregationSymbols(scalarAggregation.aggregations);
    assert Dedup(groupBySymbols) + hash + symbols == Dedup(groupBySymbols) + (hash + symbols);
  }

  /** The aggregation outputs the lateral join also outputs, in the
      aggregation's order. */
  function TruncatedAggregationSymbols(lateralJoin: PlanNode, aggregation: PlanNode): (r: seq<Symbol>)
    ensures forall s :: s in r <==> s in OutputSymbols(aggregation) && s in OutputSymbols(lateralJoin)
    ensures NoDuplicates(OutputSymbols(aggregation)) ==> NoDuplicates(r)
  {
    KeepIn(OutputSymbols(aggregation), Elements(OutputSymbols(lateralJoin)))
  }

  /** The truncation keeps the aggregation's order: when the unique-id column
      is not a lateral join output (it is fresh) and the outer columns are
      distinct, the outer row's columns come first, unchanged and in order,
      followed by the hash symbol and aggregates the lateral join exposes. */
  lemma {:induction false} OuterColumnsComeFirst(lateralJoin: PlanNode, scalarAggregation: PlanNode, source: PlanNode,
                                                 joinExpression: Option<Expr>, env: Environment, id: PlanNodeId)
    requires lateralJoin.LateralJoinNode? && scalarAggregation.AggregationNode?
    requires NoDuplicates(OutputSymbols(lateralJoin.input))
    requires env.unique !in OutputSymbols(lateralJoin)
    ensures TruncatedAggregationSymbols(lateralJoin,
              CreateAggregationNode(scalarAggregation, LeftOuterJoin(lateralJoin.input, source, joinExpression, env.unique, id),
                                    env, id + 2).value)
        == OutputSymbols(lateralJoin.input)
           + KeepIn(OptionalSymbol(scalarAggregation.hashSymbol) + AggregationSymbols(scalarAggregation.aggregations),
                    Elements(OutputSymbols(lateralJoin)))
  {
    var aggregationNode := CreateAggregationNode(scalarAggregation,
      LeftOuterJoin(lateralJoin.input, source, joinExpression, env.unique, id), env, id + 2).value;
    var tail := OptionalSymbol(scalarAggregation.hashSymbol) + AggregationSymbols(scalarAggregation.aggregations);
    var allowed := Elements(OutputSymbols(lateralJoin));
    OuterAggregationOutputs(lateralJoin.input, scalarAggregation, source, joinExpression, env, id);
    OuterColumnsAreLateralOutputs(lateralJoin);
    KeepInFreshTail(OutputSymbols(lateralJoin.input), env.unique, tail, allowed);
  }

  /** The aggregation over the join outputs the outer columns, then `unique`,
      then the hash symbol and the aggregates. */
  lemma OuterAggregationOutputs(input: PlanNode, scalarAggregation: PlanNode, source: PlanNode,
                                joinExpression: Option<Expr>, env: Environment, id: PlanNodeId)
    requires scalarAggregation.AggregationNode?
    ensures OutputSymbols(CreateAggregationNode(scalarAggregation,
              LeftOuterJoin(input, source, joinExpression, env.unique, id), env, id + 2).value)
         == Dedup(OutputSymbols(input) + [env.unique])
            + (OptionalSymbol(scalarAggregation.hashSymbol) + AggregationSymbols(scalarAggregation.aggregations))
  {
    var join := LeftOuterJoin(input, source, joinExpression, env.unique, id);
    AggregationOutputs(scalarAggregation, join, env, id + 2);
    assert OutputSymbols(join.left) == OutputSymbols(input) + [env.unique];
  }


  /** Every outer column is a column of the lateral join. */
  lemma OuterColumnsAreLateralOutputs(lateralJoin: PlanNode)
    requires lateralJoin.LateralJoinNode?
    ensures forall y :: y in OutputSymbols(lateralJoin.input) ==> y in Elements(OutputSymbols(lateralJoin))
  {
    assert OutputSymbols(lateralJoin) == OutputSymbols(lateralJoin.input) + OutputSymbols(lateralJoin.subquery);
  }


  /** The assignments of the final projection: identities for the truncated
      symbols, followed by the assignments of the subquery's projection when
      there is one. The builder fails exactly when that projection assigns a
      truncated symbol anything but a reference to itself. */
  function FinalAssignments(truncated: seq<Symbol>, subqueryProjection: Option<PlanNode>): (r: Option<Assignments>)
    requires subqueryProjection.Some? ==> subqueryProjection.value.ProjectNode?
    ensures subqueryProjection.None? ==> r == Some(Identity(truncated))
    ensures subqueryProjection.Some? ==>
      var assignments := subqueryProjection.value.assignments;
      && (r.None? <==> exists y :: y in assignments && y.symbol in truncated && y.expression != SymbolReference(y.symbol))
      && (r.Some? ==> Identity(truncated) <= r.value && r.value == Dedup(Identity(truncated) + assignments))
  {
    if subqueryProjection.Some? then
      IdentityConflict(truncated, subqueryProjection.value.assignments);
      PutAll(Identity(truncated), subqueryProjection.value.assignments)
    else Some(Identity(truncated))
  }

  /** Identities and other assignments are consistent exactly when the others
      map every symbol they share with the identities to itself. */
  lemma IdentityConflict(truncated: seq<Symbol>, assignments: Assignments)
    ensures Consistent(Identity(truncated) + assignments)
        <==> !exists y :: y in assignments && y.symbol in truncated && y.expression != SymbolReference(y.symbol)
  {
    var identity := Identity(truncated);
    AssignmentsAreConsistent(identity);
    AssignmentsAreConsistent(assignments);
    forall z | z in identity
      ensures z.symbol in truncated && z.expression == SymbolReference(z.symbol)
    {
      var k :| 0 <= k < |identity| && identity[k] == z;
      assert Keys(identity)[k] == z.symbol;
    }
    if Consistent(identity + assignments) {
      forall y | y in assignments && y.symbol in truncated
        ensures y.expression == SymbolReference(y.symbol)
      {
        assert y.symbol in Keys(identity);
        var k :| 0 <= k < |identity| && Keys(identity)[k] == y.symbol;
        assert identity[k] in identity + assignments && y in identity + assignments;
      }
    }
  }

  /** The projection the rewrite carries over: the first projection of the
      subquery, looking through single-row checks only. */
  function SubqueryProjection(subquery: PlanNode): (r: Option<PlanNode>)
    ensures r.Some? ==> r.value.ProjectNode?
    ensures r.None? <==> FindAll(subquery, ProjectKind, EnforceSingleRowKind) == []
  {
    var r := FindFirst(subquery, ProjectKind, EnforceSingleRowKind);
    assert r.Some? ==> Kind(r.value) == ProjectKind;
    r
  }

  /** The replacement over a prepared aggregation source. Node ids are taken
      in order for the unique-id node, the join, the aggregation and the final
      projection. */
  function BuildReplacement(lateralJoin: PlanNode, scalarAggregation: PlanNode, source: PlanNode,
                            joinExpression: Option<Expr>, env: Environment, nextId: nat): (r: Result<Rewrite, Fault>)
    requires lateralJoin.LateralJoinNode? && scalarAggregation.AggregationNode?
    ensures r.Success? ==>
      && r.value.nextId == nextId + 4
      && BuiltShape(lateralJoin, scalarAggregation, source, joinExpression, env, nextId, r.value.plan)
      && FinalProjectionShape(lateralJoin, r.value.plan)
    ensures r.Failure? ==>
      && SubqueryProjection(lateralJoin.subquery).Some?
      && exists y :: y in SubqueryProjection(lateralJoin.subquery).value.assignments
                     && y.symbol in OutputSymbols(lateralJoin) && y.expression != SymbolReference(y.symbol)
  {
    var leftOuterJoin := LeftOuterJoin(lateralJoin.input, source, joinExpression, env.unique, nextId);
    var aggregationNode := CreateAggregationNode(scalarAggregation, leftOuterJoin, env, nextId + 2);
    // The aggregation is always built, so the "no aggregation: return the
    // lateral join" exit is never taken.
    var subqueryProjection := SubqueryProjection(lateralJoin.subquery);
    var aggregationOutputSymbols := TruncatedAggregationSymbols(lateralJoin, aggregationNode.value);
    match FinalAssignments(aggregationOutputSymbols, subqueryProjection)
    case None =>
      ConflictIsOnOutput(lateralJoin, aggregationNode.value);
      Failure(AssignmentConflict)
    case Some(assignments) =>
      BuiltIsShaped(lateralJoin, scalarAggregation, source, joinExpression, env, nextId, assignments);
      FinalIsShaped(lateralJoin, aggregationNode.value, nextId + 3, assignments);
      Success(Rewrite(ProjectNode(nextId + 3, aggregationNode.value, assignments), nextId + 4))
  }

  /** A builder conflict is on a column of the lateral join. */
  lemma ConflictIsOnOutput(lateralJoin: PlanNode, aggregation: PlanNode)
    requires lateralJoin.LateralJoinNode?
    requires FinalAssignments(TruncatedAggregationSymbols(lateralJoin, aggregation), SubqueryProjection(lateralJoin.subquery)).None?
    ensures SubqueryProjection(lateralJoin.subquery).Some?
    ensures exists y :: y in SubqueryProjection(lateralJoin.subquery).value.assignments
                        && y.symbol in OutputSymbols(lateralJoin) && y.expression != SymbolReference(y.symbol)
  {
    var truncated := TruncatedAggregationSymbols(lateralJoin, aggregation);
    var y :| y in SubqueryProjection(lateralJoin.subquery).value.assignments
             && y.symbol in truncated && y.expression != SymbolReference(y.symbol);
  }

  /** The projection over the rebuilt aggregation, whatever its assignments,
      has the built shape. */
  lemma BuiltIsShaped(lateralJoin: PlanNode, scalarAggregation: PlanNode, source: PlanNode,
                      joinExpression: Option<Expr>, env: Environment, nextId: nat, assignments: Assignments)
    requires lateralJoin.LateralJoinNode? && scalarAggregation.AggregationNode?
    ensures BuiltShape(lateralJoin, scalarAggregation, source, joinExpression, env, nextId,
              ProjectNode(nextId + 3, CreateAggregationNode(scalarAggregation,
                LeftOuterJoin(lateralJoin.input, source, joinExpression, env.unique, nextId), env, nextId + 2).value, assignments))
  {
  }

  /** A projection over `aggregation` with the final assignments has the
      final projection's shape. */
  lemma FinalIsShaped(lateralJoin: PlanNode, aggregation: PlanNode, id: nat, assignments: Assignments)
    requires lateralJoin.LateralJoinNode?
    requires FinalAssignments(TruncatedAggregationSymbols(lateralJoin, aggregation), SubqueryProjection(lateralJoin.subquery))
             == Some(assignments)
    ensures FinalProjectionShape(lateralJoin, ProjectNode(id, aggregation, assignments))
  {
  }

  /** The shape of a built replacement `p`: a projection over the rebuilt
      aggregation, grouped by the outer columns and `unique`, over a LEFT join
      without criteria of the id-tagged outer input with `source` on
      `joinExpression`, with ids from `nextId` on, bottom up. */
  ghost predicate BuiltShape(lateralJoin: PlanNode, scalarAggregation: PlanNode, source: PlanNode,
                             joinExpression: Option<Expr>, env: Environment, nextId: nat, p: PlanNode)
    requires lateralJoin.LateralJoinNode? && scalarAggregation.AggregationNode?
  {
    && p.ProjectNode? && p.id == nextId + 3
    && p.source.AggregationNode? && p.source.id == nextId + 2
    && p.source.groupingSets == [OutputSymbols(lateralJoin.input) + [env.unique]]
    && p.source.step == scalarAggregation.step && p.source.hashSymbol == scalarAggregation.hashSymbol
    && p.source.aggregations == RebuildAggregations(scalarAggregation.aggregations, env)
    && p.source.source.JoinNode? && p.source.source.id == nextId + 1
    && p.source.source.joinType == Left && p.source.source.criteria == []
    && p.source.source.left == AssignUniqueIdNode(nextId, lateralJoin.input, env.unique)
    && p.source.source.right == source && p.source.source.filter == joinExpression
    && OutputSymbols(p.source.source) == OutputSymbols(lateralJoin.input) + [env.unique] + OutputSymbols(source)
  }

  /** The final projection of a replacement `p`: identities for the truncated
      aggregation symbols first, then the subquery projection's assignments
      the identities do not already hold, in their order. */
  ghost predicate FinalProjectionShape(lateralJoin: PlanNode, p: PlanNode)
    requires lateralJoin.LateralJoinNode?
  {
    && p.ProjectNode?
    && var truncated := TruncatedAggregationSymbols(lateralJoin, p.source);
    && var projection := SubqueryProjection(lateralJoin.subquery);
    && Identity(truncated) <= p.assignments
    && (forall s :: s in truncated <==> s in OutputSymbols(p.source) && s in OutputSymbols(lateralJoin))
    && (projection.None? ==> p.assignments == Identity(truncated))
    && (projection.Some? ==> p.assignments == Dedup(Identity(truncated) + projection.value.assignments))
  }

  // ---------------------------------------------------------------------------
  // The rewrite
  // ---------------------------------------------------------------------------

  /** The whole rewrite. `aggregation` is the scalar aggregation at the top of
      the lateral join's subquery. */
  function RewriteScalarAggregation(lateralJoin: PlanNode, aggregation: PlanNode, env: Environment, nextId: nat): (r: Result<Rewrite, Fault>)
    requires lateralJoin.LateralJoinNode? && aggregation.AggregationNode?
    ensures r.Success? ==> r.value.nextId >= nextId
    ensures DecorrelateFilters(aggregation.source, lateralJoin.correlation, nextId).result.None? ==>
      r.Success? && r.value.plan == lateralJoin
    ensures var filters := Filters(aggregation.source);
      |filters| == 1 && !AcceptedFilter(filters[0], lateralJoin.correlation) ==>
        r == Success(Rewrite(lateralJoin, nextId))
    ensures Filters(aggregation.source) == [] && IsCorrelated(aggregation.source, lateralJoin.correlation) ==>
      r == Success(Rewrite(lateralJoin, nextId))
    ensures var filters := Filters(aggregation.source);
      |filters| == 1 && AcceptedFilter(filters[0], lateralJoin.correlation)
      && IsCorrelated(SplitFilter(aggregation.source, lateralJoin.correlation, nextId).node, lateralJoin.correlation) ==>
        r.Success? && r.value.plan == lateralJoin
    ensures DecorrelateFilters(aggregation.source, lateralJoin.correlation, nextId).result.Some? ==>
      var d := DecorrelateFilters(aggregation.source, lateralJoin.correlation, nextId);
      && (env.nonNull in OutputSymbols(d.result.value.node) ==> r == Failure(AssignmentConflict))
      && (r.Success? ==> r.value.plan.ProjectNode?)
  {
    var d := DecorrelateFilters(aggregation.source, lateralJoin.correlation, nextId);
    if d.result.None? then
      Success(Rewrite(lateralJoin, d.nextId))
    else
      var source := d.result.value;
      match NonNullProjection(source.node, env.nonNull, d.nextId)
      case None => Failure(AssignmentConflict)
      case Some(withNonNull) =>
        BuildReplacement(lateralJoin, aggregation, withNonNull, CorrelatedPredicate(source), env, d.nextId + 1)
  }

  /** A successful replacement is the one built over the marker projection of
      the decorrelated node, with the join condition of its correlated
      conjuncts, taking ids after those decorrelation used. */
  lemma ReplacementIsBuilt(lateralJoin: PlanNode, aggregation: PlanNode, env: Environment, nextId: nat)
    requires lateralJoin.LateralJoinNode? && aggregation.AggregationNode?
    requires DecorrelateFilters(aggregation.source, lateralJoin.correlation, nextId).result.Some?
    requires RewriteScalarAggregation(lateralJoin, aggregation, env, nextId).Success?
    ensures NonNullProjection(DecorrelateFilters(aggregation.source, lateralJoin.correlation, nextId).result.value.node,
                              env.nonNull, DecorrelateFilters(aggregation.source, lateralJoin.correlation, nextId).nextId).Some?
    ensures RewriteScalarAggregation(lateralJoin, aggregation, env, nextId)
         == BuildReplacement(lateralJoin, aggregation,
              NonNullProjection(DecorrelateFilters(aggregation.source, lateralJoin.correlation, nextId).result.value.node,
                                env.nonNull, DecorrelateFilters(aggregation.source, lateralJoin.correlation, nextId).nextId).value,
              CorrelatedPredicate(DecorrelateFilters(aggregation.source, lateralJoin.correlation, nextId).result.value),
              env, DecorrelateFilters(aggregation.source, lateralJoin.correlation, nextId).nextId + 1)
  {
  }

  /** The shape of the join in a replacement built over the decorrelated node
      `d`: a LEFT join without criteria of the id-tagged outer input with
      `d`'s node plus its marker, on the conjunction of the correlated
      conjuncts. */
  ghost predicate JoinShaped(lateralJoin: PlanNode, env: Environment, d: DecorrelatedNode, j: PlanNode)
    requires lateralJoin.LateralJoinNode?
  {
    && j.JoinNode? && j.joinType == Left && j.criteria == []
    && j.left.AssignUniqueIdNode? && j.left.source == lateralJoin.input && j.left.idColumn == env.unique
    && j.right.ProjectNode? && j.right.source == d.node
    && OutputSymbols(j.right) == Dedup(OutputSymbols(d.node)) + [env.nonNull]
    && OutputSymbols(j) == OutputSymbols(lateralJoin.input) + [env.unique] + OutputSymbols(j.right)
    && j.filter == CorrelatedPredicate(d)
    && (j.filter.None? <==> d.correlatedPredicates == [])
    && (j.filter.Some? ==> SymbolsOf(j.filter.value) == SymbolsOfAll(d.correlatedPredicates))
  }

  /** The shape of a replacement: a projection over the rebuilt aggregation,
      grouped by the join's outer side, over a join of that shape. */
  ghost predicate ReplacementShaped(lateralJoin: PlanNode, aggregation: PlanNode, env: Environment,
                                    d: DecorrelatedNode, p: PlanNode)
    requires lateralJoin.LateralJoinNode? && aggregation.AggregationNode?
  {
    && p.ProjectNode? && p.source.AggregationNode?
    && var a := p.source;
    && JoinShaped(lateralJoin, env, d, a.source)
    && a.groupingSets == [OutputSymbols(a.source.left)]
    && a.step == aggregation.step && a.hashSymbol == aggregation.hashSymbol
    && AggregationSymbols(a.aggregations) == AggregationSymbols(aggregation.aggregations)
  }

  /** A replacement built over the decorrelated node `d`, with ids from `id`
      on, has that shape. */
  lemma ReplacementShape(lateralJoin: PlanNode, aggregation: PlanNode, env: Environment, d: DecorrelatedNode, id: nat)
    requires lateralJoin.LateralJoinNode? && aggregation.AggregationNode?
    requires NonNullProjection(d.node, env.nonNull, id).Some?
    requires BuildReplacement(lateralJoin, aggregation, NonNullProjection(d.node, env.nonNull, id).value,
                              CorrelatedPredicate(d), env, id + 1).Success?
    ensures ReplacementShaped(lateralJoin, aggregation, env, d,
              BuildReplacement(lateralJoin, aggregation, NonNullProjection(d.node, env.nonNull, id).value,
                               CorrelatedPredicate(d), env, id + 1).value.plan)
  {
    var withNonNull := NonNullProjection(d.node, env.nonNull, id).value;
    var join := LeftOuterJoin(lateralJoin.input, withNonNull, CorrelatedPredicate(d), env.unique, id + 1);
    var a := CreateAggregationNode(aggregation, join, env, id + 3).value;
    assert JoinShaped(lateralJoin, env, d, join);
    assert BuildReplacement(lateralJoin, aggregation, withNonNull, CorrelatedPredicate(d), env, id + 1).value.plan.source == a;
  }

  /** The final projection outputs the truncated aggregation symbols first,
      as identities, and then exactly the subquery projection's assignments. */
  lemma {:induction false} FinalProjection(lateralJoin: PlanNode, aggregation: PlanNode, env: Environment, nextId: nat)
    requires lateralJoin.LateralJoinNode? && aggregation.AggregationNode?
    requires DecorrelateFilters(aggregation.source, lateralJoin.correlation, nextId).result.Some?
    requires RewriteScalarAggregation(lateralJoin, aggregation, env, nextId).Success?
    ensures FinalProjectionShape(lateralJoin, RewriteScalarAggregation(lateralJoin, aggregation, env, nextId).value.plan)
  {
    ReplacementIsBuilt(lateralJoin, aggregation, env, nextId);
  }
}
