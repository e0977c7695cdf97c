/** The projection-extension rewrite: a bottom-up pass that rebuilds every
    node over its rewritten sources and, at every projection, adds identity
    pass-throughs for the required symbols its rewritten source produces but
    the projection does not yet output. Node ids come from a counter threaded
    through the pass; each rebuilt projection takes a fresh one. */
module ExtendProjection {
  import opened Seqs
  import opened Expressions
  import opened Plan

  /** A rewritten plan together with the next unused node id. */
  datatype Rewritten = Rewritten(node: PlanNode, nextId: nat)

  /** The required symbols to pass through a projection: produced by its
      (rewritten) source and not already among its outputs. They are listed in
      the order the source produces them. */
  function SymbolsToAdd(required: set<Symbol>, sourceOutputs: seq<Symbol>, existing: seq<Symbol>): (r: seq<Symbol>)
    ensures NoDuplicates(r)
    ensures forall s :: s in r <==> s in required && s in sourceOutputs && s !in existing
  {
    KeepIn(Dedup(sourceOutputs), required - Elements(existing))
  }

  /** `a` followed by identity entries for `added`, which are new symbols. */
  function WithIdentities(a: Assignments, added: seq<Symbol>): (r: Assignments)
    requires NoDuplicates(added)
    requires forall s :: s in added ==> s !in Keys(a)
    ensures a <= r
    ensures Keys(r) == Keys(a) + added
    ensures forall i :: |a| <= i < |r| ==> r[i].expression == SymbolReference(r[i].symbol)
    ensures SymbolsOfAll(AssignedExpressions(r)) == SymbolsOfAll(AssignedExpressions(a)) + Elements(added)
  {
    var ids := Identity(added);
    assert Keys(ids) == added;
    var r := a + ids;
    assert Keys(r) == Keys(a) + added;
    assert NoDuplicates(Keys(r)) by {
      forall i, j | 0 <= i < j < |Keys(r)| ensures Keys(r)[i] != Keys(r)[j] {
        if j >= |a| && i < |a| {
          assert Keys(r)[j] in added;
          assert Keys(r)[i] == Keys(a)[i];
        }
      }
    }
    assert AssignedExpressions(r) == AssignedExpressions(a) + AssignedExpressions(ids);
    SymbolsOfAllAppend(AssignedExpressions(a), AssignedExpressions(ids));
    assert SymbolsOfAll(AssignedExpressions(ids)) == Elements(added) by {
      forall s | s in SymbolsOfAll(AssignedExpressions(ids)) ensures s in Elements(added) {
        var i :| 0 <= i < |ids| && s in SymbolsOf(AssignedExpressions(ids)[i]);
        assert Keys(ids)[i] == added[i];
      }
      forall s | s in Elements(added) ensures s in SymbolsOfAll(AssignedExpressions(ids)) {
        var i :| 0 <= i < |added| && added[i] == s;
        assert Keys(ids)[i] == s;
        assert SymbolsOf(AssignedExpressions(ids)[i]) == {s};
      }
    }
    r
  }

  /** What the rewrite does at one projection `p`, giving `q`: `q` keeps every
      assignment of `p`, in order, and then only adds identity entries; every
      required symbol that `q`'s source produces is an output of `q`, and
      nothing else is added. */
  ghost predicate ExtendsProjection(p: PlanNode, q: PlanNode, required: set<Symbol>)
    requires p.ProjectNode? && q.ProjectNode?
  {
    && p.assignments <= q.assignments
    && (forall i :: |p.assignments| <= i < |q.assignments| ==>
          q.assignments[i].expression == SymbolReference(q.assignments[i].symbol))
    && (forall s :: s in Keys(q.assignments) <==>
          s in Keys(p.assignments) || (s in required && s in OutputSymbols(q.source)))
  }

  /** `m` is `n` with every projection extended for `required`: the same tree
      shape, every other node kept with all its fields over its rewritten
      sources, and every projection related to its rewrite by
      `ExtendsProjection` (its id may change). */
  ghost predicate Extended(n: PlanNode, m: PlanNode, required: set<Symbol>)
    decreases n
  {
    match n
    case TableScanNode(_, _) => m == n
    case FilterNode(id, source, condition) =>
      m.FilterNode? && m == FilterNode(id, m.source, condition) && Extended(source, m.source, required)
    case ProjectNode(_, source, _) =>
      m.ProjectNode? && ExtendsProjection(n, m, required) && Extended(source, m.source, required)
    case AggregationNode(id, source, aggregations, groupingSets, step, hashSymbol, groupIdSymbol) =>
      && m.AggregationNode?
      && m == AggregationNode(id, m.source, aggregations, groupingSets, step, hashSymbol, groupIdSymbol)
      && Extended(source, m.source, required)
    case JoinNode(id, joinType, left, right, criteria, outputs, filter, leftHash, rightHash, distribution) =>
      && m.JoinNode?
      && m == JoinNode(id, joinType, m.left, m.right, criteria, outputs, filter, leftHash, rightHash, distribution)
      && Extended(left, m.left, required) && Extended(right, m.right, required)
    case AssignUniqueIdNode(id, source, idColumn) =>
      m.AssignUniqueIdNode? && m == AssignUniqueIdNode(id, m.source, idColumn) && Extended(source, m.source, required)
    case EnforceSingleRowNode(id, source) =>
      m.EnforceSingleRowNode? && m == EnforceSingleRowNode(id, m.source) && Extended(source, m.source, required)
    case LateralJoinNode(id, input, subquery, correlation, lateralType) =>
      && m.LateralJoinNode?
      && m == LateralJoinNode(id, m.input, m.subquery, correlation, lateralType)
      && Extended(input, m.input, required) && Extended(subquery, m.subquery, required)
  }

  /** The ids of every projection in the subtree. */
  function ProjectionIds(n: PlanNode): set<PlanNodeId>
  {
    match n
    case TableScanNode(_, _) => {}
    case ProjectNode(id, source, _) => {id} + ProjectionIds(source)
    case JoinNode(_, _, left, right, _, _, _, _, _, _) => ProjectionIds(left) + ProjectionIds(right)
    case LateralJoinNode(_, input, subquery, _, _) => ProjectionIds(input) + ProjectionIds(subquery)
    case _ => ProjectionIds(n.source)
  }

  /** The rewrite of the whole subtree below `n` (the projection visitor of a
      plan rewriter; every other node kind is rebuilt over its rewritten
      sources with its id and fields unchanged). Every projection of the
      result, at any depth, has an id drawn from the counter by this call. */
  function ExtendProjections(n: PlanNode, required: set<Symbol>, nextId: nat): (r: Rewritten)
    ensures r.nextId >= nextId
    ensures Extended(n, r.node, required)
    ensures forall id :: id in ProjectionIds(r.node) ==> nextId <= id < r.nextId
    decreases n
  {
    match n
    case TableScanNode(_, _) => Rewritten(n, nextId)
    case FilterNode(id, source, condition) =>
      var s := ExtendProjections(source, required, nextId);
      Rewritten(FilterNode(id, s.node, condition), s.nextId)
    case ProjectNode(id, source, assignments) =>
      var s := ExtendProjections(source, required, nextId);
      var added := SymbolsToAdd(required, OutputSymbols(s.node), Keys(assignments));
      var extended := WithIdentities(assignments, added);
      Rewritten(ProjectNode(s.nextId, s.node, extended), s.nextId + 1)
    case AggregationNode(id, source, aggregations, groupingSets, step, hashSymbol, groupIdSymbol) =>
      var s := ExtendProjections(source, required, nextId);
      Rewritten(AggregationNode(id, s.node, aggregations, groupingSets, step, hashSymbol, groupIdSymbol), s.nextId)
    case JoinNode(_, _, left, right, _, _, _, _, _, _) =>
      var l := ExtendProjections(left, required, nextId);
      var r := ExtendProjections(right, required, l.nextId);
      Rewritten(n.(left := l.node, right := r.node), r.nextId)
    case AssignUniqueIdNode(id, source, idColumn) =>
      var s := ExtendProjections(source, required, nextId);
      Rewritten(AssignUniqueIdNode(id, s.node, idColumn), s.nextId)
    case EnforceSingleRowNode(id, source) =>
      var s := ExtendProjections(source, required, nextId);
      Rewritten(EnforceSingleRowNode(id, s.node), s.nextId)
    case LateralJoinNode(_, input, subquery, _, _) =>
      var i := ExtendProjections(input, required, nextId);
      var q := ExtendProjections(subquery, required, i.nextId);
      Rewritten(n.(input := i.node, subquery := q.node), q.nextId)
  }

  /** The rewrite only ever adds outputs: every output of a node is still an
      output of its rewrite. */
  lemma {:induction false} OutputsArePreserved(n: PlanNode, required: set<Symbol>, nextId: nat)
    ensures forall s :: s in OutputSymbols(n) ==> s in OutputSymbols(ExtendProjections(n, required, nextId).node)
    decreases n
  {
    match n
    case TableScanNode(_, _) =>
    case FilterNode(_, source, _) => OutputsArePreserved(source, required, nextId);
    case ProjectNode(_, _, _) =>
    case AggregationNode(_, _, _, _, _, _, _) =>
    case JoinNode(_, _, _, _, _, _, _, _, _, _) =>
    case AssignUniqueIdNode(_, source, _) => OutputsArePreserved(source, required, nextId);
    case EnforceSingleRowNode(_, source) => OutputsArePreserved(source, required, nextId);
    case LateralJoinNode(_, input, subquery, _, _) =>
      OutputsArePreserved(input, required, nextId);
      OutputsArePreserved(subquery, required, ExtendProjections(input, required, nextId).nextId);
  }

  /** The rewrite introduces no reference other than to required symbols: the
      only expressions it adds are identity references to them. */
  lemma {:induction false} ReferencesAreBounded(n: PlanNode, required: set<Symbol>, nextId: nat)
    ensures References(ExtendProjections(n, required, nextId).node) <= References(n) + required
    decreases n
  {
    var r := ExtendProjections(n, required, nextId).node;
    match n
    case TableScanNode(_, _) =>
    case FilterNode(_, source, _) =>
      ReferencesAreBounded(source, required, nextId);
    case ProjectNode(_, source, assignments) =>
      ReferencesAreBounded(source, required, nextId);
      assert NodeExpressions(r) == AssignedExpressions(r.assignments);
      assert Elements(Keys(r.assignments)[|assignments|..]) <= required;
    case AggregationNode(_, source, _, _, _, _, _) =>
      ReferencesAreBounded(source, required, nextId);
    case JoinNode(_, _, left, right, _, _, _, _, _, _) =>
      ReferencesAreBounded(left, required, nextId);
      ReferencesAreBounded(right, required, ExtendProjections(left, required, nextId).nextId);
    case AssignUniqueIdNode(_, source, _) =>
      ReferencesAreBounded(source, required, nextId);
    case EnforceSingleRowNode(_, source) =>
      ReferencesAreBounded(source, required, nextId);
    case LateralJoinNode(_, input, subquery, _, _) =>
      ReferencesAreBounded(input, required, nextId);
      ReferencesAreBounded(subquery, required, ExtendProjections(input, required, nextId).nextId);
  }

  /** `s` is produced somewhere down a chain of nodes that pass their source's
      rows upward column by column (filters, projections, single-row checks,
      unique-id tagging), starting at `n`. */
  predicate ProducedBelow(n: PlanNode, s: Symbol)
  {
    s in OutputSymbols(n) ||
    match n
    case FilterNode(_, source, _) => ProducedBelow(source, s)
    case ProjectNode(_, source, _) => ProducedBelow(source, s)
    case EnforceSingleRowNode(_, source) => ProducedBelow(source, s)
    case AssignUniqueIdNode(_, source, _) => ProducedBelow(source, s)
    case _ => false
  }

  /** The purpose of the rewrite: a required symbol produced anywhere down such
      a chain is an output of the rewritten root, even where a projection on
      the way used to drop it. */
  lemma {:induction false} RequiredSymbolsSurvive(n: PlanNode, required: set<Symbol>, nextId: nat, s: Symbol)
    requires s in required && ProducedBelow(n, s)
    ensures s in OutputSymbols(ExtendProjections(n, required, nextId).node)
    decreases n
  {
    OutputsArePreserved(n, required, nextId);
    if s !in OutputSymbols(n) {
      match n
      case FilterNode(_, source, _) => RequiredSymbolsSurvive(source, required, nextId, s);
      case ProjectNode(_, source, _) => RequiredSymbolsSurvive(source, required, nextId, s);
      case EnforceSingleRowNode(_, source) => RequiredSymbolsSurvive(source, required, nextId, s);
      case AssignUniqueIdNode(_, source, _) => RequiredSymbolsSurvive(source, required, nextId, s);
    }
  }
}
