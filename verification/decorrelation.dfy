/** Filter decorrelation: the single filter reachable from the aggregation's
    source through projections is split into the conjuncts that use a
    correlation symbol (which become the join condition) and the rest (which
    stay in a filter); the projections on the way are then extended so that
    the join condition's symbols reach the top. Every unsupported shape gives
    no result, and so does a subtree that still refers to the correlation. */
module Decorrelation {
  import opened Wrappers
  import opened Expressions
  import opened Plan
  import opened PlanSearch
  import opened ExtendProjection

  /** A decorrelated subquery source with the conjuncts taken out of it. */
  datatype DecorrelatedNode = DecorrelatedNode(correlatedPredicates: seq<Expr>, node: PlanNode)

  /** The outcome of decorrelation and the next unused node id. */
  datatype Decorrelation = Decorrelation(result: Option<DecorrelatedNode>, nextId: nat)

  /** The join condition: the conjunction of the correlated conjuncts, or none
      at all when there are none. */
  function CorrelatedPredicate(d: DecorrelatedNode): (r: Option<Expr>)
    ensures r.None? <==> d.correlatedPredicates == []
    ensures r.Some? ==> SymbolsOf(r.value) == SymbolsOfAll(d.correlatedPredicates)
  {
    if d.correlatedPredicates == [] then None else Some(Conjoin(d.correlatedPredicates))
  }

  /** Splitting the join condition into conjuncts gives back the correlated
      conjuncts exactly, when none of them is itself a conjunction (which is
      the case for conjuncts extracted from a predicate). */
  lemma CorrelatedPredicateRoundTrip(d: DecorrelatedNode)
    requires d.correlatedPredicates != []
    requires forall i :: 0 <= i < |d.correlatedPredicates| ==> !IsConjunction(d.correlatedPredicates[i])
    ensures CorrelatedPredicate(d).Some?
    ensures Conjuncts(CorrelatedPredicate(d).value) == d.correlatedPredicates
  {
    ConjunctsOfConjoin(d.correlatedPredicates);
  }

  /** The final closure check: a subtree that still refers to a correlation
      symbol anywhere is not decorrelated. */
  function Decorrelated(correlatedPredicates: seq<Expr>, node: PlanNode, correlation: seq<Symbol>): (r: Option<DecorrelatedNode>)
    ensures r.Some? <==> forall c :: c in correlation ==> c !in References(node)
    ensures r.Some? ==> r.value.node == node && r.value.correlatedPredicates == correlatedPredicates
  {
    if IsCorrelated(node, correlation) then
      var i :| 0 <= i < |correlation| && correlation[i] in References(node);
      assert correlation[i] in correlation;
      None
    else
      Some(DecorrelatedNode(correlatedPredicates, node))
  }

  /** The filter search used throughout: filters reached through projections only. */
  function Filters(node: PlanNode): (r: seq<PlanNode>)
    ensures |r| <= 1
    ensures forall i :: 0 <= i < |r| ==> r[i].FilterNode?
  {
    AtMostOneMatchThroughUnaryNodes(node, FilterKind, ProjectKind);
    FindAll(node, FilterKind, ProjectKind)
  }

  /** Leaves the uncorrelated conjuncts in place of the filter: the filter is
      removed when there are none, and otherwise replaced by a new filter over
      the same source whose condition is their conjunction. */
  function UpdateFilterNode(node: PlanNode, newPredicates: seq<Expr>, nextId: nat): (r: Rewritten)
    requires newPredicates != [] ==> |Filters(node)| == 1
    ensures newPredicates == [] ==> r.nextId == nextId
    ensures newPredicates == [] && |Filters(node)| == 1 ==>
      r.node == ReplaceAll(node, FilterKind, ProjectKind, Filters(node)[0].source)
    ensures newPredicates != [] ==>
      var replacement := FilterNode(nextId, Filters(node)[0].source, Conjoin(newPredicates));
      && r.nextId == nextId + 1
      && r.node == ReplaceAll(node, FilterKind, ProjectKind, replacement)
      && Filters(r.node) == [replacement]
  {
    if newPredicates == [] then
      var removed := RemoveAll(node, FilterKind, ProjectKind);
      if |Filters(node)| == 1 then
        RemoveIsReplaceBySource(node, FilterKind, ProjectKind, Filters(node)[0]);
        Rewritten(removed, nextId)
      else
        Rewritten(removed, nextId)
    else
      var oldFilter := Filters(node)[0];
      var newFilter := FilterNode(nextId, oldFilter.source, Conjoin(newPredicates));
      ReplacementIsFound(node, FilterKind, ProjectKind, oldFilter, newFilter);
      Rewritten(ReplaceAll(node, FilterKind, ProjectKind, newFilter), nextId + 1)
  }

  /** Extends the projections of the subtree with the symbols of the join
      condition, so that the join above can evaluate it. */
  function EnsureJoinSymbolsAreReturned(node: PlanNode, joinPredicate: seq<Expr>, nextId: nat): (r: Rewritten)
    ensures r.nextId >= nextId
    ensures References(r.node) <= References(node) + SymbolsOfAll(joinPredicate)
    ensures forall s :: s in SymbolsOfAll(joinPredicate) && ProducedBelow(node, s) ==> s in OutputSymbols(r.node)
    ensures Extended(node, r.node, SymbolsOfAll(joinPredicate))
  {
    var r := ExtendProjections(node, SymbolsOfAll(joinPredicate), nextId);
    ReferencesAreBounded(node, SymbolsOfAll(joinPredicate), nextId);
    JoinSymbolsSurvive(node, SymbolsOfAll(joinPredicate), nextId);
    r
  }

  lemma JoinSymbolsSurvive(node: PlanNode, required: set<Symbol>, nextId: nat)
    ensures forall s :: s in required && ProducedBelow(node, s) ==> s in OutputSymbols(ExtendProjections(node, required, nextId).node)
  {
    forall s | s in required && ProducedBelow(node, s)
      ensures s in OutputSymbols(ExtendProjections(node, required, nextId).node)
    {
      RequiredSymbolsSurvive(node, required, nextId, s);
    }
  }

  /** Whether the single filter has a shape the rewrite handles: only ANDs at
      the logical level, and every correlation symbol among its free symbols. */
  predicate AcceptedFilter(filter: PlanNode, correlation: seq<Symbol>)
    requires filter.FilterNode?
  {
    IsSupportedPredicate(filter.condition) && UsesAll(correlation, filter.condition)
  }

  /** The subtree after the filter has been split: the uncorrelated part kept
      in place, the projections extended for the correlated part. Relative to
      the subtree with the filter updated, the split references at most the
      correlated conjuncts' symbols in addition, outputs every one of them
      produced down a pass-through chain, and is that subtree with its
      projections extended and nothing else changed. */
  function SplitFilter(node: PlanNode, correlation: seq<Symbol>, nextId: nat): (r: Rewritten)
    requires |Filters(node)| == 1
    ensures r.nextId >= nextId
    ensures var parts := Partition(Conjuncts(Filters(node)[0].condition), correlation);
      var updated := UpdateFilterNode(node, parts.uncorrelated, nextId).node;
      && References(r.node) <= References(updated) + SymbolsOfAll(parts.correlated)
      && (forall s :: s in SymbolsOfAll(parts.correlated) && ProducedBelow(updated, s) ==> s in OutputSymbols(r.node))
      && Extended(updated, r.node, SymbolsOfAll(parts.correlated))
  {
    var parts := Partition(Conjuncts(Filters(node)[0].condition), correlation);
    var updated := UpdateFilterNode(node, parts.uncorrelated, nextId);
    EnsureJoinSymbolsAreReturned(updated.node, parts.correlated, updated.nextId)
  }

  /** Decorrelation of the aggregation's source. */
  function DecorrelateFilters(node: PlanNode, correlation: seq<Symbol>, nextId: nat): (r: Decorrelation)
    ensures r.nextId >= nextId
    ensures Filters(node) == [] ==> r == Decorrelation(Decorrelated([], node, correlation), nextId)
    ensures |Filters(node)| == 1 && !AcceptedFilter(Filters(node)[0], correlation) ==> r.result.None?
    ensures |Filters(node)| == 1 && AcceptedFilter(Filters(node)[0], correlation) ==>
      var split := SplitFilter(node, correlation, nextId);
      && r.nextId == split.nextId
      && (r.result.None? <==> IsCorrelated(split.node, correlation))
      && (r.result.Some? ==>
            && r.result.value.node == split.node
            && r.result.value.correlatedPredicates == Partition(Conjuncts(Filters(node)[0].condition), correlation).correlated)
    ensures r.result.Some? ==> !IsCorrelated(r.result.value.node, correlation)
  {
    var filters := FindAll(node, FilterKind, ProjectKind);
    if |filters| == 0 then
      Decorrelation(Decorrelated([], node, correlation), nextId)
    else if |filters| > 1 then
      Decorrelation(None, nextId)
    else
      var filter := filters[0];
      if !IsSupportedPredicate(filter.condition) then
        Decorrelation(None, nextId)
      else if !UsesAll(correlation, filter.condition) then
        Decorrelation(None, nextId)
      else
        var parts := Partition(Conjuncts(filter.condition), correlation);
        var split := SplitFilter(node, correlation, nextId);
        Decorrelation(Decorrelated(parts.correlated, split.node, correlation), split.nextId)
  }

  /** What a successful decorrelation of the filter `filter` hands to the
      join, as `d`: exactly the conjuncts of the filter that use a correlation
      symbol, none of them a conjunction itself, together mentioning every
      correlation symbol. */
  lemma {:induction false} DecorrelatedFilterPredicates(node: PlanNode, correlation: seq<Symbol>, nextId: nat,
                                                        filter: PlanNode, d: DecorrelatedNode)
    requires Filters(node) == [filter]
    requires DecorrelateFilters(node, correlation, nextId).result == Some(d)
    ensures filter.FilterNode? && AcceptedFilter(filter, correlation)
    ensures forall e :: e in d.correlatedPredicates <==> e in Conjuncts(filter.condition) && UsesAny(correlation, e)
    ensures forall i :: 0 <= i < |d.correlatedPredicates| ==>
      UsesAny(correlation, d.correlatedPredicates[i]) && !IsConjunction(d.correlatedPredicates[i])
    ensures forall i :: 0 <= i < |correlation| ==> correlation[i] in SymbolsOfAll(d.correlatedPredicates)
  {
    assert filter == Filters(node)[0];
    var parts := Partition(Conjuncts(filter.condition), correlation);
    assert d.correlatedPredicates == parts.correlated;
    PartitionMembership(Conjuncts(filter.condition), correlation);
    forall i | 0 <= i < |d.correlatedPredicates|
      ensures UsesAny(correlation, d.correlatedPredicates[i]) && !IsConjunction(d.correlatedPredicates[i])
    {
      var e := d.correlatedPredicates[i];
      assert e in d.correlatedPredicates;
      var k :| 0 <= k < |Conjuncts(filter.condition)| && Conjuncts(filter.condition)[k] == e;
    }
    CorrelatedPartCoversCorrelation(filter.condition, correlation);
  }

  /** The join condition of a decorrelated filter splits back into exactly the
      filter's conjuncts that use a correlation symbol, and mentions every
      correlation symbol; so it is present whenever there is correlation. */
  lemma {:induction false} JoinPredicateOfFilter(node: PlanNode, correlation: seq<Symbol>, nextId: nat,
                                                 filter: PlanNode, d: DecorrelatedNode)
    requires Filters(node) == [filter]
    requires DecorrelateFilters(node, correlation, nextId).result == Some(d)
    requires correlation != []
    ensures filter.FilterNode? && CorrelatedPredicate(d).Some?
    ensures forall e :: e in Conjuncts(CorrelatedPredicate(d).value) <==>
      e in Conjuncts(filter.condition) && UsesAny(correlation, e)
    ensures forall i :: 0 <= i < |correlation| ==> correlation[i] in SymbolsOf(CorrelatedPredicate(d).value)
  {
    DecorrelatedFilterPredicates(node, correlation, nextId, filter, d);
    assert correlation[0] in SymbolsOfAll(d.correlatedPredicates);
    CorrelatedPredicateRoundTrip(d);
  }

  /** The filter left in the decorrelated subtree holds exactly the
      uncorrelated conjuncts, and so refers to no correlation symbol. */
  lemma {:induction false} RemainingFilterIsUncorrelated(node: PlanNode, correlation: seq<Symbol>, nextId: nat)
    requires |Filters(node)| == 1
    ensures var filter := Filters(node)[0];
      var parts := Partition(Conjuncts(filter.condition), correlation);
      var updated := UpdateFilterNode(node, parts.uncorrelated, nextId);
      && (parts.uncorrelated == [] ==>
            updated.node == ReplaceAll(node, FilterKind, ProjectKind, filter.source))
      && (parts.uncorrelated != [] ==>
            |Filters(updated.node)| == 1
            && Filters(updated.node)[0].source == filter.source
            && Conjuncts(Filters(updated.node)[0].condition) == parts.uncorrelated
            && forall i :: 0 <= i < |correlation| ==> correlation[i] !in SymbolsOf(Filters(updated.node)[0].condition))
  {
    var filter := Filters(node)[0];
    var conjuncts := Conjuncts(filter.condition);
    var parts := Partition(conjuncts, correlation);
    var updated := UpdateFilterNode(node, parts.uncorrelated, nextId);
    PartitionMembership(conjuncts, correlation);
    if parts.uncorrelated != [] {
      forall i | 0 <= i < |parts.uncorrelated| ensures !IsConjunction(parts.uncorrelated[i]) {
        assert parts.uncorrelated[i] in conjuncts;
      }
      ConjunctsOfConjoin(parts.uncorrelated);
      UncorrelatedPartIsClosed(conjuncts, correlation);
    }
  }
}
