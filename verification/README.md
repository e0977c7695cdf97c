# Scalar aggregation to join: a Dafny model

This project models Presto's `ScalarAggregationToJoinRewriter`. It is the planner step that removes correlation from a lateral join whose subquery is a scalar aggregation. The rewrite:

1. **Decorrelates the aggregation's source.** It finds the one filter reachable through projections. It checks the shape of that filter's predicate. It splits the predicate's top-level conjuncts into those that use a correlation symbol and those that do not. The uncorrelated ones stay in the filter; if there are none, the filter is removed. Every projection on the way is then extended, so that the symbols of the correlated conjuncts are still produced at the top.
2. **Builds the replacement.** The pieces are, from the bottom up:
   - a projection that adds a `non_null := TRUE` marker to the decorrelated source;
   - an `AssignUniqueId` over the outer input;
   - a LEFT join of the two, whose condition is the conjunction of the correlated conjuncts;
   - the original aggregation, rebuilt over the join and grouped by every outer column, with `count` now counting the marker;
   - a final projection back to the lateral join's columns. It also re-applies the subquery's own projection, found by looking through single-row checks.
3. **Falls back.** Whenever decorrelation fails, the rewrite returns the lateral join unchanged.

Modules:

| file | module | models |
|---|---|---|
| `seqs.dfy` | `Seqs` | insertion-ordered de-duplication and order-keeping filtering of sequences |
| `wrappers.dfy` | `Wrappers` | `Option` and `Result` |
| `expressions.dfy` | `Expressions` | the expressions the rewrite inspects, free symbols, conjunct extraction and conjunction, the predicate-shape check, the correlated/uncorrelated partition |
| `plan.dfy` | `Plan` | plan nodes, their outputs and referenced symbols, the assignments builder, identity assignments, aggregations |
| `plan_search.dfy` | `PlanSearch` | the plan searcher: find all / find first / replace all / remove all through a skip-through node kind |
| `extend_projection.dfy` | `ExtendProjection` | the projection-extension rewriter |
| `decorrelation.dfy` | `Decorrelation` | `decorrelateFilters` and its helpers, `DecorrelatedNode` |
| `scalar_aggregation_to_join.dfy` | `ScalarAggregationToJoin` | both `rewriteScalarAggregation` overloads, `createAggregationNode`, `getTruncatedAggregationSymbols` |

Modelling choices:

- **Pure functions.** Everything is written as pure functions over immutable datatypes.
- **Node ids.** The plan-node id allocator becomes a `nat` counter. The counter is threaded through every step in the order the source draws ids.
- **Fresh symbols.** The two symbols the symbol allocator creates (`non_null`, `unique`) are fields of an `Environment` parameter.
- **Function registry.** Function resolution in the function registry is an uninterpreted function-valued field of that parameter.
- **Child references.** Plan children are direct sub-terms, so resolving a child reference is the identity.
- **Builder failures.** The assignments builder refuses to give one symbol two different expressions, which in the source is an exception. The model returns `Failure(AssignmentConflict)` in that case.

Helpers whose code is not part of this model are re-specified minimally:

- the plan searcher;
- symbol extraction (`DependencyExtractor`);
- conjunct extraction and combination (`ExpressionUtils`);
- the `Assignments` builder.

## Model

| member | source | states |
|---|---|---|
| `Expressions.Conjuncts` | presto-main/src/main/java/com/facebook/presto/sql/planner/optimizations/ScalarAggregationToJoinRewriter.java:246 | The extracted conjuncts are never empty and none is itself an AND. Together they mention exactly the free symbols of the predicate. |
| `Expressions.Conjoin` | presto-main/src/main/java/com/facebook/presto/sql/planner/optimizations/ScalarAggregationToJoinRewriter.java:326-332 | The conjunction of a non-empty list mentions exactly the symbols of its members. |
| `Expressions.ConjunctsOfConjoin` | presto-main/src/main/java/com/facebook/presto/sql/planner/optimizations/ScalarAggregationToJoinRewriter.java:284 | Round trip: conjoining non-AND expressions and extracting conjuncts again gives the same list back. |
| `Expressions.IsSupportedPredicate` | presto-main/src/main/java/com/facebook/presto/sql/planner/optimizations/ScalarAggregationToJoinRewriter.java:297-312 | The shape check descends through function calls and stops at the first logical node, which must be an AND. Only a predicate with an OR somewhere can fail it. |
| `Expressions.ExposedDisjunctionIsRejected` | presto-main/src/main/java/com/facebook/presto/sql/planner/optimizations/ScalarAggregationToJoinRewriter.java:303-309 | An OR reached through function-call arguments, with no logical node on the way, fails the shape check. |
| `Expressions.RejectedHasExposedDisjunction` | presto-main/src/main/java/com/facebook/presto/sql/planner/optimizations/ScalarAggregationToJoinRewriter.java:303-309 | A predicate the check rejects has an OR reached through function-call arguments with no logical node on the way. With `ExposedDisjunctionIsRejected`, this characterises rejection exactly. |
| `Expressions.NestedDisjunctionIsAccepted` | presto-main/src/main/java/com/facebook/presto/sql/planner/optimizations/ScalarAggregationToJoinRewriter.java:303-309 | The visitor does not descend into logical nodes, so `(a OR b) AND c` passes the check although it contains an OR. |
| `Expressions.Partition` | presto-main/src/main/java/com/facebook/presto/sql/planner/optimizations/ScalarAggregationToJoinRewriter.java:246-249 | The two parts together are as long as the conjuncts. Every conjunct of the correlated part uses some correlation symbol (`isUsingPredicate`, :270-273), and no conjunct of the uncorrelated part uses one. |
| `Expressions.PartitionMembership` | presto-main/src/main/java/com/facebook/presto/sql/planner/optimizations/ScalarAggregationToJoinRewriter.java:270-273 | A conjunct is in the correlated part iff it uses some correlation symbol. It is in the uncorrelated part iff it uses none. |
| `Expressions.PartitionIsPermutation` | presto-main/src/main/java/com/facebook/presto/sql/planner/optimizations/ScalarAggregationToJoinRewriter.java:246-249 | The correlated part followed by the uncorrelated part is a permutation of the conjuncts. |
| `Expressions.PartitionAppend` | presto-main/src/main/java/com/facebook/presto/sql/planner/optimizations/ScalarAggregationToJoinRewriter.java:246-249 | Both parts distribute over concatenation, so each part keeps the conjuncts' order. |
| `Expressions.CorrelatedPartCoversCorrelation` | presto-main/src/main/java/com/facebook/presto/sql/planner/optimizations/ScalarAggregationToJoinRewriter.java:242-248 | When the predicate uses every correlation symbol, the correlated part mentions every correlation symbol too. |
| `Expressions.UncorrelatedPartIsClosed` | presto-main/src/main/java/com/facebook/presto/sql/planner/optimizations/ScalarAggregationToJoinRewriter.java:246-249 | No correlation symbol occurs in the uncorrelated part. |
| `Plan.Put` | presto-main/src/main/java/com/facebook/presto/sql/planner/optimizations/ScalarAggregationToJoinRewriter.java:91-94 | The builder's put succeeds iff the entries stay consistent (one expression per symbol). On success it keeps the old entries as a prefix, and the result is the old entries then the new one, each once, in insertion order. |
| `Plan.PutAll` | presto-main/src/main/java/com/facebook/presto/sql/planner/optimizations/ScalarAggregationToJoinRewriter.java:152-155 | The builder's putAll succeeds iff old and new entries together are consistent. On success the old entries are a prefix, and the result is the old entries followed by the new ones, each once, in insertion order. |
| `Plan.Identity` | presto-main/src/main/java/com/facebook/presto/sql/planner/optimizations/ScalarAggregationToJoinRewriter.java:92 | Identity assignments have the distinct symbols as keys, in first-seen order. Each symbol is mapped to a reference to itself. |
| `PlanSearch.FindFirst` | presto-main/src/main/java/com/facebook/presto/sql/planner/optimizations/ScalarAggregationToJoinRewriter.java:144-147 | findFirst is empty iff findAll is empty; otherwise it is the first element of findAll. |
| `PlanSearch.AtMostOneMatchThroughUnaryNodes` | presto-main/src/main/java/com/facebook/presto/sql/planner/optimizations/ScalarAggregationToJoinRewriter.java:222-233 | Searching for filters through projections finds at most one filter. |
| `PlanSearch.NoMatchUnchanged` | presto-main/src/main/java/com/facebook/presto/sql/planner/optimizations/ScalarAggregationToJoinRewriter.java:275-279 | When nothing matches, removeAll and replaceAll return the tree unchanged. |
| `PlanSearch.RemoveIsReplaceBySource` | presto-main/src/main/java/com/facebook/presto/sql/planner/optimizations/ScalarAggregationToJoinRewriter.java:277-278 | Removing the single match is the same as replacing it by its source. |
| `PlanSearch.ReplacementIsFound` | presto-main/src/main/java/com/facebook/presto/sql/planner/optimizations/ScalarAggregationToJoinRewriter.java:280-285 | After the single filter is replaced by a new filter, the search finds exactly the new filter. |
| `ExtendProjection.SymbolsToAdd` | presto-main/src/main/java/com/facebook/presto/sql/planner/optimizations/ScalarAggregationToJoinRewriter.java:357-360 | A symbol is added iff it is required, is an output of the rewritten source and is not yet an output of the projection. No symbol is added twice. |
| `ExtendProjection.WithIdentities` | presto-main/src/main/java/com/facebook/presto/sql/planner/optimizations/ScalarAggregationToJoinRewriter.java:362-365 | The old assignments are a prefix of the result. The new keys are the old keys followed by the added symbols, each as an identity. The referenced symbols grow by exactly the added ones. |
| `ExtendProjection.ExtendProjections` | presto-main/src/main/java/com/facebook/presto/sql/planner/optimizations/ScalarAggregationToJoinRewriter.java:352-368 | The rewritten tree has the same shape as the original. Every non-projection node keeps its id and all its fields over its rewritten sources. Every projection, at any depth, keeps every assignment in order and adds identity entries exactly for the required symbols its rewritten source outputs. Every projection id in the result is one the rewrite drew from the counter (between the counter's value before and after). |
| `ExtendProjection.OutputsArePreserved` | presto-main/src/main/java/com/facebook/presto/sql/planner/optimizations/ScalarAggregationToJoinRewriter.java:352-368 | Every output of a node is still an output after the rewrite. |
| `ExtendProjection.ReferencesAreBounded` | presto-main/src/main/java/com/facebook/presto/sql/planner/optimizations/ScalarAggregationToJoinRewriter.java:362-365 | The rewrite references no new symbol other than required ones. |
| `ExtendProjection.RequiredSymbolsSurvive` | presto-main/src/main/java/com/facebook/presto/sql/planner/optimizations/ScalarAggregationToJoinRewriter.java:288-295 | Take a required symbol produced anywhere down a chain of filters, projections, single-row checks and unique-id nodes. It is an output of the rewritten root. |
| `Decorrelation.CorrelatedPredicate` | presto-main/src/main/java/com/facebook/presto/sql/planner/optimizations/ScalarAggregationToJoinRewriter.java:326-332 | The join condition is absent iff there are no correlated conjuncts. Otherwise it mentions exactly their symbols. |
| `Decorrelation.CorrelatedPredicateRoundTrip` | presto-main/src/main/java/com/facebook/presto/sql/planner/optimizations/ScalarAggregationToJoinRewriter.java:331 | Splitting the join condition into conjuncts gives back exactly the correlated conjuncts. |
| `Decorrelation.Decorrelated` | presto-main/src/main/java/com/facebook/presto/sql/planner/optimizations/ScalarAggregationToJoinRewriter.java:257-268 | A result exists iff no correlation symbol is referenced anywhere in the subtree. The result carries the given conjuncts and node. |
| `Decorrelation.Filters` | presto-main/src/main/java/com/facebook/presto/sql/planner/optimizations/ScalarAggregationToJoinRewriter.java:222-225 | The filter search returns at most one node, and it is a filter. |
| `Decorrelation.UpdateFilterNode` | presto-main/src/main/java/com/facebook/presto/sql/planner/optimizations/ScalarAggregationToJoinRewriter.java:275-286 | With no uncorrelated conjuncts, the filter is replaced by its source and no id is used. Otherwise it is replaced by a filter with a fresh id over the same source, whose condition is the conjunction of those conjuncts, and the search then finds exactly that filter. |
| `Decorrelation.EnsureJoinSymbolsAreReturned` | presto-main/src/main/java/com/facebook/presto/sql/planner/optimizations/ScalarAggregationToJoinRewriter.java:288-295 | The result is the input with its projections extended for the join condition's symbols and nothing else changed (`ExtendProjection.Extended`). It references nothing beyond the original references and those symbols. Every join-condition symbol produced down a pass-through chain is an output of it. |
| `Decorrelation.SplitFilter` | presto-main/src/main/java/com/facebook/presto/sql/planner/optimizations/ScalarAggregationToJoinRewriter.java:246-252 | The split subtree is the subtree with its filter updated, with projections extended for the correlated conjuncts' symbols and nothing else changed. It references at most those symbols in addition, and outputs every one of them produced down a pass-through chain. |
| `Decorrelation.DecorrelateFilters` | presto-main/src/main/java/com/facebook/presto/sql/planner/optimizations/ScalarAggregationToJoinRewriter.java:220-255 | The outcomes are:<br>• no filter: a result iff the source is uncorrelated;<br>• a filter with an unsupported shape, or one that misses a correlation symbol: no result;<br>• an accepted filter: no result iff the split subtree still references a correlation symbol; otherwise the result is the split subtree with the correlated part of the filter's conjuncts, in order;<br>• any result: it is uncorrelated. |
| `Decorrelation.DecorrelatedFilterPredicates` | presto-main/src/main/java/com/facebook/presto/sql/planner/optimizations/ScalarAggregationToJoinRewriter.java:242-254 | After a successful decorrelation of a filter:<br>• the filter was accepted;<br>• the correlated conjuncts are exactly the filter's conjuncts that use a correlation symbol;<br>• none of them is an AND;<br>• together they mention every correlation symbol. |
| `Decorrelation.RemainingFilterIsUncorrelated` | presto-main/src/main/java/com/facebook/presto/sql/planner/optimizations/ScalarAggregationToJoinRewriter.java:275-286 | The filter left in place has the old filter's source. Its conjuncts are exactly the uncorrelated ones, and it mentions no correlation symbol. With no uncorrelated conjuncts, the filter is replaced by its source. |
| `Decorrelation.JoinPredicateOfFilter` | presto-main/src/main/java/com/facebook/presto/sql/planner/optimizations/ScalarAggregationToJoinRewriter.java:242-254 | When a filter was decorrelated and the correlation is non-empty, the join condition is present. Its conjuncts are exactly the filter's conjuncts that use a correlation symbol, and it mentions every correlation symbol. |
| `ScalarAggregationToJoin.NonNullProjection` | presto-main/src/main/java/com/facebook/presto/sql/planner/optimizations/ScalarAggregationToJoinRewriter.java:90-98 | The marker projection can be built iff `non_null` is not already an output. It passes every output through as an identity, once, then sets `non_null` to TRUE. |
| `ScalarAggregationToJoin.MarkerFits` | presto-main/src/main/java/com/facebook/presto/sql/planner/optimizations/ScalarAggregationToJoinRewriter.java:91-94 | The identity assignments and the marker are consistent iff the marker symbol is not among the outputs. |
| `ScalarAggregationToJoin.LeftOuterJoin` | presto-main/src/main/java/com/facebook/presto/sql/planner/optimizations/ScalarAggregationToJoinRewriter.java:115-133 | The join is LEFT with no equi-criteria and no hash or distribution settings. Its outputs are the outer input's outputs, then `unique`, then the right side's outputs. |
| `ScalarAggregationToJoin.RebuildAggregations` | presto-main/src/main/java/com/facebook/presto/sql/planner/optimizations/ScalarAggregationToJoinRewriter.java:187-207 | The aggregate symbols are the same, in the same order. Every `count` becomes `count(non_null)`, resolved for a boolean argument, with its mask kept. Every other aggregate is unchanged. |
| `ScalarAggregationToJoin.CreateAggregationNode` | presto-main/src/main/java/com/facebook/presto/sql/planner/optimizations/ScalarAggregationToJoinRewriter.java:182-218 | The aggregation is always produced, over the join. Its only grouping set is the outputs of the join's left side. Step and hash symbol are kept, and there is no group-id symbol. |
| `ScalarAggregationToJoin.AggregationOutputs` | presto-main/src/main/java/com/facebook/presto/sql/planner/optimizations/ScalarAggregationToJoinRewriter.java:209-217 | The rebuilt aggregation outputs the outer side's columns once each, then the hash symbol, then exactly the original aggregate symbols. |
| `ScalarAggregationToJoin.TruncatedAggregationSymbols` | presto-main/src/main/java/com/facebook/presto/sql/planner/optimizations/ScalarAggregationToJoinRewriter.java:174-180 | A symbol is kept iff the aggregation outputs it and the lateral join outputs it. |
| `ScalarAggregationToJoin.OuterColumnsComeFirst` | presto-main/src/main/java/com/facebook/presto/sql/planner/optimizations/ScalarAggregationToJoinRewriter.java:174-180 | This holds when `unique` is fresh and the outer columns are distinct. The truncated symbols are then the outer columns, unchanged and in order, followed by the hash and aggregate symbols the lateral join exposes, in order. |
| `ScalarAggregationToJoin.FinalAssignments` | presto-main/src/main/java/com/facebook/presto/sql/planner/optimizations/ScalarAggregationToJoinRewriter.java:149-171 | Without a subquery projection, the result is the identities alone. With one, it fails iff that projection assigns some truncated symbol anything but a reference to itself. Otherwise it is the identities followed by that projection's assignments, each once, in insertion order. |
| `ScalarAggregationToJoin.SubqueryProjection` | presto-main/src/main/java/com/facebook/presto/sql/planner/optimizations/ScalarAggregationToJoinRewriter.java:144-147 | The result is a projection. It is absent iff no projection is reachable through single-row checks. |
| `ScalarAggregationToJoin.BuildReplacement` | presto-main/src/main/java/com/facebook/presto/sql/planner/optimizations/ScalarAggregationToJoinRewriter.java:108-172 | On success the result, taking four ids bottom up, is a projection over an aggregation over a LEFT join:<br>• the join has no criteria, its left side is the unique-id node over the outer input, its right side is the given source and its filter is the given join expression; it outputs the outer columns, `unique`, then the source's outputs;<br>• the aggregation is grouped by the outer columns and `unique`, keeps step and hash symbol, and has the rebuilt aggregates;<br>• the projection has the final shape of `FinalProjection`.<br>A failure only happens when the subquery projection assigns a lateral-join column something other than itself. |
| `ScalarAggregationToJoin.RewriteScalarAggregation` | presto-main/src/main/java/com/facebook/presto/sql/planner/optimizations/ScalarAggregationToJoinRewriter.java:82-106 | Failure rule: when decorrelation yields nothing, the lateral join itself is returned. Each bail-out case is stated separately: unsupported or incomplete filter, correlated source without a filter, correlation left after the split. A `non_null` clash is a builder fault. |
| `ScalarAggregationToJoin.ReplacementShape` | presto-main/src/main/java/com/facebook/presto/sql/planner/optimizations/ScalarAggregationToJoinRewriter.java:82-133 | A replacement built over a decorrelated node has the shape Project over Aggregation over a LEFT Join with no criteria:<br>• the join's left side is the unique-id node over the outer input;<br>• its right side is the marker projection over the decorrelated node (uncorrelated, by `Decorrelation.DecorrelateFilters`);<br>• its outputs are the outer columns, then `unique`, then the right side's outputs;<br>• its condition is absent iff there are no correlated conjuncts, and otherwise has exactly their symbols;<br>• the aggregation is grouped by the left side, keeps step and hash, and has the original aggregate symbols. |
| `ScalarAggregationToJoin.FinalProjection` | presto-main/src/main/java/com/facebook/presto/sql/planner/optimizations/ScalarAggregationToJoinRewriter.java:144-171 | The final projection starts with identities for the truncated aggregation symbols, which are exactly those output by both the aggregation and the lateral join. Then come the subquery projection's assignments the identities do not already hold, in their order; with no subquery projection there is nothing more. |

## Left out

- **Function registry.** `FunctionRegistry.resolveFunction` and the type system are an uninterpreted function parameter. The `non_null` type is the constant boolean signature.
- **Allocators.** The symbol allocator and the plan-node id allocator are fresh-symbol parameters and a threaded id counter. Freshness is stated only where a property needs it.
- **Child references.** Resolving a child reference through Presto's `Lookup` (the plan memo's resolver) is the identity. The plan memo is not modelled.
- **Collaborators.** `PlanNodeSearcher`, `DependencyExtractor` and `ExpressionUtils` are not part of this model. They are re-specified minimally:
  - the search descends only through the skip-through kind;
  - a subtree's referenced symbols are those of every expression in it;
  - conjunct extraction flattens nested ANDs.
- **Combining conjuncts.** `combineConjuncts` is modelled as a right-nested AND (`Expressions.Conjoin`); the nesting is the model's choice. The properties used of it (its free symbols and the `Conjuncts` round trip) do not depend on the nesting. Its removal of duplicate conjuncts and TRUE literals is not modelled.
- **Plan node kinds.** Only the kinds the rewrite distinguishes are modelled. Every other leaf source is `TableScanNode`.
- **Row semantics.** Joins and aggregations are modelled structurally only, so properties such as "count yields 0 for an unmatched outer row" are not stated.
- **Null checks.** The constructors' null checks are Java null-safety plumbing and are not modelled.
- **More than one filter.** The filter search descends only through projections, which have a single source, so it finds at most one filter (`PlanSearch.AtMostOneMatchThroughUnaryNodes`). The "more than one filter" bail-out is therefore unreachable. The model keeps the branch but states no property about it.
- `ExtendProjection.SymbolsToAdd`: does not fix the order of the added identities to the source's order. The source iterates the set returned by `DependencyExtractor` (:290, :344), whose iteration order `ScalarAggregationToJoinRewriter` does not fix; the set's concrete class is outside this model. The model adds them in the order the rewritten source outputs them.
- `ExtendProjection.ExtendProjections`: states that every projection id in the result lies in the range the rewrite drew from the counter, but not that two projections never share an id, because the id set of a tree does not count repeats.
- `ScalarAggregationToJoin.BuildReplacement`: the source returns the lateral join when no aggregation is produced. `CreateAggregationNode` always produces one, so that exit is dead and is not modelled.
- **Shallow predicate check.** A stricter check that rejects an OR anywhere is not what the code does: `isSupportedPredicate` stops at the first logical node (:303-309). The model follows the code (`Expressions.NestedDisjunctionIsAccepted`).
