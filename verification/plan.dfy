/** Plan nodes, their assignments and aggregations, and the structural
    queries the rewrite needs: output symbols, sources, node kinds and the
    symbols referenced by the expressions of a subtree. */
module Plan {
  import opened Seqs
  import opened Wrappers
  import opened Expressions

  type PlanNodeId = nat

  datatype JoinType = Inner | Left | Right | Full

  datatype LateralJoinType = LateralInner | LateralLeft

  datatype DistributionType = Partitioned | Replicated

  datatype AggregationStep = Single | Partial | Intermediate | Final

  datatype TypeSignature = TypeSignature(base: string)

  /** A resolved function: name, argument types and return type. */
  datatype Signature = Signature(name: string, argumentTypes: seq<TypeSignature>, returnType: TypeSignature)

  // ---------------------------------------------------------------------------
  // Assignments: an insertion-ordered map from symbols to expressions
  // ---------------------------------------------------------------------------

  datatype Assignment = Assignment(symbol: Symbol, expression: Expr)

  function Keys(a: seq<Assignment>): seq<Symbol>
  {
    seq(|a|, i requires 0 <= i < |a| => a[i].symbol)
  }

  function AssignedExpressions(a: seq<Assignment>): seq<Expr>
  {
    seq(|a|, i requires 0 <= i < |a| => a[i].expression)
  }

  /** Assignments never repeat a symbol. */
  type Assignments = a: seq<Assignment> | NoDuplicates(Keys(a)) witness []

  /** No two entries give the same symbol different expressions. */
  predicate Consistent(c: seq<Assignment>)
  {
    forall x, y :: x in c && y in c && x.symbol == y.symbol ==> x == y
  }

  lemma AssignmentsAreConsistent(a: Assignments)
    ensures Consistent(a)
  {
    forall x, y | x in a && y in a && x.symbol == y.symbol
      ensures x == y
    {
      var i :| 0 <= i < |a| && a[i] == x;
      var j :| 0 <= j < |a| && a[j] == y;
      assert Keys(a)[i] == Keys(a)[j];
    }
  }

  /** Distinct symbols make distinct entries. */
  lemma AssignmentsAreDistinct(a: Assignments)
    ensures NoDuplicates(a)
  {
    forall i, j | 0 <= i < j < |a| ensures a[i] != a[j] {
      assert Keys(a)[i] != Keys(a)[j];
    }
  }

  /** De-duplicating assignments and one more entry keeps the assignments
      and appends the entry when it is new. */
  lemma DedupAssignments(a: Assignments, x: Assignment)
    ensures Dedup(a + [x]) == if x in a then a else a + [x]
  {
    AssignmentsAreDistinct(a);
    DedupSnoc(a, x);
  }

  /** The expression assigned to `s`, if any. */
  function AssignedTo(a: seq<Assignment>, s: Symbol): (r: Option<Expr>)
    ensures r.None? <==> s !in Keys(a)
    ensures r.Some? ==> Assignment(s, r.value) in a
  {
    if a == [] then None
    else
      assert Keys(a) == [a[0].symbol] + Keys(a[1..]);
      if a[0].symbol == s then Some(a[0].expression) else AssignedTo(a[1..], s)
  }

  /** The assignments builder's `put`: a new symbol is appended; re-putting a
      symbol with the expression it already has changes nothing; re-putting it
      with a different expression is a builder fault (None). */
  function Put(a: Assignments, x: Assignment): (r: Option<Assignments>)
    ensures r.Some? <==> Consistent(a + [x])
    ensures r.Some? ==> a <= r.value && r.value == Dedup(a + [x])
  {
    PutCases(a, x);
    match AssignedTo(a, x.symbol)
    case None => Some(a + [x])
    case Some(e) => if e == x.expression then Some(a) else None
  }

  /** The three outcomes of `Put`, by what `a` already assigns to the symbol. */
  lemma PutCases(a: Assignments, x: Assignment)
    ensures AssignedTo(a, x.symbol).None? ==> Consistent(a + [x]) && Dedup(a + [x]) == a + [x]
    ensures AssignedTo(a, x.symbol) == Some(x.expression) ==> Consistent(a + [x]) && Dedup(a + [x]) == a
    ensures AssignedTo(a, x.symbol).Some? && AssignedTo(a, x.symbol) != Some(x.expression) ==> !Consistent(a + [x])
  {
    match AssignedTo(a, x.symbol)
    case None => PutNew(a, x);
    case Some(e) =>
      if e == x.expression {
        assert x in a;
        AssignmentsAreConsistent(a);
        DedupAssignments(a, x);
      } else {
        assert Assignment(x.symbol, e) in a + [x] && x in a + [x];
      }
  }

  /** An entry for a symbol `a` does not assign is appended. */
  lemma PutNew(a: Assignments, x: Assignment)
    requires x.symbol !in Keys(a)
    ensures Consistent(a + [x]) && Dedup(a + [x]) == a + [x]
  {
    AssignmentsAreConsistent(a);
    forall y | y in a
      ensures y.symbol != x.symbol
    {
      var i :| 0 <= i < |a| && a[i] == y;
      assert Keys(a)[i] == y.symbol;
    }
    DedupAssignments(a, x);
  }

  /** The builder's `putAll`: puts every entry of `xs`, in order. It succeeds
      exactly when `a` and `xs` together never give one symbol two different
      expressions, and then holds the entries of `a` followed by those of `xs`,
      each once, in first-seen order. */
  function PutAll(a: Assignments, xs: seq<Assignment>): (r: Option<Assignments>)
    ensures r.Some? <==> Consistent(a + xs)
    ensures r.Some? ==> a <= r.value && r.value == Dedup(a + xs)
    decreases |xs|
  {
    if xs == [] then
      PutNothing(a, xs);
      Some(a)
    else
      PutAllStep(a, xs);
      match Put(a, xs[0])
      case None => None
      case Some(b) => PutAll(b, xs[1..])
  }

  lemma PutNothing(a: Assignments, xs: seq<Assignment>)
    requires xs == []
    ensures Consistent(a + xs) && Dedup(a + xs) == a
  {
    assert a + xs == a;
    AssignmentsAreConsistent(a);
    AssignmentsAreDistinct(a);
  }

  /** Putting the first entry, then the rest, is putting them all. */
  lemma PutAllStep(a: Assignments, xs: seq<Assignment>)
    requires xs != []
    ensures !Consistent(a + [xs[0]]) ==> !Consistent(a + xs)
    ensures Put(a, xs[0]).Some? ==>
      var b := Put(a, xs[0]).value;
      && (Consistent(b + xs[1..]) <==> Consistent(a + xs))
      && Dedup(b + xs[1..]) == Dedup(a + xs)
  {
    assert xs == [xs[0]] + xs[1..];
    assert (a + [xs[0]]) + xs[1..] == a + xs;
    assert forall y :: y in a + [xs[0]] ==> y in a + xs;
    if Put(a, xs[0]).Some? {
      var b := Put(a, xs[0]).value;
      DedupPrefix(a + [xs[0]], xs[1..]);
      assert forall y :: y in b + xs[1..] <==> y in a + xs;
    }
  }

  /** Putting one entry whose symbol is new appends it. */
  lemma PutAllFresh(a: Assignments, x: Assignment)
    requires x.symbol !in Keys(a)
    ensures PutAll(a, [x]).Some? && PutAll(a, [x]).value == a + [x]
  {
    assert Put(a, x) == Some(a + [x]);
    assert [x][1..] == [];
  }

  /** Identity assignments `s := s` for each distinct symbol, in first-seen order. */
  function Identity(symbols: seq<Symbol>): (r: Assignments)
    ensures Keys(r) == Dedup(symbols)
    ensures forall i :: 0 <= i < |r| ==> r[i].expression == SymbolReference(r[i].symbol)
  {
    var d := Dedup(symbols);
    var r := seq(|d|, i requires 0 <= i < |d| => Assignment(d[i], SymbolReference(d[i])));
    assert Keys(r) == d;
    r
  }

  // ---------------------------------------------------------------------------
  // Aggregations
  // ---------------------------------------------------------------------------

  /** One aggregate of an aggregation node: the call, its resolved signature
      and an optional mask symbol. */
  datatype Aggregation = Aggregation(callName: string, callArguments: seq<Expr>, signature: Signature, mask: Option<Symbol>)

  datatype AggregationEntry = AggregationEntry(symbol: Symbol, aggregation: Aggregation)

  function AggregationSymbols(a: seq<AggregationEntry>): seq<Symbol>
  {
    seq(|a|, i requires 0 <= i < |a| => a[i].symbol)
  }

  /** The aggregations of a node form a map: no output symbol twice. */
  type Aggregations = a: seq<AggregationEntry> | NoDuplicates(AggregationSymbols(a)) witness []

  /** The aggregate calls, as expressions. */
  function AggregationCalls(a: seq<AggregationEntry>): seq<Expr>
  {
    seq(|a|, i requires 0 <= i < |a| => FunctionCall(a[i].aggregation.callName, a[i].aggregation.callArguments))
  }

  /** The distinct grouping keys of all grouping sets, in first-seen order. */
  function GroupingKeys(groupingSets: seq<seq<Symbol>>): seq<Symbol>
  {
    Dedup(Flatten(groupingSets))
  }

  function Flatten(ss: seq<seq<Symbol>>): seq<Symbol>
  {
    if ss == [] then [] else ss[0] + Flatten(ss[1..])
  }

  // ---------------------------------------------------------------------------
  // Plan nodes
  // ---------------------------------------------------------------------------

  datatype EquiJoinClause = EquiJoinClause(left: Symbol, right: Symbol)

  /** The plan node kinds the rewrite distinguishes. `TableScanNode` stands
      for any leaf source. */
  datatype PlanNode =
    | TableScanNode(id: PlanNodeId, outputs: seq<Symbol>)
    | FilterNode(id: PlanNodeId, source: PlanNode, condition: Expr)
    | ProjectNode(id: PlanNodeId, source: PlanNode, assignments: Assignments)
    | AggregationNode(id: PlanNodeId, source: PlanNode, aggregations: Aggregations,
                      groupingSets: seq<seq<Symbol>>, step: AggregationStep,
                      hashSymbol: Option<Symbol>, groupIdSymbol: Option<Symbol>)
    | JoinNode(id: PlanNodeId, joinType: JoinType, left: PlanNode, right: PlanNode,
               criteria: seq<EquiJoinClause>, outputs: seq<Symbol>, filter: Option<Expr>,
               leftHashSymbol: Option<Symbol>, rightHashSymbol: Option<Symbol>,
               distributionType: Option<DistributionType>)
    | AssignUniqueIdNode(id: PlanNodeId, source: PlanNode, idColumn: Symbol)
    | EnforceSingleRowNode(id: PlanNodeId, source: PlanNode)
    | LateralJoinNode(id: PlanNodeId, input: PlanNode, subquery: PlanNode,
                      correlation: seq<Symbol>, lateralType: LateralJoinType)

  datatype NodeKind =
    | TableScanKind | FilterKind | ProjectKind | AggregationKind | JoinKind
    | AssignUniqueIdKind | EnforceSingleRowKind | LateralJoinKind

  function Kind(n: PlanNode): NodeKind
  {
    match n
    case TableScanNode(_, _) => TableScanKind
    case FilterNode(_, _, _) => FilterKind
    case ProjectNode(_, _, _) => ProjectKind
    case AggregationNode(_, _, _, _, _, _, _) => AggregationKind
    case JoinNode(_, _, _, _, _, _, _, _, _, _) => JoinKind
    case AssignUniqueIdNode(_, _, _) => AssignUniqueIdKind
    case EnforceSingleRowNode(_, _) => EnforceSingleRowKind
    case LateralJoinNode(_, _, _, _, _) => LateralJoinKind
  }

  /** The kinds whose nodes have exactly one source. */
  predicate IsUnaryKind(k: NodeKind)
  {
    k in {FilterKind, ProjectKind, AggregationKind, AssignUniqueIdKind, EnforceSingleRowKind}
  }

  function Sources(n: PlanNode): (r: seq<PlanNode>)
    ensures IsUnaryKind(Kind(n)) <==> |r| == 1
  {
    match n
    case TableScanNode(_, _) => []
    case JoinNode(_, _, l, r, _, _, _, _, _, _) => [l, r]
    case LateralJoinNode(_, i, s, _, _) => [i, s]
    case _ => [n.source]
  }

  /** The same node over new sources (every other field, the id included, is kept). */
  function WithSources(n: PlanNode, sources: seq<PlanNode>): (r: PlanNode)
    requires |sources| == |Sources(n)|
    ensures Kind(r) == Kind(n) && Sources(r) == sources
  {
    match n
    case TableScanNode(_, _) => n
    case JoinNode(_, _, _, _, _, _, _, _, _, _) => n.(left := sources[0], right := sources[1])
    case LateralJoinNode(_, _, _, _, _) => n.(input := sources[0], subquery := sources[1])
    case FilterNode(id, _, condition) => FilterNode(id, sources[0], condition)
    case ProjectNode(id, _, assignments) => ProjectNode(id, sources[0], assignments)
    case AggregationNode(id, _, aggregations, groupingSets, step, hashSymbol, groupIdSymbol) =>
      AggregationNode(id, sources[0], aggregations, groupingSets, step, hashSymbol, groupIdSymbol)
    case AssignUniqueIdNode(id, _, idColumn) => AssignUniqueIdNode(id, sources[0], idColumn)
    case EnforceSingleRowNode(id, _) => EnforceSingleRowNode(id, sources[0])
  }

  function OptionalSymbol(s: Option<Symbol>): seq<Symbol>
  {
    if s.Some? then [s.value] else []
  }

  /** The symbols a node produces, in order. */
  function OutputSymbols(n: PlanNode): seq<Symbol>
  {
    match n
    case TableScanNode(_, outputs) => outputs
    case FilterNode(_, source, _) => OutputSymbols(source)
    case ProjectNode(_, _, assignments) => Keys(assignments)
    case AggregationNode(_, _, aggregations, groupingSets, _, hashSymbol, _) =>
      GroupingKeys(groupingSets) + OptionalSymbol(hashSymbol) + AggregationSymbols(aggregations)
    case JoinNode(_, _, _, _, _, outputs, _, _, _, _) => outputs
    case AssignUniqueIdNode(_, source, idColumn) => OutputSymbols(source) + [idColumn]
    case EnforceSingleRowNode(_, source) => OutputSymbols(source)
    case LateralJoinNode(_, input, subquery, _, _) => OutputSymbols(input) + OutputSymbols(subquery)
  }

  /** The expressions a node itself carries. */
  function NodeExpressions(n: PlanNode): seq<Expr>
  {
    match n
    case FilterNode(_, _, condition) => [condition]
    case ProjectNode(_, _, assignments) => AssignedExpressions(assignments)
    case AggregationNode(_, _, aggregations, _, _, _, _) => AggregationCalls(aggregations)
    case JoinNode(_, _, _, _, _, _, filter, _, _, _) => if filter.Some? then [filter.value] else []
    case _ => []
  }

  /** Every symbol referenced by an expression anywhere in the subtree. */
  function References(n: PlanNode): set<Symbol>
  {
    SymbolsOfAll(NodeExpressions(n)) +
    match n
    case TableScanNode(_, _) => {}
    case JoinNode(_, _, l, r, _, _, _, _, _, _) => References(l) + References(r)
    case LateralJoinNode(_, i, s, _, _) => References(i) + References(s)
    case _ => References(n.source)
  }

  /** True when some symbol of `correlation` is referenced in the subtree. */
  predicate IsCorrelated(n: PlanNode, correlation: seq<Symbol>)
  {
    exists i :: 0 <= i < |correlation| && correlation[i] in References(n)
  }
}
