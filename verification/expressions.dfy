/** The expression language the rewrite inspects: symbol references, literals,
    function calls (comparisons and NOT are calls too) and AND/OR nodes, with
    the free-symbol, conjunct and predicate-shape helpers built on them. */
module Expressions {

  /** A plan symbol: a column name unique within a plan. */
  datatype Symbol = Symbol(name: string)

  datatype LogicalOperator = And | Or

  datatype Literal =
    | BooleanLiteral(b: bool)
    | LongLiteral(n: int)
    | StringLiteral(s: string)
    | NullLiteral

  datatype Expr =
    | SymbolReference(symbol: Symbol)
    | LiteralExpr(literal: Literal)
    | FunctionCall(name: string, arguments: seq<Expr>)
    | LogicalBinary(operator: LogicalOperator, left: Expr, right: Expr)

  const TrueLiteral: Expr := LiteralExpr(BooleanLiteral(true))

  // ---------------------------------------------------------------------------
  // Free symbols (the symbol-reference extraction of an expression)
  // ---------------------------------------------------------------------------

  /** Every symbol referenced anywhere in `e`. */
  function SymbolsOf(e: Expr): set<Symbol>
  {
    match e
    case SymbolReference(s) => {s}
    case LiteralExpr(_) => {}
    case FunctionCall(_, args) => set i, s | 0 <= i < |args| && s in SymbolsOf(args[i]) :: s
    case LogicalBinary(_, l, r) => SymbolsOf(l) + SymbolsOf(r)
  }

  /** Every symbol referenced by some expression of `es`. */
  function SymbolsOfAll(es: seq<Expr>): set<Symbol>
  {
    set i, s | 0 <= i < |es| && s in SymbolsOf(es[i]) :: s
  }

  lemma SymbolsOfAllSingleton(e: Expr)
    ensures SymbolsOfAll([e]) == SymbolsOf(e)
  {
    assert [e][0] == e;
  }

  lemma SymbolsOfAllAppend(a: seq<Expr>, b: seq<Expr>)
    ensures SymbolsOfAll(a + b) == SymbolsOfAll(a) + SymbolsOfAll(b)
  {
    forall s | s in SymbolsOfAll(a + b)
      ensures s in SymbolsOfAll(a) + SymbolsOfAll(b)
    {
      var i :| 0 <= i < |a + b| && s in SymbolsOf((a + b)[i]);
      if i < |a| {
        assert (a + b)[i] == a[i];
      } else {
        assert (a + b)[i] == b[i - |a|];
      }
    }
    forall s | s in SymbolsOfAll(a) + SymbolsOfAll(b)
      ensures s in SymbolsOfAll(a + b)
    {
      if s in SymbolsOfAll(a) {
        var i :| 0 <= i < |a| && s in SymbolsOf(a[i]);
        assert (a + b)[i] == a[i];
      } else {
        var i :| 0 <= i < |b| && s in SymbolsOf(b[i]);
        assert (a + b)[|a| + i] == b[i];
      }
    }
  }

  /** True when some symbol of `symbols` occurs free in `e`. */
  predicate UsesAny(symbols: seq<Symbol>, e: Expr)
  {
    exists i :: 0 <= i < |symbols| && symbols[i] in SymbolsOf(e)
  }

  /** True when every symbol of `symbols` occurs free in `e`. */
  predicate UsesAll(symbols: seq<Symbol>, e: Expr)
  {
    forall i :: 0 <= i < |symbols| ==> symbols[i] in SymbolsOf(e)
  }

  // ---------------------------------------------------------------------------
  // Conjuncts
  // ---------------------------------------------------------------------------

  predicate IsConjunction(e: Expr)
  {
    e.LogicalBinary? && e.operator == And
  }

  /** The top-level conjuncts of `e`: AND nodes are flattened, left to right;
      anything else is a single conjunct. */
  function Conjuncts(e: Expr): (r: seq<Expr>)
    ensures |r| > 0
    ensures forall i :: 0 <= i < |r| ==> !IsConjunction(r[i])
    ensures SymbolsOfAll(r) == SymbolsOf(e)
  {
    if IsConjunction(e) then
      var l := Conjuncts(e.left);
      var r := Conjuncts(e.right);
      SymbolsOfAllAppend(l, r);
      l + r
    else
      SymbolsOfAllSingleton(e);
      [e]
  }

  /** The conjunction of a non-empty list of expressions, nested to the right. */
  function Conjoin(es: seq<Expr>): (r: Expr)
    requires |es| > 0
    ensures SymbolsOf(r) == SymbolsOfAll(es)
  {
    if |es| == 1 then
      assert es == [es[0]];
      SymbolsOfAllSingleton(es[0]);
      es[0]
    else
      var rest := Conjoin(es[1..]);
      assert es == [es[0]] + es[1..];
      SymbolsOfAllAppend([es[0]], es[1..]);
      SymbolsOfAllSingleton(es[0]);
      LogicalBinary(And, es[0], rest)
  }

  /** Splitting a conjunction of non-AND expressions gives back exactly those
      expressions, in order. */
  lemma {:induction false} ConjunctsOfConjoin(es: seq<Expr>)
    requires |es| > 0
    requires forall i :: 0 <= i < |es| ==> !IsConjunction(es[i])
    ensures Conjuncts(Conjoin(es)) == es
  {
    if |es| > 1 {
      ConjunctsOfConjoin(es[1..]);
      assert !IsConjunction(es[0]);
      assert es == [es[0]] + es[1..];
    }
  }

  // ---------------------------------------------------------------------------
  // Predicate shape
  // ---------------------------------------------------------------------------

  /** The shape check applied to a correlated filter predicate. Every node is
      visited from the root down, except that a logical node is never
      descended into: the outermost logical node on each path must be an AND,
      and whatever lies below it is not inspected. Only a predicate with an OR
      somewhere can fail it. */
  predicate IsSupportedPredicate(e: Expr): (r: bool)
    ensures !r ==> ContainsDisjunction(e)
  {
    match e
    case LogicalBinary(op, _, _) => op == And
    case FunctionCall(_, args) => forall i :: 0 <= i < |args| ==> IsSupportedPredicate(args[i])
    case _ => true
  }

  /** True when an OR node occurs anywhere in `e`. */
  predicate ContainsDisjunction(e: Expr)
  {
    match e
    case LogicalBinary(op, l, r) => op == Or || ContainsDisjunction(l) || ContainsDisjunction(r)
    case FunctionCall(_, args) => exists i :: 0 <= i < |args| && ContainsDisjunction(args[i])
    case _ => false
  }

  /** An OR that is not below another logical node fails the shape check,
      wherever it sits among function-call arguments. */
  lemma {:induction false} ExposedDisjunctionIsRejected(e: Expr, path: seq<nat>)
    requires ExposedDisjunctionAt(e, path)
    ensures !IsSupportedPredicate(e)
    decreases |path|
  {
    if path != [] {
      ExposedDisjunctionIsRejected(e.arguments[path[0]], path[1..]);
    }
  }

  /** Conversely, a predicate the check rejects has an OR that is not below
      another logical node: together with `ExposedDisjunctionIsRejected`, the
      check fails exactly on such predicates. */
  lemma {:induction false} RejectedHasExposedDisjunction(e: Expr)
    requires !IsSupportedPredicate(e)
    ensures exists path :: ExposedDisjunctionAt(e, path)
  {
    if e.FunctionCall? {
      var i :| 0 <= i < |e.arguments| && !IsSupportedPredicate(e.arguments[i]);
      RejectedHasExposedDisjunction(e.arguments[i]);
      var path :| ExposedDisjunctionAt(e.arguments[i], path);
      assert ([i] + path)[1..] == path;
      assert ExposedDisjunctionAt(e, [i] + path);
    } else {
      assert ExposedDisjunctionAt(e, []);
    }
  }

  /** Following `path` through function-call arguments from `e` reaches an OR
      node, and no logical node lies on the way. */
  predicate ExposedDisjunctionAt(e: Expr, path: seq<nat>)
    decreases |path|
  {
    if path == [] then e.LogicalBinary? && e.operator == Or
    else e.FunctionCall? && path[0] < |e.arguments| && ExposedDisjunctionAt(e.arguments[path[0]], path[1..])
  }

  /** The check is shallow: an OR nested below an AND is accepted. */
  lemma NestedDisjunctionIsAccepted(a: Expr, b: Expr, c: Expr)
    ensures var e := LogicalBinary(And, LogicalBinary(Or, a, b), c);
      IsSupportedPredicate(e) && ContainsDisjunction(e)
  {
  }

  // ---------------------------------------------------------------------------
  // Partition of conjuncts by correlation
  // ---------------------------------------------------------------------------

  datatype Partitioned = Partitioned(correlated: seq<Expr>, uncorrelated: seq<Expr>)

  /** Splits conjuncts into those that use some correlation symbol and those
      that use none, keeping the input order within each part. */
  function Partition(conjuncts: seq<Expr>, correlation: seq<Symbol>): (r: Partitioned)
    ensures |r.correlated| + |r.uncorrelated| == |conjuncts|
    ensures forall i :: 0 <= i < |r.correlated| ==> UsesAny(correlation, r.correlated[i])
    ensures forall i :: 0 <= i < |r.uncorrelated| ==> !UsesAny(correlation, r.uncorrelated[i])
  {
    if conjuncts == [] then Partitioned([], [])
    else
      var e := conjuncts[0];
      var rest := Partition(conjuncts[1..], correlation);
      assert conjuncts == [e] + conjuncts[1..];
      if UsesAny(correlation, e) then Partitioned([e] + rest.correlated, rest.uncorrelated)
      else Partitioned(rest.correlated, [e] + rest.uncorrelated)
  }

  /** A conjunct lands in the correlated part exactly when it uses some
      correlation symbol, and in the uncorrelated part exactly when it uses none. */
  lemma {:induction false} PartitionMembership(conjuncts: seq<Expr>, correlation: seq<Symbol>)
    ensures var p := Partition(conjuncts, correlation);
      && (forall e :: e in p.correlated <==> e in conjuncts && UsesAny(correlation, e))
      && (forall e :: e in p.uncorrelated <==> e in conjuncts && !UsesAny(correlation, e))
  {
    if conjuncts != [] {
      PartitionMembership(conjuncts[1..], correlation);
      PartitionStep(conjuncts, correlation);
      assert conjuncts == [conjuncts[0]] + conjuncts[1..];
    }
  }

  /** The two parts together are a permutation of the conjuncts: nothing is
      lost or duplicated. */
  lemma {:induction false} PartitionIsPermutation(conjuncts: seq<Expr>, correlation: seq<Symbol>)
    ensures var p := Partition(conjuncts, correlation);
      multiset(p.correlated + p.uncorrelated) == multiset(conjuncts)
  {
    if conjuncts != [] {
      var e, tail := conjuncts[0], conjuncts[1..];
      var rest := Partition(tail, correlation);
      PartitionIsPermutation(tail, correlation);
      PartitionStep(conjuncts, correlation);
      assert conjuncts == [e] + tail;
      MultisetCons(e, rest.correlated, rest.uncorrelated);
    }
  }

  lemma MultisetCons(e: Expr, a: seq<Expr>, b: seq<Expr>)
    ensures multiset(([e] + a) + b) == multiset([e]) + multiset(a + b)
    ensures multiset(a + ([e] + b)) == multiset([e]) + multiset(a + b)
  {
  }

  /** One unfolding of `Partition` on a non-empty list. */
  lemma PartitionStep(es: seq<Expr>, correlation: seq<Symbol>)
    requires es != []
    ensures var rest := Partition(es[1..], correlation);
      Partition(es, correlation)
        == if UsesAny(correlation, es[0]) then Partitioned([es[0]] + rest.correlated, rest.uncorrelated)
           else Partitioned(rest.correlated, [es[0]] + rest.uncorrelated)
  {
  }

  /** Partitioning is compositional, so each part keeps the input order. */
  lemma {:induction false} PartitionAppend(a: seq<Expr>, b: seq<Expr>, correlation: seq<Symbol>)
    ensures Partition(a + b, correlation).correlated
         == Partition(a, correlation).correlated + Partition(b, correlation).correlated
    ensures Partition(a + b, correlation).uncorrelated
         == Partition(a, correlation).uncorrelated + Partition(b, correlation).uncorrelated
  {
    if a == [] {
      assert a + b == b;
    } else {
      var ab := a + b;
      assert ab[1..] == a[1..] + b;
      assert ab[0] == a[0];
      PartitionAppend(a[1..], b, correlation);
      PartitionStep(a, correlation);
      PartitionStep(ab, correlation);
      var x, y, z := Partition(a[1..], correlation), Partition(b, correlation), Partition(ab[1..], correlation);
      assert z.correlated == x.correlated + y.correlated;
      assert z.uncorrelated == x.uncorrelated + y.uncorrelated;
      if UsesAny(correlation, a[0]) {
        assert [a[0]] + z.correlated == ([a[0]] + x.correlated) + y.correlated;
      } else {
        assert [a[0]] + z.uncorrelated == ([a[0]] + x.uncorrelated) + y.uncorrelated;
      }
    }
  }

  /** When the predicate uses every correlation symbol, the correlated part
      still mentions every one of them: the join condition built from it
      captures the whole correlation. */
  lemma CorrelatedPartCoversCorrelation(condition: Expr, correlation: seq<Symbol>)
    requires UsesAll(correlation, condition)
    ensures forall i :: 0 <= i < |correlation| ==>
      correlation[i] in SymbolsOfAll(Partition(Conjuncts(condition), correlation).correlated)
  {
    var conjuncts := Conjuncts(condition);
    var p := Partition(conjuncts, correlation);
    PartitionMembership(conjuncts, correlation);
    forall i | 0 <= i < |correlation|
      ensures correlation[i] in SymbolsOfAll(p.correlated)
    {
      var c := correlation[i];
      assert c in SymbolsOfAll(conjuncts);
      var k :| 0 <= k < |conjuncts| && c in SymbolsOf(conjuncts[k]);
      assert UsesAny(correlation, conjuncts[k]);
      assert conjuncts[k] in p.correlated;
      var j :| 0 <= j < |p.correlated| && p.correlated[j] == conjuncts[k];
    }
  }

  /** No correlation symbol occurs in the uncorrelated part, so the filter that
      keeps it is free of the correlation. */
  lemma UncorrelatedPartIsClosed(conjuncts: seq<Expr>, correlation: seq<Symbol>)
    ensures forall i :: 0 <= i < |correlation| ==>
      correlation[i] !in SymbolsOfAll(Partition(conjuncts, correlation).uncorrelated)
  {
    var p := Partition(conjuncts, correlation);
    forall i, k | 0 <= i < |correlation| && 0 <= k < |p.uncorrelated|
      ensures correlation[i] !in SymbolsOf(p.uncorrelated[k])
    {
      assert !UsesAny(correlation, p.uncorrelated[k]);
    }
  }
}
