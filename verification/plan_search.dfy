/** The plan searcher: finds nodes of a target kind below a root, descending
    only through nodes of one "skip-through" kind, and rebuilds the tree with
    the matches replaced or removed. Child handles are resolved as direct
    children. */
module PlanSearch {
  import opened Wrappers
  import opened Plan

  /** Every match, in pre-order, left to right. A match is collected, and the
      search goes on below a node only if that node is of the skip-through kind. */
  function FindAll(n: PlanNode, where: NodeKind, skipOnly: NodeKind): (r: seq<PlanNode>)
    ensures forall i :: 0 <= i < |r| ==> Kind(r[i]) == where
  {
    (if Kind(n) == where then [n] else []) +
    if Kind(n) != skipOnly then []
    else
      match n
      case TableScanNode(_, _) => []
      case JoinNode(_, _, l, r, _, _, _, _, _, _) => FindAll(l, where, skipOnly) + FindAll(r, where, skipOnly)
      case LateralJoinNode(_, i, s, _, _) => FindAll(i, where, skipOnly) + FindAll(s, where, skipOnly)
      case _ => FindAll(n.source, where, skipOnly)
  }

  /** The first match, without looking below it. */
  function FindFirst(n: PlanNode, where: NodeKind, skipOnly: NodeKind): (r: Option<PlanNode>)
    ensures r.None? <==> FindAll(n, where, skipOnly) == []
    ensures r.Some? ==> r.value == FindAll(n, where, skipOnly)[0]
  {
    if Kind(n) == where then Some(n)
    else if Kind(n) != skipOnly then None
    else
      match n
      case TableScanNode(_, _) => None
      case JoinNode(_, _, l, r, _, _, _, _, _, _) =>
        var first := FindFirst(l, where, skipOnly);
        if first.Some? then first else FindFirst(r, where, skipOnly)
      case LateralJoinNode(_, i, s, _, _) =>
        var first := FindFirst(i, where, skipOnly);
        if first.Some? then first else FindFirst(s, where, skipOnly)
      case _ => FindFirst(n.source, where, skipOnly)
  }

  /** Every match replaced by `replacement`; the path above it is rebuilt with
      the same ids and fields. */
  function ReplaceAll(n: PlanNode, where: NodeKind, skipOnly: NodeKind, replacement: PlanNode): (r: PlanNode)
  {
    if Kind(n) == where then replacement
    else if Kind(n) != skipOnly then n
    else
      match n
      case TableScanNode(_, _) => n
      case JoinNode(_, _, l, r, _, _, _, _, _, _) =>
        n.(left := ReplaceAll(l, where, skipOnly, replacement), right := ReplaceAll(r, where, skipOnly, replacement))
      case LateralJoinNode(_, i, s, _, _) =>
        n.(input := ReplaceAll(i, where, skipOnly, replacement), subquery := ReplaceAll(s, where, skipOnly, replacement))
      case _ => WithSources(n, [ReplaceAll(n.source, where, skipOnly, replacement)])
  }

  /** Every match replaced by its only source. Removing a node of a kind
      without exactly one source is refused by the searcher, so the target
      kind must be a single-source kind. */
  function RemoveAll(n: PlanNode, where: NodeKind, skipOnly: NodeKind): (r: PlanNode)
    requires IsUnaryKind(where)
  {
    if Kind(n) == where then Sources(n)[0]
    else if Kind(n) != skipOnly then n
    else
      match n
      case TableScanNode(_, _) => n
      case JoinNode(_, _, l, r, _, _, _, _, _, _) =>
        n.(left := RemoveAll(l, where, skipOnly), right := RemoveAll(r, where, skipOnly))
      case LateralJoinNode(_, i, s, _, _) =>
        n.(input := RemoveAll(i, where, skipOnly), subquery := RemoveAll(s, where, skipOnly))
      case _ => WithSources(n, [RemoveAll(n.source, where, skipOnly)])
  }

  /** Through a chain of single-source nodes at most one match is ever found:
      a match that is not itself skip-through ends the descent. */
  lemma {:induction false} AtMostOneMatchThroughUnaryNodes(n: PlanNode, where: NodeKind, skipOnly: NodeKind)
    requires IsUnaryKind(skipOnly) && where != skipOnly
    ensures |FindAll(n, where, skipOnly)| <= 1
  {
    if Kind(n) != where && Kind(n) == skipOnly {
      assert |Sources(n)| == 1;
      AtMostOneMatchThroughUnaryNodes(n.source, where, skipOnly);
    }
  }

  /** Where nothing matches, replacing and removing leave the tree unchanged. */
  lemma {:induction false} NoMatchUnchanged(n: PlanNode, where: NodeKind, skipOnly: NodeKind, replacement: PlanNode)
    requires IsUnaryKind(where)
    requires FindAll(n, where, skipOnly) == []
    ensures ReplaceAll(n, where, skipOnly, replacement) == n
    ensures RemoveAll(n, where, skipOnly) == n
  {
    if Kind(n) == skipOnly {
      match n
      case TableScanNode(_, _) =>
      case JoinNode(_, _, l, r, _, _, _, _, _, _) =>
        NoMatchUnchanged(l, where, skipOnly, replacement);
        NoMatchUnchanged(r, where, skipOnly, replacement);
      case LateralJoinNode(_, i, s, _, _) =>
        NoMatchUnchanged(i, where, skipOnly, replacement);
        NoMatchUnchanged(s, where, skipOnly, replacement);
      case _ =>
        NoMatchUnchanged(n.source, where, skipOnly, replacement);
    }
  }

  /** Removing the single match is the same as replacing it by its source. */
  lemma {:induction false} RemoveIsReplaceBySource(n: PlanNode, where: NodeKind, skipOnly: NodeKind, m: PlanNode)
    requires IsUnaryKind(where) && Kind(m) == where
    requires FindAll(n, where, skipOnly) == [m]
    ensures RemoveAll(n, where, skipOnly) == ReplaceAll(n, where, skipOnly, Sources(m)[0])
  {
    var source := Sources(m)[0];
    if Kind(n) == where {
      assert FindAll(n, where, skipOnly)[0] == n;
    } else if Kind(n) == skipOnly {
      match n
      case TableScanNode(_, _) =>
      case JoinNode(_, _, l, r, _, _, _, _, _, _) =>
        if FindAll(l, where, skipOnly) == [] {
          NoMatchUnchanged(l, where, skipOnly, source);
          RemoveIsReplaceBySource(r, where, skipOnly, m);
        } else {
          assert FindAll(r, where, skipOnly) == [];
          NoMatchUnchanged(r, where, skipOnly, source);
          RemoveIsReplaceBySource(l, where, skipOnly, m);
        }
      case LateralJoinNode(_, i, s, _, _) =>
        if FindAll(i, where, skipOnly) == [] {
          NoMatchUnchanged(i, where, skipOnly, source);
          RemoveIsReplaceBySource(s, where, skipOnly, m);
        } else {
          assert FindAll(s, where, skipOnly) == [];
          NoMatchUnchanged(s, where, skipOnly, source);
          RemoveIsReplaceBySource(i, where, skipOnly, m);
        }
      case _ =>
        RemoveIsReplaceBySource(n.source, where, skipOnly, m);
    }
  }

  /** After replacing the single match by a node of the target kind that is
      not skip-through, the search finds exactly that node. */
  lemma {:induction false} ReplacementIsFound(n: PlanNode, where: NodeKind, skipOnly: NodeKind, m: PlanNode, replacement: PlanNode)
    requires IsUnaryKind(skipOnly) && where != skipOnly
    requires FindAll(n, where, skipOnly) == [m]
    requires Kind(replacement) == where
    ensures FindAll(ReplaceAll(n, where, skipOnly, replacement), where, skipOnly) == [replacement]
  {
    if Kind(n) != where {
      assert Kind(n) == skipOnly;
      assert |Sources(n)| == 1;
      ReplacementIsFound(n.source, where, skipOnly, m, replacement);
      var rewritten := ReplaceAll(n.source, where, skipOnly, replacement);
      assert ReplaceAll(n, where, skipOnly, replacement) == WithSources(n, [rewritten]);
      assert WithSources(n, [rewritten]).source == rewritten;
    }
  }
}
