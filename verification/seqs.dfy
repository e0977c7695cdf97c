/** Small sequence helpers shared by the plan model. */
module Seqs {

  /** No element occurs twice. */
  predicate NoDuplicates<T(==)>(s: seq<T>)
  {
    forall i, j :: 0 <= i < j < |s| ==> s[i] != s[j]
  }

  /** The elements of a sequence, as a set. */
  function Elements<T>(s: seq<T>): set<T>
  {
    set x | x in s
  }

  /** Keeps the first occurrence of every element, in order (what an
      insertion-ordered set or map builder does with repeated keys). */
  function Dedup<T(==, !new)>(s: seq<T>): (r: seq<T>)
    ensures NoDuplicates(r)
    ensures forall x :: x in r <==> x in s
    ensures NoDuplicates(s) ==> r == s
  {
    if s == [] then []
    else
      var init := s[..|s| - 1];
      var last := s[|s| - 1];
      assert s == init + [last];
      var d := Dedup(init);
      assert NoDuplicates(s) ==> NoDuplicates(init) && last !in init by {
        if NoDuplicates(s) {
          forall i, j | 0 <= i < j < |init| ensures init[i] != init[j] {
            assert init[i] == s[i] && init[j] == s[j];
          }
          forall k | 0 <= k < |init| ensures init[k] != last {
            assert init[k] == s[k];
          }
        }
      }
      if last in d then d else d + [last]
  }

  /** The elements of `s` that belong to `allowed`, in their order in `s`. */
  function KeepIn<T(==, !new)>(s: seq<T>, allowed: set<T>): (r: seq<T>)
    ensures forall x :: x in r <==> x in s && x in allowed
    ensures NoDuplicates(s) ==> NoDuplicates(r)
  {
    if s == [] then []
    else
      var rest := KeepIn(s[1..], allowed);
      assert NoDuplicates(s) ==> NoDuplicates(s[1..]) && s[0] !in s[1..] by {
        if NoDuplicates(s) {
          forall i, j | 0 <= i < j < |s[1..]| ensures s[1..][i] != s[1..][j] {
            assert s[1..][i] == s[i + 1] && s[1..][j] == s[j + 1];
          }
          forall k | 0 <= k < |s[1..]| ensures s[1..][k] != s[0] {
            assert s[1..][k] == s[k + 1];
          }
        }
      }
      assert s == [s[0]] + s[1..];
      if s[0] in allowed then [s[0]] + rest else rest
  }

  /** Filtering is compositional: it keeps the relative order of both halves. */
  lemma {:induction false} KeepInAppend<T(!new)>(a: seq<T>, b: seq<T>, allowed: set<T>)
    ensures KeepIn(a + b, allowed) == KeepIn(a, allowed) + KeepIn(b, allowed)
  {
    if a == [] {
      assert a + b == b;
    } else {
      assert (a + b)[1..] == a[1..] + b;
      assert (a + b)[0] == a[0];
      KeepInAppend(a[1..], b, allowed);
    }
  }

  /** Filtering keeps a sequence whole when all of it is allowed. */
  lemma {:induction false} KeepInAll<T(!new)>(s: seq<T>, allowed: set<T>)
    requires forall x :: x in s ==> x in allowed
    ensures KeepIn(s, allowed) == s
  {
    if s != [] {
      assert s == [s[0]] + s[1..];
      KeepInAll(s[1..], allowed);
    }
  }

  /** Appending an element not yet present keeps a sequence duplicate-free. */
  lemma AppendFresh<T>(s: seq<T>, x: T)
    requires NoDuplicates(s) && x !in s
    ensures NoDuplicates(s + [x])
  {
    forall i, j | 0 <= i < j < |s + [x]| ensures (s + [x])[i] != (s + [x])[j] {
      assert (s + [x])[i] == s[i];
    }
  }

  /** Filtering drops a trailing element that is not allowed and keeps the
      allowed rest whole. */
  lemma KeepInDropsLast<T(!new)>(s: seq<T>, x: T, allowed: set<T>)
    requires forall y :: y in s ==> y in allowed
    requires x !in allowed
    ensures KeepIn(s + [x], allowed) == s
  {
    KeepInAppend(s, [x], allowed);
    KeepInAll(s, allowed);
    assert [x][1..] == [];
  }

  /** Filtering a list of distinct allowed elements, then one element that is
      not allowed, then anything else, keeps the list whole and filters the rest. */
  lemma KeepInFreshTail<T(!new)>(s: seq<T>, x: T, rest: seq<T>, allowed: set<T>)
    requires NoDuplicates(s)
    requires forall y :: y in s ==> y in allowed
    requires x !in allowed
    ensures KeepIn(Dedup(s + [x]) + rest, allowed) == s + KeepIn(rest, allowed)
  {
    AppendFresh(s, x);
    KeepInAppend(s + [x], rest, allowed);
    KeepInDropsLast(s, x, allowed);
  }

  /** De-duplicating one more element appends it exactly when it is new. */
  lemma DedupSnoc<T(!new)>(s: seq<T>, x: T)
    ensures Dedup(s + [x]) == if x in s then Dedup(s) else Dedup(s) + [x]
  {
    assert (s + [x])[..|s + [x]| - 1] == s;
  }

  /** De-duplicating a prefix first changes nothing: only first occurrences
      count. */
  lemma {:induction false} DedupPrefix<T(!new)>(u: seq<T>, v: seq<T>)
    ensures Dedup(Dedup(u) + v) == Dedup(u + v)
    decreases |v|
  {
    if v == [] {
      assert Dedup(u) + v == Dedup(u) && u + v == u;
    } else {
      var init, last := v[..|v| - 1], v[|v| - 1];
      assert v == init + [last];
      assert Dedup(u) + v == (Dedup(u) + init) + [last];
      assert u + v == (u + init) + [last];
      DedupPrefix(u, init);
      DedupSnoc(Dedup(u) + init, last);
      DedupSnoc(u + init, last);
    }
  }
}
