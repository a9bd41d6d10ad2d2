/**
 * Sorting by a numeric key, the way the storefront sorts: `Array.prototype.sort`
 * on an array (or on a copy of one) with a comparator that compares one field.
 */
module Sorting {
  import opened Js

  /** Where `x` falls in an order ascending by `key`, or descending when `descending` holds. */
  function Rank<T>(key: T -> int, descending: bool, x: T): int
  {
    if descending then -key(x) else key(x)
  }

  /** `s` is in non-decreasing `key` order (non-increasing when `descending`). */
  ghost predicate SortedBy<T>(s: seq<T>, key: T -> int, descending: bool)
  {
    forall i, j :: 0 <= i < j < |s| ==> Rank(key, descending, s[i]) <= Rank(key, descending, s[j])
  }

  /** The elements of rank `v`. */
  function RankIs<T>(key: T -> int, descending: bool, v: int): T -> bool
  {
    (x: T) => Rank(key, descending, x) == v
  }

  /**
   * `t` lists the elements of every rank in the order `s` lists them: a stable
   * sort keeps equal-ranked elements in their input order.
   */
  ghost predicate KeepsTieOrder<T>(s: seq<T>, t: seq<T>, key: T -> int, descending: bool)
  {
    forall v :: Filter(t, RankIs(key, descending, v)) == Filter(s, RankIs(key, descending, v))
  }

  /** A two-element list keeps the elements that pass, in order. */
  lemma FilterPair<T>(x: T, y: T, p: T -> bool)
    ensures Filter([x, y], p) == (if p(x) then [x] else []) + (if p(y) then [y] else [])
  {
    assert [x, y][1..] == [y];
    assert [y][1..] == [];
  }

  /** Exchanging two neighbours that do not both pass `p` leaves the elements that pass in order. */
  lemma SwapNeighboursFilter<T>(b: seq<T>, c: seq<T>, j: int, p: T -> bool)
    requires 0 < j < |b| && !(p(b[j - 1]) && p(b[j]))
    requires c == b[j - 1 := b[j]][j := b[j - 1]]
    ensures Filter(c, p) == Filter(b, p)
  {
    var pre, post := b[..j - 1], b[j + 1..];
    assert b == pre + ([b[j - 1], b[j]] + post);
    assert c == pre + ([b[j], b[j - 1]] + post);
    FilterAppend(pre, [b[j - 1], b[j]] + post, p);
    FilterAppend(pre, [b[j], b[j - 1]] + post, p);
    FilterAppend([b[j - 1], b[j]], post, p);
    FilterAppend([b[j], b[j - 1]], post, p);
    FilterPair(b[j - 1], b[j], p);
    FilterPair(b[j], b[j - 1], p);
  }

  /** Exchanging two neighbours of different rank keeps the order within every rank. */
  lemma SwapKeepsTieOrder<T>(s: seq<T>, b: seq<T>, c: seq<T>, j: int, key: T -> int, descending: bool)
    requires KeepsTieOrder(s, b, key, descending)
    requires 0 < j < |b| && Rank(key, descending, b[j - 1]) != Rank(key, descending, b[j])
    requires c == b[j - 1 := b[j]][j := b[j - 1]]
    ensures KeepsTieOrder(s, c, key, descending)
  {
    forall v ensures Filter(c, RankIs(key, descending, v)) == Filter(s, RankIs(key, descending, v)) {
      SwapNeighboursFilter(b, c, j, RankIs(key, descending, v));
    }
  }

  /** The first `n` elements of `a` are in order. */
  ghost predicate SortedPrefix<T>(a: array<T>, n: int, key: T -> int, descending: bool)
    requires n <= a.Length
    reads a
  {
    forall p, q :: 0 <= p < q < n ==> Rank(key, descending, a[p]) <= Rank(key, descending, a[q])
  }

  method Swap<T>(a: array<T>, i: int, j: int)
    requires 0 <= i < a.Length && 0 <= j < a.Length
    modifies a
    ensures a[..] == old(a[..])[i := old(a[j])][j := old(a[i])]
    ensures multiset(a[..]) == old(multiset(a[..]))
  {
    a[i], a[j] := a[j], a[i];
  }

  /**
   * The state of the insertion of `s[i]`, now at `j`: the other elements of
   * `s[..i+1]` are in order, and everything after position `j` ranks above it.
   */
  ghost predicate Inserting<T>(s: seq<T>, j: int, i: int, key: T -> int, descending: bool)
  {
    0 <= j <= i < |s|
    && (forall p, q :: 0 <= p < q <= i && p != j && q != j ==> Rank(key, descending, s[p]) <= Rank(key, descending, s[q]))
    && (forall q :: j < q <= i ==> Rank(key, descending, s[j]) < Rank(key, descending, s[q]))
  }

  /** Swapping the moving element with a larger left neighbour moves it one place left. */
  lemma SwapLeft<T>(b: seq<T>, c: seq<T>, j: int, i: int, key: T -> int, descending: bool)
    requires 0 < j && Inserting(b, j, i, key, descending)
    requires Rank(key, descending, b[j - 1]) > Rank(key, descending, b[j])
    requires c == b[j - 1 := b[j]][j := b[j - 1]]
    ensures Inserting(c, j - 1, i, key, descending)
  {
    forall p, q | 0 <= p < q <= i && p != j - 1 && q != j - 1
      ensures Rank(key, descending, c[p]) <= Rank(key, descending, c[q])
    {
      if p == j {
        assert c[p] == b[j - 1] && c[q] == b[q];
      } else if q == j {
        assert c[p] == b[p] && c[q] == b[j - 1];
      } else {
        assert c[p] == b[p] && c[q] == b[q];
      }
    }
    forall q | j - 1 < q <= i
      ensures Rank(key, descending, c[j - 1]) < Rank(key, descending, c[q])
    {
      if q > j {
        assert c[q] == b[q];
      }
    }
  }

  /** Once the element stops moving, the first `i + 1` elements are in order. */
  lemma InsertionDone<T>(s: seq<T>, j: int, i: int, key: T -> int, descending: bool)
    requires Inserting(s, j, i, key, descending)
    requires j == 0 || Rank(key, descending, s[j - 1]) <= Rank(key, descending, s[j])
    ensures forall p, q :: 0 <= p < q <= i ==> Rank(key, descending, s[p]) <= Rank(key, descending, s[q])
  {
    forall p, q | 0 <= p < q <= i
      ensures Rank(key, descending, s[p]) <= Rank(key, descending, s[q])
    {
      if q == j && p < j - 1 {
        assert Rank(key, descending, s[p]) <= Rank(key, descending, s[j - 1]);
      }
    }
  }

  /** Moves `a[i]` left past every larger element, so that `a[..i+1]` becomes sorted. */
  method InsertLast<T>(a: array<T>, i: int, key: T -> int, descending: bool, ghost s: seq<T>)
    requires 0 < i < a.Length
    requires SortedPrefix(a, i, key, descending)
    requires KeepsTieOrder(s, a[..], key, descending)
    modifies a
    ensures SortedPrefix(a, i + 1, key, descending)
    ensures multiset(a[..]) == old(multiset(a[..]))
    ensures KeepsTieOrder(s, a[..], key, descending)
  {
    var j := i;
    while j > 0 && Rank(key, descending, a[j - 1]) > Rank(key, descending, a[j])
      invariant Inserting(a[..], j, i, key, descending)
      invariant multiset(a[..]) == old(multiset(a[..]))
      invariant KeepsTieOrder(s, a[..], key, descending)
    {
      ghost var b := a[..];
      Swap(a, j - 1, j);
      SwapLeft(b, a[..], j, i, key, descending);
      SwapKeepsTieOrder(s, b, a[..], j, key, descending);
      j := j - 1;
    }
    InsertionDone(a[..], j, i, key, descending);
  }

  /**
   * In-place insertion sort of `a` by `key`.  It moves an element only past one of
   * strictly greater rank, so, like `Array.prototype.sort`, it is stable.
   */
  method SortInPlace<T>(a: array<T>, key: T -> int, descending: bool)
    modifies a
    ensures SortedBy(a[..], key, descending)
    ensures multiset(a[..]) == old(multiset(a[..]))
    ensures KeepsTieOrder(old(a[..]), a[..], key, descending)
  {
    if a.Length == 0 { return; }
    var i := 1;
    while i < a.Length
      invariant 1 <= i <= a.Length
      invariant SortedPrefix(a, i, key, descending)
      invariant multiset(a[..]) == old(multiset(a[..]))
      invariant KeepsTieOrder(old(a[..]), a[..], key, descending)
    {
      InsertLast(a, i, key, descending, old(a[..]));
      i := i + 1;
    }
  }
}
