/**
 * What the admin list screens (`ProductTable.jsx`, `ReviewManager.jsx`,
 * `MessageViewer.jsx`) share: a fixed number of rows per page, the
 * "Showing a to b of n" summary, and the `list.map(x => x.id === id ? {...x, …} : x)`
 * update of the rows whose id matches.
 */
module AdminLists {
  import opened Js

  function Min(a: int, b: int): int
  {
    if a <= b then a else b
  }

  /** `Math.ceil(n / perPage)` */
  function TotalPages(n: nat, perPage: nat): (r: nat)
    requires perPage > 0
    ensures r * perPage >= n
    ensures r > 0 ==> (r - 1) * perPage < n
    ensures r == 0 <==> n == 0
  {
    (n + perPage - 1) / perPage
  }

  /** `(currentPage - 1) * itemsPerPage` */
  function StartIndex(page: int, perPage: nat): int
  {
    (page - 1) * perPage
  }

  /**
   * `items.slice(startIndex, startIndex + perPage)`, for a page numbered from 1:
   * the rows of that page, and none for a page past the last.
   */
  function PageOf<T>(items: seq<T>, page: int, perPage: nat): (r: seq<T>)
    requires page >= 1 && perPage > 0
    ensures |r| <= perPage
    ensures forall k :: 0 <= k < |r| ==> StartIndex(page, perPage) + k < |items| && r[k] == items[StartIndex(page, perPage) + k]
    ensures |r| > 0 <==> StartIndex(page, perPage) < |items|
  {
    var start := StartIndex(page, perPage);
    assert start >= 0 by {
      PageStartBound(|items|, page, perPage);
    }
    Window(items, start, perPage)
  }

  /** `items.slice(start, start + size)` for a start that is not negative. */
  function Window<T>(items: seq<T>, start: nat, size: nat): (r: seq<T>)
    ensures |r| <= size
    ensures forall k :: 0 <= k < |r| ==> start + k < |items| && r[k] == items[start + k]
    ensures size > 0 ==> (|r| > 0 <==> start < |items|)
  {
    if start >= |items| then [] else items[start .. Min(start + size, |items|)]
  }

  /** A page starts inside the list exactly when its number is at most the page count. */
  lemma PageStartBound(n: nat, page: int, perPage: nat)
    requires page >= 1 && perPage > 0
    ensures StartIndex(page, perPage) >= 0
    ensures StartIndex(page, perPage) < n <==> page <= TotalPages(n, perPage)
  {
    var t := TotalPages(n, perPage);
    if page <= t {
      MulMonotone(page - 1, t - 1, perPage);
    } else {
      MulMonotone(t, page - 1, perPage);
    }
  }

  lemma MulMonotone(a: int, b: int, c: nat)
    requires a <= b
    ensures a * c <= b * c
  {
  }

  /** Pages 1 to `k`, one after the other. */
  function FirstPages<T>(items: seq<T>, k: nat, perPage: nat): seq<T>
    requires perPage > 0
  {
    if k == 0 then [] else FirstPages(items, k - 1, perPage) + PageOf(items, k, perPage)
  }

  /**
   * Paging loses and repeats nothing: pages 1 to `k` together are the first
   * `k * perPage` rows, so pages 1 to `TotalPages` together are the whole list.
   */
  lemma {:induction false} FirstPagesArePrefix<T>(items: seq<T>, k: nat, perPage: nat)
    requires perPage > 0
    ensures FirstPages(items, k, perPage) == items[..Min(k * perPage, |items|)]
  {
    if k > 0 {
      FirstPagesArePrefix(items, k - 1, perPage);
      var start := StartIndex(k, perPage);
      var stop := k * perPage;
      assert start == (k - 1) * perPage;
      NextStart(k, perPage);
      var before := items[..Min(start, |items|)];
      var page := PageOf(items, k, perPage);
      if start >= |items| {
        assert page == [];
        assert Min(stop, |items|) == |items|;
      } else {
        assert page == items[start .. Min(stop, |items|)];
        assert before + page == items[..Min(stop, |items|)];
      }
    }
  }

  lemma NextStart(k: int, perPage: nat)
    ensures k * perPage == StartIndex(k, perPage) + perPage
    ensures StartIndex(k, perPage) == (k - 1) * perPage
  {
  }

  lemma PagesCoverList<T>(items: seq<T>, perPage: nat)
    requires perPage > 0
    ensures FirstPages(items, TotalPages(|items|, perPage), perPage) == items
  {
    FirstPagesArePrefix(items, TotalPages(|items|, perPage), perPage);
  }

  /** "Showing {startIndex + 1} to {Math.min(startIndex + perPage, n)} of {n}" */
  function Summary(n: nat, page: int, perPage: nat): (int, int)
  {
    (StartIndex(page, perPage) + 1, Min(StartIndex(page, perPage) + perPage, n))
  }

  /**
   * On any page that has rows, the summary's range counts exactly the rows shown;
   * on an empty list it reads "Showing 1 to 0".
   */
  lemma SummaryCountsShownRows<T>(items: seq<T>, page: int, perPage: nat)
    requires page >= 1 && perPage > 0
    ensures page <= TotalPages(|items|, perPage) ==>
      Summary(|items|, page, perPage).1 - Summary(|items|, page, perPage).0 + 1 == |PageOf(items, page, perPage)|
    ensures |items| == 0 && page == 1 ==> Summary(|items|, page, perPage) == (1, 0)
  {
    PageStartBound(|items|, page, perPage);
  }

  /** `list.map(x => p(x) ? f(x) : x)` */
  function ReplaceWhere<T>(s: seq<T>, p: T -> bool, f: T -> T): (r: seq<T>)
    ensures |r| == |s|
    ensures forall k :: 0 <= k < |s| ==> r[k] == (if p(s[k]) then f(s[k]) else s[k])
  {
    seq(|s|, k requires 0 <= k < |s| => if p(s[k]) then f(s[k]) else s[k])
  }

  /** `x => key(x) === v` */
  function KeyIs<T>(key: T -> string, v: string): T -> bool
  {
    (x: T) => key(x) == v
  }

  lemma CountStep<T>(s: seq<T>, q: T -> bool)
    requires s != []
    ensures CountWhere(s, q) == (if q(s[0]) then 1 else 0) + CountWhere(s[1..], q)
  {
  }

  /**
   * When every row has one of three different statuses, the three per-status counts
   * add up to the number of rows.
   */
  lemma {:induction false} ThreeWayCount<T>(s: seq<T>, key: T -> string, a: string, b: string, c: string)
    requires a != b && b != c && a != c
    requires forall x :: x in s ==> key(x) == a || key(x) == b || key(x) == c
    ensures CountWhere(s, KeyIs(key, a)) + CountWhere(s, KeyIs(key, b)) + CountWhere(s, KeyIs(key, c)) == |s|
  {
    if s != [] {
      ThreeWayCount(s[1..], key, a, b, c);
      CountStep(s, KeyIs(key, a));
      CountStep(s, KeyIs(key, b));
      CountStep(s, KeyIs(key, c));
    }
  }

  /**
   * An update that never produces a row satisfying `q` from one that does not can
   * only lower the number of rows satisfying `q`.
   */
  lemma {:induction false} ReplaceNeverAdds<T>(s: seq<T>, p: T -> bool, f: T -> T, q: T -> bool)
    requires forall x :: q(f(x)) ==> q(x)
    ensures CountWhere(ReplaceWhere(s, p, f), q) <= CountWhere(s, q)
  {
    if s != [] {
      var r := ReplaceWhere(s, p, f);
      assert r[1..] == ReplaceWhere(s[1..], p, f);
      ReplaceNeverAdds(s[1..], p, f, q);
      CountStep(s, q);
      CountStep(r, q);
    }
  }
}
