/**
 * Cyclic indices `(i + 1) % n` and `(i - 1 + n) % n`, shared by the testimonial
 * slider and the fade carousel.  Both operands are non-negative there, so the
 * truncating `%` of JavaScript agrees with Dafny's.
 */
module IndexWrap {

  /** `(i + 1) % n` */
  function Next(i: nat, n: nat): (r: nat)
    requires i < n
    ensures r < n
    ensures r == if i == n - 1 then 0 else i + 1
  {
    (i + 1) % n
  }

  /** `(i - 1 + n) % n` */
  function Prev(i: nat, n: nat): (r: nat)
    requires i < n
    ensures r < n
    ensures r == if i == 0 then n - 1 else i - 1
  {
    (i - 1 + n) % n
  }

  /** Forward then back, or back then forward, returns to the same index. */
  lemma PrevNextInverse(i: nat, n: nat)
    requires i < n
    ensures Prev(Next(i, n), n) == i
    ensures Next(Prev(i, n), n) == i
  {
  }

  /** `k` steps forward from `i`. */
  function Advance(i: nat, n: nat, k: nat): (r: nat)
    requires i < n
    ensures r < n
  {
    if k == 0 then i else Next(Advance(i, n, k - 1), n)
  }

  /** `k` steps forward land on `(i + k) % n`; after `n` steps the index is back where it was. */
  lemma {:induction false} AdvanceIsModular(i: nat, n: nat, k: nat)
    requires i < n
    ensures Advance(i, n, k) == (i + k) % n
  {
    if k > 0 {
      AdvanceIsModular(i, n, k - 1);
      ModularStep(i + k - 1, n);
    }
  }

  /** The quotient and the remainder are the only ones of their kind. */
  lemma DivModUnique(m: int, n: int, q: int, r: int)
    requires n > 0 && 0 <= r < n && m == q * n + r
    ensures m % n == r && m / n == q
  {
    var d := q - m / n;
    assert d * n == m % n - r by {
      assert m == (m / n) * n + m % n;
      assert q * n - (m / n) * n == d * n;
    }
    if d >= 1 {
      MulAtLeast(d, n);
      assert false;
    } else if d <= -1 {
      MulAtLeast(-d, n);
      assert false;
    }
  }

  lemma MulAtLeast(d: int, n: int)
    requires d >= 1 && n > 0
    ensures d * n >= n
  {
    assert d * n == (d - 1) * n + n;
  }

  lemma ModularStep(m: nat, n: nat)
    requires n > 0
    ensures ((m % n) + 1) % n == (m + 1) % n
  {
    var q, r := m / n, m % n;
    DivModUnique(m, n, q, r);
    if r + 1 == n {
      DivModUnique(m + 1, n, q + 1, 0);
      DivModUnique(r + 1, n, 1, 0);
    } else {
      DivModUnique(m + 1, n, q, r + 1);
      DivModUnique(r + 1, n, 0, r + 1);
    }
  }

  lemma FullCycle(i: nat, n: nat)
    requires i < n
    ensures Advance(i, n, n) == i
  {
    AdvanceIsModular(i, n, n);
    DivModUnique(i + n, n, 1, i);
  }
}
