/** Small facts about integer multiplication and division used by the layout proofs. */
module Arith {

  lemma MulMono(a: int, b: int, c: int)
    ensures a <= b && c >= 0 ==> a * c <= b * c
  {
  }

  /** Quotient and remainder are determined by `a == q * d + r` with `0 <= r < d`. */
  lemma DivModUnique(a: int, d: int, q: int, r: int)
    requires d > 0 && 0 <= r < d && a == q * d + r
    ensures a / d == q && a % d == r
  {
    var q', r' := a / d, a % d;
    assert a == q' * d + r';
    assert (q - q') * d == r' - r;
    MulMono(1, q - q', d);
    MulMono(q - q', -1, d);
  }

  /** A positive factor can be cancelled. */
  lemma MulCancel(a: int, b: int, c: int)
    requires c > 0 && a * c == b * c
    ensures a == b
  {
    DivModUnique(a * c, c, a, 0);
    DivModUnique(b * c, c, b, 0);
  }

  /** Slot `i` of `n`, each `s` wide, starts at a non-negative offset and ends within `n * s`. */
  lemma SlotInside(i: nat, n: nat, s: nat)
    requires i < n
    ensures 0 <= i * s && i * s + s <= n * s
  {
    MulMono(0, i, s);
    MulMono(i + 1, n, s);
    assert (i + 1) * s == i * s + s;
  }

  /** A quotient of `k < n <= m * c` by `c` is below `m`. */
  lemma QuotientBelow(q: int, r: int, c: int, k: int, n: int, m: int)
    requires c > 0 && r >= 0 && q * c + r == k && k < n <= m * c
    ensures q < m
  {
    if q >= m {
      MulMono(m, q, c);
    }
  }
}
