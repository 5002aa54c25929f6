/** Facts about natural-number multiplication and Euclidean division that the
    geometry proofs share. */
module Arith {

  /** Multiplication by a natural number is monotone. */
  lemma MulLe(x: int, y: int, d: nat)
    requires x <= y
    ensures x * d <= y * d
  {
    assert (y - x) * d >= 0;
  }

  /** (h - 1) * w + w == h * w. */
  lemma MulPred(h: nat, w: nat)
    requires h > 0
    ensures (h - 1) * w + w == h * w
  {
  }

  /** a lies in the q-th block of d. */
  lemma DivWithin(a: int, d: nat, q: nat)
    requires d > 0 && q * d <= a < q * d + d
    ensures a / d == q
  {
    var q', r' := a / d, a % d;
    assert a == q' * d + r' && 0 <= r' < d;
    if q' > q {
      MulLe(q + 1, q', d);
    } else if q' < q {
      MulLe(q' + 1, q, d);
    }
  }

  /** The Euclidean quotient of naturals: a / b blocks of b fit in a. */
  lemma DivBounds(a: nat, b: nat)
    requires b > 0
    ensures 0 <= a / b <= a && (a / b) * b <= a < (a / b) * b + b
  {
    var q, r := a / b, a % b;
    assert a == q * b + r && 0 <= r < b;
    MulLe(1, b, q);
  }
}
