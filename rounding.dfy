/** JavaScript's Math.round applied to a rational p/q, q > 0: round half toward +infinity. */
module Rounding {

  /** Math.round(p / q) = floor(p/q + 1/2); Dafny's `/` floors for a positive divisor. */
  function RoundDiv(p: int, q: int): int
    requires q > 0
  {
    (2 * p + q) / (2 * q)
  }

  /** RoundDiv(p, q) is an integer r with r - 1/2 <= p/q < r + 1/2. */
  lemma RoundDivBounds(p: int, q: int)
    requires q > 0
    ensures var r := RoundDiv(p, q); q * (2 * r - 1) <= 2 * p < q * (2 * r + 1)
  {
    var r := RoundDiv(p, q);
    DivBounds(2 * p + q, 2 * q, r);
    assert r * (2 * q) == q * (2 * r);
  }

  lemma DivBounds(a: int, b: int, k: int)
    requires b > 0 && k == a / b
    ensures k * b <= a < k * b + b
  {
  }

  /** The rounding is exact: only one integer lies within half of p/q from below and above. */
  lemma RoundDivUnique(p: int, q: int, k: int)
    requires q > 0
    requires q * (2 * k - 1) <= 2 * p < q * (2 * k + 1)
    ensures RoundDiv(p, q) == k
  {
    var r := RoundDiv(p, q);
    RoundDivBounds(p, q);
    if r < k {
      MulMono(q, 2 * r + 1, 2 * k - 1);
    } else if r > k {
      MulMono(q, 2 * k + 1, 2 * r - 1);
    }
  }

  /** A whole quotient needs no rounding. */
  lemma RoundDivExact(k: int, q: int)
    requires q > 0
    ensures RoundDiv(k * q, q) == k
  {
    assert q * (2 * k - 1) == 2 * (k * q) - q;
    assert q * (2 * k + 1) == 2 * (k * q) + q;
    RoundDivUnique(k * q, q, k);
  }

  lemma MulMono(q: int, x: int, y: int)
    requires q > 0 && x <= y
    ensures q * x <= q * y
  {
  }

  /** Math.round((a + b) / 2): the rounded mean lies between the two values. */
  function Mean(a: int, b: int): (r: int)
    ensures (if a <= b then a else b) <= r <= (if a <= b then b else a)
  {
    RoundDivBounds(a + b, 2);
    RoundDiv(a + b, 2)
  }
}
