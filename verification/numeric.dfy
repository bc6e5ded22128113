/**
  The C++ integer conversions the scribbler relies on, written out for
  Dafny's unbounded `int` and `real`:
  - `(int)d` on a double truncates toward zero;
  - `a / b` on two ints truncates toward zero (Dafny's `/` is Euclidean);
  - `std::clamp(v, lo, hi)` pins a value into a closed range.
 */
module CNumeric {

  /** `(int)r`: the integer part of `r`, rounding toward zero. */
  function Trunc(r: real): (t: int)
    ensures r >= 0.0 ==> t as real <= r < t as real + 1.0
    ensures r < 0.0 ==> t as real - 1.0 < r <= t as real
  {
    if r < 0.0 then -((-r).Floor) else r.Floor
  }

  /** Truncation never moves a value away from zero and keeps its sign. */
  lemma TruncTowardZero(r: real)
    ensures r >= 0.0 ==> 0 <= Trunc(r)
    ensures r <= 0.0 ==> Trunc(r) <= 0
    ensures -1.0 < r < 1.0 ==> Trunc(r) == 0
  {
  }

  /** `(int)` is monotone. */
  lemma TruncMonotone(a: real, b: real)
    requires a <= b
    ensures Trunc(a) <= Trunc(b)
  {
  }

  /** For a positive bound `k`, `(int)r >= k` exactly when `r >= k`. */
  lemma TruncAtLeast(r: real, k: int)
    requires k >= 1
    ensures Trunc(r) >= k <==> r >= k as real
  {
  }

  /** For a non-negative bound `k`, `(int)r <= k` exactly when `r < k + 1`. */
  lemma TruncAtMost(r: real, k: int)
    requires k >= 0
    ensures Trunc(r) <= k <==> r < (k + 1) as real
  {
  }

  /** Truncation is the identity on integral values. */
  lemma TruncOfInt(n: int)
    ensures Trunc(n as real) == n
  {
  }

  /** `std::clamp(v, lo, hi)`: `lo` below the range, `hi` above it, `v` inside. */
  function Clamp(v: int, lo: int, hi: int): (c: int)
    requires lo <= hi
    ensures lo <= c <= hi
    ensures lo <= v <= hi ==> c == v
    ensures v < lo ==> c == lo
    ensures hi < v ==> c == hi
  {
    if v < lo then lo else if hi < v then hi else v
  }

  /** C++ `a / b` on ints: the quotient truncated toward zero. */
  function CDiv(a: int, b: int): (q: int)
    requires b != 0
    ensures var rem := a - b * q;
      && (if rem < 0 then -rem else rem) < (if b < 0 then -b else b)
      && (a >= 0 ==> rem >= 0)
      && (a < 0 ==> rem <= 0)
  {
    if a >= 0 then
      (if b > 0 then a / b else -(a / -b))
    else
      (if b > 0 then -((-a) / b) else (-a) / (-b))
  }
}
