/** The few pieces of Rust's primitive arithmetic that the rasteriser relies on,
    stated over Dafny's unbounded `int` and exact `real`. */
module Numeric {

  /** A `u32`: packed colours and pixels of the frame buffer. */
  newtype u32 = n: int | 0 <= n < 0x1_0000_0000

  /** `i32::abs`. */
  function Abs(n: int): nat
  {
    if n < 0 then -n else n
  }

  /** `std::cmp::min`. */
  function Min(a: int, b: int): int
  {
    if a <= b then a else b
  }

  /** `std::cmp::max`. */
  function Max(a: int, b: int): int
  {
    if a <= b then b else a
  }

  /** The number of values the Rust range `lo..hi` yields: it is empty when `hi <= lo`. */
  function Span(lo: int, hi: int): (n: nat)
    ensures lo < hi ==> lo + n == hi
    ensures hi <= lo ==> n == 0
  {
    if lo < hi then hi - lo else 0
  }

  /** A real whose truncation is a value of `i32`, so that `r as i32` neither saturates nor hits NaN. */
  predicate FitsI32(r: real)
  {
    -2147483649.0 < r < 2147483648.0
  }

  /** `r as i32` for a finite `r` in range: truncation toward zero. */
  function Trunc(r: real): (n: int)
    ensures 0.0 <= r ==> 0 <= n && n as real <= r < n as real + 1.0
    ensures r < 0.0 ==> n <= 0 && n as real - 1.0 < r <= n as real
  {
    if 0.0 <= r then r.Floor else -((-r).Floor)
  }

  /** Truncation never reverses the order of two values. */
  lemma TruncMonotone(a: real, b: real)
    requires a <= b
    ensures Trunc(a) <= Trunc(b)
  {
    if 0.0 <= a {
      assert a.Floor <= b.Floor;
    } else if b < 0.0 {
      assert (-b).Floor <= (-a).Floor;
    }
  }

  /** Truncating a whole number gives it back. */
  lemma TruncOfInt(n: int)
    ensures Trunc(n as real) == n
  {
  }

  /** A real between two integers truncates to a value between them. */
  lemma TruncBetween(lo: int, r: real, hi: int)
    requires lo as real <= r <= hi as real
    ensures lo <= Trunc(r) <= hi
  {
    TruncMonotone(lo as real, r);
    TruncMonotone(r, hi as real);
    TruncOfInt(lo);
    TruncOfInt(hi);
  }

  /** `r as i32` for any finite `r`: truncation toward zero, saturating at the ends of `i32`. */
  function SatI32(r: real): (n: int)
    ensures -0x8000_0000 <= n < 0x8000_0000
    ensures FitsI32(r) ==> n == Trunc(r)
  {
    if r <= -2147483648.0 then -0x8000_0000
    else if 2147483647.0 <= r then 0x7FFF_FFFF
    else Trunc(r)
  }

  /** The saturating cast never reverses the order of two values either. */
  lemma SatI32Monotone(a: real, b: real)
    requires a <= b
    ensures SatI32(a) <= SatI32(b)
  {
    if -2147483648.0 < a && b < 2147483647.0 {
      TruncMonotone(a, b);
    }
  }
}
