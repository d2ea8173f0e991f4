/** The fixed-width integers of C++, over Dafny's unbounded ones. */
module Integers {

  const UINT32_LIMIT: int := 0x1_0000_0000
  const UINT64_LIMIT: int := 0x1_0000_0000_0000_0000
  const INT32_MIN: int := -0x8000_0000
  const INT64_MIN: int := -0x8000_0000_0000_0000

  /** The int32 a uint32 reads as: static_cast<int32_t>. */
  function Int32Of(u: nat): (r: int)
    requires u < UINT32_LIMIT
    ensures INT32_MIN <= r < -INT32_MIN
    ensures r % UINT32_LIMIT == u
  {
    if u >= -INT32_MIN then u - UINT32_LIMIT else u
  }

  /** The int64 a uint64 reads as: static_cast<int64_t>. */
  function Int64Of(u: nat): (r: int)
    requires u < UINT64_LIMIT
    ensures INT64_MIN <= r < -INT64_MIN
    ensures r % UINT64_LIMIT == u
  {
    if u >= -INT64_MIN then u - UINT64_LIMIT else u
  }

  /** A positive multiple of a positive number is at least that number. */
  lemma {:induction false} MulAtLeast(k: int, b: int)
    requires k >= 1 && b > 0
    ensures b * k >= b
  {
    if k > 1 {
      MulAtLeast(k - 1, b);
      assert b * k == b * (k - 1) + b;
    }
  }

  /** Euclidean division is unique: a quotient and a remainder in range are the ones `%` gives. */
  lemma ModUnique(x: int, b: int, q: int, r: int)
    requires b > 0 && 0 <= r < b && x == q * b + r
    ensures x % b == r
  {
    var d, m := x / b, x % b;
    assert x == b * d + m;
    var k := q - d;
    assert b * k == m - r;
    if k >= 1 {
      MulAtLeast(k, b);
    } else if k <= -1 {
      MulAtLeast(-k, b);
    }
  }
}
