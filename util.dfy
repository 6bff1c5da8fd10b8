/** The integer helpers of util.go, and Go's truncating integer division. */
module Util {

  /** absInt: the magnitude of v (Go's machine-integer overflow at MinInt is not modelled). */
  function AbsInt(v: int): (r: int)
    ensures r >= 0
    ensures r == v || r == -v
  {
    if v < 0 then -v else v
  }

  /** maxInt: the larger of a and b. */
  function MaxInt(a: int, b: int): (r: int)
    ensures r >= a && r >= b
    ensures r == a || r == b
  {
    if a > b then a else b
  }

  /** minInt: the smaller of a and b. */
  function MinInt(a: int, b: int): (r: int)
    ensures r <= a && r <= b
    ensures r == a || r == b
  {
    if a < b then a else b
  }

  /** The smaller and the larger of two numbers add up to the two numbers. */
  lemma MinPlusMax(a: int, b: int)
    ensures MinInt(a, b) + MaxInt(a, b) == a + b
  {
  }

  /** Go's `a / 2` on int: the half truncated toward zero (Dafny's `/` is Euclidean,
      which differs for odd negative a). */
  function GoHalf(a: int): (q: int)
    ensures a >= 0 ==> 0 <= a - 2 * q <= 1
    ensures a < 0 ==> -1 <= a - 2 * q <= 0
  {
    if a >= 0 then a / 2 else -((-a) / 2)
  }
}
