/**
 * The clamping rules the application applies to its parameters wherever it reads them:
 * `max(lo, min(hi, v))` and "at least 1, and odd" for kernel sizes.
 */
module Clamps {

  /** `max(lo, min(hi, v))` on integers. */
  function ClampInt(v: int, lo: int, hi: int): (r: int)
    requires lo <= hi
    ensures lo <= r <= hi
    ensures lo <= v <= hi ==> r == v
    ensures v < lo ==> r == lo
    ensures v > hi ==> r == hi
  {
    if v < lo then lo else if v > hi then hi else v
  }

  /** `max(lo, min(hi, v))` on floats. */
  function ClampReal(v: real, lo: real, hi: real): (r: real)
    requires lo <= hi
    ensures lo <= r <= hi
    ensures lo <= v <= hi ==> r == v
    ensures v < lo ==> r == lo
    ensures v > hi ==> r == hi
  {
    if v < lo then lo else if v > hi then hi else v
  }

  /** `if k < 1: k = 1`, then `if k % 2 == 0: k += 1`: the nearest odd size >= max(k, 1). */
  function OddAtLeastOne(k: int): (r: int)
    ensures r >= 1 && r % 2 == 1
    ensures k >= 1 ==> r == k || r == k + 1
    ensures k < 1 ==> r == 1
    ensures k >= 1 && k % 2 == 1 ==> r == k
  {
    var a := if k < 1 then 1 else k;
    if a % 2 == 0 then a + 1 else a
  }

  /** Python's `int(x)` on a float: truncation toward zero. */
  function Trunc(x: real): (r: int)
    ensures x >= 0.0 ==> r as real <= x < r as real + 1.0
    ensures x < 0.0 ==> r as real - 1.0 < x <= r as real
  {
    if x >= 0.0 then x.Floor else -((-x).Floor)
  }
}
