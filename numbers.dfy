/** Java integer ranges and the clamping used throughout the listener. */
module Numbers {

  const INT_MIN: int := -0x8000_0000
  const INT_MAX: int := 0x7fff_ffff
  const LONG_MAX: int := 0x7fff_ffff_ffff_ffff

  /** True of the values a Java `int` can hold. */
  predicate IsInt(x: int)
  {
    INT_MIN <= x <= INT_MAX
  }

  /** `Clamp.clampInt(v, lo, hi)`: `v` moved into the range `[lo, hi]`. */
  function Clamp(v: int, lo: int, hi: int): (r: int)
    requires lo <= hi
    ensures lo <= r <= hi
    ensures lo <= v <= hi ==> r == v
    ensures v < lo ==> r == lo
    ensures hi < v ==> r == hi
  {
    if v < lo then lo else if hi < v then hi else v
  }

  /** The value a Java `int` operation yields for the mathematical result `x`
      (two's-complement wrap-around modulo 2^32). */
  function WrapInt(x: int): (r: int)
    ensures IsInt(r)
    ensures (r - x) % 0x1_0000_0000 == 0
    ensures IsInt(x) ==> r == x
  {
    (x - INT_MIN) % 0x1_0000_0000 + INT_MIN
  }
}
