/** C#'s 32-bit `int`, whose arithmetic wraps around silently in the default
    unchecked context. */
module Int32 {

  const MinInt32: int := -0x8000_0000
  const MaxInt32: int := 0x7fff_ffff
  const Modulus: int := 0x1_0000_0000

  predicate IsInt32(x: int) {
    MinInt32 <= x <= MaxInt32
  }

  /** The int32 value an unchecked C# operation yields for the exact result x. */
  function Wrap32(x: int): (r: int)
    ensures IsInt32(r)
    ensures IsInt32(x) ==> r == x
    ensures MaxInt32 < x <= MaxInt32 + Modulus ==> r == x - Modulus
    ensures MinInt32 - Modulus <= x < MinInt32 ==> r == x + Modulus
  {
    (x - MinInt32) % Modulus + MinInt32
  }
}
