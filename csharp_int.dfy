/**
 * The C# integer semantics the game code relies on: 32-bit `int` values,
 * unchecked (wrapping) addition, and `/` truncating toward zero. Also the
 * integer reading of `Mathf.Clamp`, which the code only ever applies to
 * whole numbers.
 */
module CSharpInt {

  const Int32Min: int := -0x8000_0000
  const Int32Max: int := 0x7fff_ffff
  const Modulus: int := 0x1_0000_0000

  /** A C# `int`. */
  newtype int32 = x: int | -0x8000_0000 <= x < 0x8000_0000

  /** Unchecked C# `int` arithmetic: the exact result reduced into the 32-bit range. */
  function Wrap32(x: int): (r: int32)
    ensures (r as int) % Modulus == x % Modulus
    ensures Int32Min <= x <= Int32Max ==> r as int == x
    ensures x > Int32Max && x <= Int32Max + Modulus ==> r as int == x - Modulus
  {
    var m := x % Modulus;
    if m <= Int32Max then m as int32 else (m - Modulus) as int32
  }

  /** C# `a / b` on `int` for a positive divisor: the quotient rounded toward zero. */
  function TruncDiv(a: int, b: int): (q: int)
    requires b > 0
    ensures a >= 0 ==> 0 <= a - q * b < b
    ensures a < 0 ==> -b < a - q * b <= 0
  {
    if a >= 0 then a / b else -((-a) / b)
  }

  /** `Mathf.Clamp(x, lo, hi)` on whole numbers. */
  function Clamp(x: int, lo: int, hi: int): (r: int)
    requires lo <= hi
    ensures lo <= r <= hi
    ensures lo <= x <= hi ==> r == x
    ensures x < lo ==> r == lo
    ensures x > hi ==> r == hi
  {
    if x < lo then lo else if x > hi then hi else x
  }
}
