/** The C integer semantics of the driver's 32-bit ARM target, written out:
    `int` is 32-bit two's complement, `unsigned long` is 32 bits, `short` and
    `unsigned short` are 16 bits. Signed overflow and out-of-range conversions to
    `short` are taken to wrap, as the target's compiler does them; `>>` on a
    negative `int` is an arithmetic shift. */
module CInt {

  const TWO_16 := 0x1_0000
  const TWO_32 := 0x1_0000_0000
  const INT32_MAX := 0x7FFF_FFFF
  const INT32_MIN := -0x8000_0000

  /** An `int` result: the mathematical value reduced to 32-bit two's complement. */
  function ToInt32(x: int): (r: int)
    ensures INT32_MIN <= r <= INT32_MAX
    ensures (r - x) % TWO_32 == 0
    ensures INT32_MIN <= x <= INT32_MAX ==> r == x
  {
    var u := x % TWO_32;
    if u <= INT32_MAX then u else u - TWO_32
  }

  /** An `unsigned long` result: the mathematical value modulo 2^32. */
  function ToUInt32(x: int): (r: int)
    ensures 0 <= r < TWO_32
    ensures (r - x) % TWO_32 == 0
    ensures 0 <= x < TWO_32 ==> r == x
  {
    x % TWO_32
  }

  /** A conversion to `short`. */
  function ToShort(x: int): (r: int)
    ensures -0x8000 <= r < 0x8000
    ensures (r - x) % TWO_16 == 0
    ensures -0x8000 <= x < 0x8000 ==> r == x
  {
    var u := x % TWO_16;
    if u < 0x8000 then u else u - TWO_16
  }

  /** A conversion to `unsigned short`. */
  function ToUShort(x: int): (r: int)
    ensures 0 <= r < TWO_16
    ensures (r - x) % TWO_16 == 0
    ensures 0 <= x < TWO_16 ==> r == x
  {
    x % TWO_16
  }

  /** `x >> 16` on an `int`: an arithmetic shift, which rounds toward minus
      infinity. */
  function ShiftRight16(x: int): (r: int)
    ensures r * TWO_16 <= x < (r + 1) * TWO_16
  {
    x / TWO_16
  }

  // Facts about multiplication and division that the solver needs spelled out.

  lemma MulMonotone(a: nat, b: int, c: int)
    requires b <= c
    ensures a * b <= a * c
  {
    assert a * c - a * b == a * (c - b);
  }

  /** Integer division by a positive divisor rounds down and never exceeds the
      dividend. */
  lemma DivBounds(x: nat, d: int)
    requires d > 0
    ensures (x / d) * d <= x < (x / d + 1) * d
    ensures 0 <= x / d <= x
  {
    var q, rem := x / d, x % d;
    assert q * d + rem == x;
    assert (q + 1) * d == q * d + d;
    MulMonotone(q, 1, d);
  }
}
