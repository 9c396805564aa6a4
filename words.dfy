/** Machine integer widths used by the oscillator: the 32-bit unsigned
    registers and locals (uint32_t, uint) and the 16-bit signed samples
    (int16_t). Wrap-around is written out explicitly. */
module Words {

  const Two32: int := 0x1_0000_0000
  const Two16: int := 0x1_0000

  /** A 32-bit unsigned value. */
  type Word = x: int | 0 <= x < 0x1_0000_0000

  /** A 16-bit signed value. */
  type Int16 = x: int | -0x8000 <= x < 0x8000

  /** Reduction modulo 2^32, as C performs it for unsigned arithmetic. */
  function Wrap(x: int): (r: Word)
    ensures 0 <= x < Two32 ==> r == x
    ensures -Two32 <= x < 0 ==> r == x + Two32
  {
    x % Two32
  }

  /** Conversion of an unsigned 32-bit value to int16_t: the value is
      reduced modulo 2^16 into the signed range (the two's complement
      behaviour of the toolchain the program is built with). */
  function ToInt16(x: Word): (r: Int16)
    ensures -0x8000 <= x < 0x8000 ==> r == x
    ensures (x - r) % Two16 == 0
  {
    var low := x % Two16;
    if low < 0x8000 then low else low - Two16
  }

  /** Adding after a wrap is the same as wrapping after the add. */
  lemma WrapAdd(x: int, y: int)
    ensures Wrap(Wrap(x) + y) == Wrap(x + y)
  {
    var q := x / Two32;
    assert x == q * Two32 + Wrap(x);
    assert Wrap(x) + y == (x + y) - q * Two32;
  }
}
