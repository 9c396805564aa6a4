/** The phase accumulator that lane 0 of interpolator 0 implements. It is
    configured with a right shift of 15, a mask keeping bits 1..11 and the
    raw add: each pop yields the shifted and masked pre-add accumulator (a
    byte offset into the 2048-entry int16 wavetable) and writes back the
    accumulator plus the raw step, modulo 2^32. Lane 1 is never configured
    and contributes nothing to the offset. */
module Phase {
  import opened Words

  /** Entries in the wavetable (SINE_WAVE_TABLE_LEN). */
  const TableLen: int := 2048
  /** Accumulator units per table entry: 16 fractional bits. */
  const Unit: int := 0x1_0000
  /** Accumulator span of one full table period: TableLen * Unit. */
  const Period: int := 0x800_0000

  /** The entry a pop addresses: the integer part of the accumulator, modulo
      the table length. */
  function TableIndex(accum: Word): (i: nat)
    ensures i < TableLen
  {
    (accum / Unit) % TableLen
  }

  /** Lane 0's shift-and-mask result: the accumulator shifted right by 15
      bits, then masked to bits 1..11 (the mask 0xFFE). This is the byte
      offset added to the table's address. */
  function PopOffset(accum: Word): (off: nat)
    ensures off % 2 == 0 && off < 2 * TableLen
    ensures off == 2 * TableIndex(accum)
  {
    var shifted := accum / 0x8000;
    var masked := shifted % 0x1000 - shifted % 2;
    OffsetIsIndex(accum);
    masked
  }

  lemma OffsetIsIndex(accum: Word)
    ensures (accum / 0x8000) % 0x1000 - (accum / 0x8000) % 2 == 2 * TableIndex(accum)
  {
    var shifted := accum / 0x8000;
    var y := accum / Unit;
    assert shifted / 2 == y;
    assert shifted == 2 * y + shifted % 2;
    assert shifted % 0x1000 == 2 * (y % TableLen) + shifted % 2;
  }

  /** The write-back of one pop: the raw step added to the accumulator. */
  function Advance(accum: Word, step: Word): (a: Word)
    ensures TableIndex(a) == ((accum + step) / Unit) % TableLen
  {
    WrapSeamless(accum + step);
    Wrap(accum + step)
  }

  /** The accumulator after k pops with a constant step, starting at a0. */
  function AccumAfter(a0: Word, step: Word, k: nat): (a: Word)
    ensures TableIndex(a) == ((a0 + k * step) / Unit) % TableLen
  {
    WrapSeamless(a0 + k * step);
    Wrap(a0 + k * step)
  }

  /** The 32-bit wrap of the accumulator does not disturb the index: since
      Unit * TableLen divides 2^32, the index of the wrapped value is the
      index of the unbounded value. */
  lemma WrapSeamless(x: int)
    ensures TableIndex(Wrap(x)) == (x / Unit) % TableLen
  {
    var q := x / Two32;
    var r := Wrap(x);
    assert x == q * Two32 + r;
    assert x / Unit == q * Unit + r / Unit;
    assert q * Unit == (q * 32) * TableLen;
  }

  /** One more pop moves the accumulator on by exactly one step. */
  lemma AdvanceAfter(a0: Word, step: Word, k: nat)
    ensures Advance(AccumAfter(a0, step, k), step) == AccumAfter(a0, step, k + 1)
  {
    WrapAdd(a0 + k * step, step);
    assert a0 + k * step + step == a0 + (k + 1) * step;
  }

  /** k pops and then m more pops are k + m pops: the phase carries over
      from one buffer to the next. */
  lemma AccumAfterAdd(a0: Word, step: Word, k: nat, m: nat)
    ensures AccumAfter(AccumAfter(a0, step, k), step, m) == AccumAfter(a0, step, k + m)
  {
    WrapAdd(a0 + k * step, m * step);
    assert a0 + k * step + m * step == a0 + (k + m) * step;
  }

  /** From accumulator 0 with constant step s, pop k reads entry
      floor(k * s / 2^16) mod 2048, 32-bit wrap notwithstanding. */
  lemma IndexFromZero(step: Word, k: nat)
    ensures TableIndex(AccumAfter(0, step, k)) == (k * step / Unit) % TableLen
  {
    WrapSeamless(k * step);
  }

  /** Moving the accumulator by whole table periods, in either direction and
      through any number of 32-bit wraps, leaves the index where it was. */
  lemma IndexPeriodic(accum: Word, m: int)
    ensures TableIndex(Wrap(accum + m * Period)) == TableIndex(accum)
  {
    WrapSeamless(accum + m * Period);
    assert (accum + m * Period) / Unit == accum / Unit + m * TableLen;
  }
}
