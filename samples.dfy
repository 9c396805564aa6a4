/** The sample computation of the fill loop: a table entry scaled by the
    volume, and the sequence of samples one buffer receives. */
module Samples {
  import opened Words
  import opened Phase

  /** The wavetable: 2048 int16 entries, fixed once built. */
  type Table = t: seq<Int16> | |t| == TableLen witness seq(TableLen, _ => 0)

  /** `(vol * (*p)) >> 8u` stored into an int16_t slot. `vol` is unsigned,
      so the entry is converted to unsigned, the product wraps modulo 2^32
      and the shift is logical; the store truncates to 16 bits. */
  function Scale(vol: Word, entry: Int16): (r: Int16)
    ensures vol <= 256 ==> r == (vol * entry) / 256 && Abs(r) <= Abs(entry)
  {
    var stored := ToInt16(Wrap(vol * entry) / 256);
    if vol <= 256 then UnsignedScaleIsFloor(vol, entry); stored else stored
  }

  /** For volumes up to 256 the unsigned computation is exact floor
      division of the signed product by 256, and the result is no larger
      in magnitude than the table entry. For a negative entry the shifted
      unsigned value lies in [2^24 - 2^15, 2^24); only the reduction
      modulo 2^16 of the int16 store brings it back to the floor. */
  lemma UnsignedScaleIsFloor(vol: Word, entry: Int16)
    requires vol <= 256
    ensures ToInt16(Wrap(vol * entry) / 256) == (vol * entry) / 256
    ensures Abs(ToInt16(Wrap(vol * entry) / 256)) <= Abs(entry)
  {
    var p := vol * entry;
    assert -0x80_0000 <= p <= 0x7F_FFFF by {
      if entry >= 0 { assert p <= 256 * entry; } else { assert p >= 256 * entry; }
    }
    if p < 0 {
      assert Wrap(p) == p + Two32;
      assert Wrap(p) / 256 == p / 256 + 0x100_0000;
    }
    if entry >= 0 { assert p <= 256 * entry; } else { assert p >= 256 * entry; }
  }

  function Abs(x: int): (r: nat) { if x < 0 then -x else x }

  /** Sample k of a buffer whose fill starts with accumulator a0: the
      entry at the byte offset of the k-th pop, scaled by the volume. */
  function SampleAt(table: Table, vol: Word, step: Word, a0: Word, k: nat): (r: Int16)
    ensures r == Scale(vol, table[TableIndex(AccumAfter(a0, step, k))])
  {
    Scale(vol, table[PopOffset(AccumAfter(a0, step, k)) / 2])
  }

  /** The n samples a fill writes, slot by slot. */
  function Render(table: Table, vol: Word, step: Word, a0: Word, n: nat): (s: seq<Int16>)
    ensures |s| == n
    ensures forall k :: 0 <= k < n ==> s[k] == Scale(vol, table[TableIndex(AccumAfter(a0, step, k))])
  {
    seq(n, k requires 0 <= k < n => SampleAt(table, vol, step, a0, k))
  }

  /** With constant step s from accumulator 0, slot k holds the entry
      floor(k * s / 2^16) mod 2048 scaled by the volume; for volumes up to
      256 that is floor(vol * entry / 256), never larger than the entry. */
  lemma RenderFromZero(table: Table, vol: Word, step: Word, n: nat, k: nat)
    requires vol <= 256 && k < n
    ensures var entry := table[(k * step / Unit) % TableLen];
            && Render(table, vol, step, 0, n)[k] == (vol * entry) / 256
            && Abs(Render(table, vol, step, 0, n)[k]) <= Abs(entry)
  {
    IndexFromZero(step, k);
  }

  /** Two consecutive fills produce exactly what one fill of their combined
      length would: the second starts at the phase where the first ended. */
  lemma RenderConcat(table: Table, vol: Word, step: Word, a0: Word, n: nat, m: nat)
    ensures Render(table, vol, step, a0, n + m)
         == Render(table, vol, step, a0, n) + Render(table, vol, step, AccumAfter(a0, step, n), m)
  {
    var whole := Render(table, vol, step, a0, n + m);
    var tail := Render(table, vol, step, AccumAfter(a0, step, n), m);
    forall k | 0 <= k < m
      ensures whole[n + k] == tail[k]
    {
      AccumAfterAdd(a0, step, n, k);
    }
  }

  /** With step 0 every sample of a buffer is the same scaled entry. */
  lemma RenderStill(table: Table, vol: Word, a0: Word, n: nat, k: nat)
    requires k < n
    ensures Render(table, vol, 0, a0, n)[k] == Scale(vol, table[TableIndex(a0)])
  {
  }
}
