/** The oscillator's mutable state: the hardware interpolator lane that
    holds the phase, the audio buffers the pool lends out, and main's
    locals `vol` and `step`. */
module SineWave {
  import opened Words
  import opened Phase
  import opened Controls
  import opened Samples
  import opened ControlLoop

  /** Lane 0 of interpolator 0 with the configuration of the program: its
      accumulator and its base register, which holds the step. */
  class Interpolator {
    var accum0: Word
    var base0: Word

    constructor ()
      ensures accum0 == 0 && base0 == 0
    {
      accum0, base0 := 0, 0;
    }

    /** A read of POP_FULL: returns the byte offset of the entry addressed
        by the accumulator before the add, then adds the raw base. */
    method Pop2() returns (offset: nat)
      modifies this
      ensures offset == PopOffset(old(accum0))
      ensures offset % 2 == 0 && offset / 2 == TableIndex(old(accum0))
      ensures accum0 == Advance(old(accum0), base0) && base0 == old(base0)
    {
      offset := PopOffset(accum0);
      accum0 := Wrap(accum0 + base0);
    }
  }

  /** A buffer lent by the audio pool: room for maxSampleCount int16
      samples and the count of those that are to be played. */
  class AudioBuffer {
    const maxSampleCount: nat
    const samples: array<Int16>
    var sampleCount: nat

    ghost predicate Valid()
    {
      samples.Length == maxSampleCount
    }

    constructor (capacity: nat)
      ensures Valid() && maxSampleCount == capacity && sampleCount == 0 && fresh(samples)
    {
      maxSampleCount := capacity;
      samples := new Int16[capacity];
      sampleCount := 0;
    }

    /** The samples the sink will play. */
    function Played(): seq<Int16>
      reads this, samples
      requires Valid() && sampleCount <= maxSampleCount
    {
      samples[..sampleCount]
    }
  }

  /** main's state after setup: the tunables, the interpolator carrying the
      phase, and the wavetable. */
  class Oscillator {
    var vol: Word
    var step: Word
    const interp: Interpolator
    const table: Table

    /** The interpolator's base holds the current step, and the tunables
        stay within the bounds the key updates keep. */
    ghost predicate Valid()
      reads this, interp
    {
      interp.base0 == step && InBounds(Tunables(vol, step))
    }

    ghost function Current(): Tunables
      reads this
    {
      Tunables(vol, step)
    }

    /** Setup: step 0x200000, accumulator 0, base 0 set to the step,
        volume 32. */
    constructor (table: Table)
      ensures Valid() && fresh(interp) && this.table == table
      ensures Current() == Tunables(InitialVol, InitialStep) && interp.accum0 == 0
    {
      this.table := table;
      step := InitialStep;
      var lane := new Interpolator();
      lane.accum0 := 0;
      lane.base0 := InitialStep;
      interp := lane;
      vol := InitialVol;
      InitialInBounds();
    }

    /** One iteration's key handling: the guarded updates, 'q' to leave,
        and otherwise the new step written to the interpolator's base. */
    method HandleKey(c: int) returns (quit: bool)
      requires Valid()
      modifies this, interp
      ensures Valid()
      ensures quit <==> c == QuitKey
      ensures ApplyKey(old(Current()), c) == if quit then Quit else Continue(Current())
      ensures quit ==> Current() == old(Current())
      ensures interp.accum0 == old(interp.accum0)
    {
      ApplyKeyInBounds(Current(), c);
      if c >= 0 {
        if c == Minus && vol != 0 { vol := Wrap(vol - VolDelta); }
        if (c == Equals || c == Plus) && vol < 255 { vol := vol + VolDelta; }
        if c == LeftBracket && step > StepDelta { step := step - StepDelta; }
        if c == RightBracket && step < StepMax { step := step + StepDelta; }
        if c == QuitKey { return true; }
        interp.base0 := step;
      }
      return false;
    }

    /** The fill: every slot in order gets the scaled entry the next pop
        addresses; then the whole buffer is marked for playing. */
    method FillBuffer(buf: AudioBuffer)
      requires Valid() && buf.Valid()
      modifies interp, buf, buf.samples
      ensures Valid()
      ensures buf.samples[..] == Render(table, vol, step, old(interp.accum0), buf.maxSampleCount)
      ensures buf.sampleCount == buf.maxSampleCount
      ensures buf.Played() == Render(table, vol, step, old(interp.accum0), buf.maxSampleCount)
      ensures interp.accum0 == AccumAfter(old(interp.accum0), step, buf.maxSampleCount)
    {
      var i := 0;
      while i < buf.maxSampleCount
        invariant 0 <= i <= buf.maxSampleCount
        invariant Valid()
        invariant interp.accum0 == AccumAfter(old(interp.accum0), step, i)
        invariant forall j :: 0 <= j < i ==> buf.samples[j] == SampleAt(table, vol, step, old(interp.accum0), j)
      {
        var p := interp.Pop2();
        AdvanceAfter(old(interp.accum0), step, i);
        buf.samples[i] := Scale(vol, table[p / 2]);
        i := i + 1;
      }
      buf.sampleCount := buf.maxSampleCount;
    }

    /** The main loop over the values the key poll returns: each iteration
        handles its key, leaves on 'q', and otherwise takes a buffer of
        `capacity` slots from the pool, fills it and gives it back. */
    method Run(keys: seq<int>, capacity: nat) returns (given: seq<seq<Int16>>, quit: bool)
      requires Valid()
      modifies this, interp
      ensures Valid()
      ensures Play(table, old(Current()), old(interp.accum0), keys, capacity)
           == Outcome(given, Current(), interp.accum0, quit)
    {
      given, quit := [], false;
      var i := 0;
      while i < |keys|
        invariant 0 <= i <= |keys| && Valid()
        invariant Play(table, old(Current()), old(interp.accum0), keys, capacity)
               == Prepend(given, Play(table, Current(), interp.accum0, keys[i..], capacity))
      {
        assert keys[i..][0] == keys[i] && keys[i..][1..] == keys[i + 1..];
        quit := HandleKey(keys[i]);
        if quit {
          break;
        }
        var buffer := new AudioBuffer(capacity);
        FillBuffer(buffer);
        given := given + [buffer.Played()];
        i := i + 1;
      }
    }
  }
}
