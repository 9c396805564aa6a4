/** The control-key update of the two tunables, volume and step, that the
    main loop performs once per iteration on at most one input character. */
module Controls {
  import opened Words
  import Phase

  const InitialVol: Word := 32
  const InitialStep: Word := 0x20_0000
  const VolDelta: int := 4
  const StepDelta: int := 0x1_0000
  /** The step's upper guard: (SINE_WAVE_TABLE_LEN / 16) * 0x20000. */
  const StepMax: int := (Phase.TableLen / 16) * 0x2_0000
  /** The largest volume the guard `vol < 255` lets the loop reach. */
  const VolMax: int := 256

  datatype Tunables = Tunables(vol: Word, step: Word)

  /** What an iteration does after reading its character: go on with the
      updated tunables, or leave the loop. */
  datatype Control = Continue(tunables: Tunables) | Quit

  /** The character codes the loop reacts to. */
  const Minus: int := '-' as int
  const Equals: int := '=' as int
  const Plus: int := '+' as int
  const LeftBracket: int := '[' as int
  const RightBracket: int := ']' as int
  const QuitKey: int := 'q' as int

  /** One iteration's update for the polled value c; c < 0 means no
      character arrived. The guarded steps are tested one after the other,
      as in the loop body; `vol` is unsigned, so its decrement wraps. */
  function ApplyKey(t: Tunables, c: int): (r: Control)
    ensures r == Quit <==> c == QuitKey
  {
    if c < 0 then Continue(t)
    else
      var vol1 := if c == Minus && t.vol != 0 then Wrap(t.vol - VolDelta) else t.vol;
      var vol2 := if (c == Equals || c == Plus) && vol1 < 255 then vol1 + VolDelta else vol1;
      var step1 := if c == LeftBracket && t.step > StepDelta then t.step - StepDelta else t.step;
      var step2 := if c == RightBracket && step1 < StepMax then step1 + StepDelta else step1;
      if c == QuitKey then Quit else Continue(Tunables(vol2, step2))
  }

  /** The bounds the loop keeps: the volume a multiple of 4 in [0, 256], the
      step a multiple of 0x10000 in [0x10000, 0x1000000]. */
  ghost predicate InBounds(t: Tunables)
  {
    && t.vol % VolDelta == 0 && 0 <= t.vol <= VolMax
    && t.step % StepDelta == 0 && StepDelta <= t.step <= StepMax
  }

  /** The loop starts inside the bounds. */
  lemma InitialInBounds()
    ensures InBounds(Tunables(InitialVol, InitialStep))
  {
  }

  /** Under the bounds every key's effect is a saturating step: '-' lowers
      the volume by 4 unless it is 0, '=' and '+' raise it by 4 unless it
      is 256, '[' lowers the step by 0x10000 unless it is at its minimum,
      ']' raises it unless it is at its maximum. */
  lemma KeyEffects(t: Tunables)
    requires InBounds(t)
    ensures ApplyKey(t, Minus) == Continue(t.(vol := if t.vol == 0 then 0 else t.vol - VolDelta))
    ensures ApplyKey(t, Plus) == Continue(t.(vol := if t.vol == VolMax then VolMax else t.vol + VolDelta))
    ensures ApplyKey(t, LeftBracket)
         == Continue(t.(step := if t.step == StepDelta then StepDelta else t.step - StepDelta))
    ensures ApplyKey(t, RightBracket)
         == Continue(t.(step := if t.step == StepMax then StepMax else t.step + StepDelta))
  {
  }

  /** '=' and '+' have the same effect in every state. */
  lemma EqualsIsPlus(t: Tunables)
    ensures ApplyKey(t, Equals) == ApplyKey(t, Plus)
  {
  }

  /** No character, or one the loop does not recognise, changes nothing. */
  lemma OtherKeysIgnored(t: Tunables, c: int)
    requires c !in {Minus, Equals, Plus, LeftBracket, RightBracket, QuitKey}
    ensures ApplyKey(t, c) == Continue(t)
  {
  }

  /** A single key keeps the tunables within their bounds. */
  lemma ApplyKeyInBounds(t: Tunables, c: int)
    requires InBounds(t)
    ensures ApplyKey(t, c).Continue? ==> InBounds(ApplyKey(t, c).tunables)
  {
  }

  /** The keys of successive iterations applied in turn, up to and
      including the first quit. */
  function ApplyKeys(t: Tunables, keys: seq<int>): (r: Control)
    ensures r == Quit <==> QuitKey in keys
    decreases |keys|
  {
    if keys == [] then Continue(t)
    else
      assert keys == [keys[0]] + keys[1..];
      match ApplyKey(t, keys[0])
      case Quit => Quit
      case Continue(t1) => ApplyKeys(t1, keys[1..])
  }

  /** Whatever the keys, the tunables never leave their bounds. */
  lemma {:induction false} ApplyKeysInBounds(t: Tunables, keys: seq<int>)
    requires InBounds(t)
    ensures ApplyKeys(t, keys).Continue? ==> InBounds(ApplyKeys(t, keys).tunables)
    decreases |keys|
  {
    if keys != [] {
      ApplyKeyInBounds(t, keys[0]);
      if ApplyKey(t, keys[0]).Continue? {
        ApplyKeysInBounds(ApplyKey(t, keys[0]).tunables, keys[1..]);
      }
    }
  }

  /** From the initial tunables any key sequence keeps the bounds. */
  lemma ReachableInBounds(keys: seq<int>)
    ensures ApplyKeys(Tunables(InitialVol, InitialStep), keys).Continue? ==>
              InBounds(ApplyKeys(Tunables(InitialVol, InitialStep), keys).tunables)
  {
    InitialInBounds();
    ApplyKeysInBounds(Tunables(InitialVol, InitialStep), keys);
  }

  function Min(a: int, b: int): (r: int) { if a <= b then a else b }
  function Max(a: int, b: int): (r: int) { if a <= b then b else a }

  /** Repeated volume increases saturate at 256; further ones are no-ops. */
  lemma {:induction false} RepeatedIncrease(t: Tunables, n: nat)
    requires InBounds(t)
    ensures ApplyKeys(t, seq(n, _ => Plus))
         == Continue(t.(vol := Min(VolMax, t.vol + VolDelta * n)))
    decreases n
  {
    if n > 0 {
      KeyEffects(t);
      var t1 := t.(vol := if t.vol == VolMax then VolMax else t.vol + VolDelta);
      assert seq(n, _ => Plus)[1..] == seq(n - 1, _ => Plus);
      RepeatedIncrease(t1, n - 1);
    }
  }

  /** Repeated volume decreases saturate at 0; further ones are no-ops. */
  lemma {:induction false} RepeatedDecrease(t: Tunables, n: nat)
    requires InBounds(t)
    ensures ApplyKeys(t, seq(n, _ => Minus))
         == Continue(t.(vol := Max(0, t.vol - VolDelta * n)))
    decreases n
  {
    if n > 0 {
      KeyEffects(t);
      var t1 := t.(vol := if t.vol == 0 then 0 else t.vol - VolDelta);
      assert seq(n, _ => Minus)[1..] == seq(n - 1, _ => Minus);
      RepeatedDecrease(t1, n - 1);
    }
  }
}
