/** The main loop as a whole: per iteration, apply the polled key, then
    (unless it was 'q') fill one buffer and hand it to the audio pool. The
    loop is unbounded; a run is described over the finite sequence of
    values the key poll returns. */
module ControlLoop {
  import opened Words
  import opened Phase
  import opened Controls
  import opened Samples

  /** What a run hands to the audio pool, where it leaves the tunables and
      the accumulator, and whether it ended on 'q'. */
  datatype Outcome = Outcome(given: seq<seq<Int16>>, tunables: Tunables, accum: Word, quit: bool)

  /** The buffers a run submits, each of `capacity` samples. */
  function Play(table: Table, t: Tunables, accum: Word, keys: seq<int>, capacity: nat): (r: Outcome)
    ensures |r.given| <= |keys|
    ensures forall j :: 0 <= j < |r.given| ==> |r.given[j]| == capacity
    decreases |keys|
  {
    if keys == [] then Outcome([], t, accum, false)
    else match ApplyKey(t, keys[0])
      case Quit => Outcome([], t, accum, true)
      case Continue(t1) =>
        var rest := Play(table, t1, AccumAfter(accum, t1.step, capacity), keys[1..], capacity);
        rest.(given := [Render(table, t1.vol, t1.step, accum, capacity)] + rest.given)
  }

  /** Every submitted buffer is complete; the run ends on 'q' exactly when
      the keys hold one, and submits one buffer per key before the first
      'q' (per key, when there is none); the tunables follow the key
      updates. */
  lemma {:induction false} PlayShape(table: Table, t: Tunables, accum: Word, keys: seq<int>, capacity: nat)
    ensures var r := Play(table, t, accum, keys, capacity);
            && (forall b :: b in r.given ==> |b| == capacity)
            && (r.quit <==> QuitKey in keys)
            && (!r.quit ==> |r.given| == |keys| && ApplyKeys(t, keys) == Continue(r.tunables))
            && (r.quit ==> ApplyKeys(t, keys) == Quit)
    decreases |keys|
  {
    if keys != [] {
      assert keys == [keys[0]] + keys[1..];
      match ApplyKey(t, keys[0])
      case Quit =>
      case Continue(t1) =>
        PlayShape(table, t1, AccumAfter(accum, t1.step, capacity), keys[1..], capacity);
    }
  }

  /** Nothing after the first 'q' matters: the run submits exactly the
      buffers of the keys before it, one per key, and stops. */
  lemma {:induction false} PlayStopsAtQuit(table: Table, t: Tunables, accum: Word, keys: seq<int>, i: nat, capacity: nat)
    requires i < |keys| && keys[i] == QuitKey && QuitKey !in keys[..i]
    ensures var r := Play(table, t, accum, keys, capacity);
            r == Play(table, t, accum, keys[..i], capacity).(quit := true)
            && |r.given| == i
    decreases i
  {
    if i == 0 {
    } else {
      assert keys[0] in keys[..i];
      match ApplyKey(t, keys[0])
      case Quit =>
      case Continue(t1) =>
        assert keys[1..][..i - 1] == keys[..i][1..];
        PlayStopsAtQuit(table, t1, AccumAfter(accum, t1.step, capacity), keys[1..], i - 1, capacity);
    }
  }

  /** The run's result with `given` put in front of what it submits. */
  function Prepend(given: seq<seq<Int16>>, rest: Outcome): (r: Outcome)
  {
    rest.(given := given + rest.given)
  }
}
