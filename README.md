# rp2040-sine-interpolator: a Dafny model of the sample pipeline

`sine_wave.c` plays a cosine tone through an I2S audio pool on an RP2040.
After setup, `main` runs one loop forever. Each iteration polls for at most
one console character and adjusts two tunables with it: `vol` (the volume)
and `step` (the phase increment per sample). It then takes an audio buffer
from the pool and fills every slot. Each slot gets a wavetable entry scaled
by the volume, and the entry is chosen by hardware interpolator 0. The
interpolator is configured as a phase accumulator. Each pop returns the
byte offset `(accum >> 15) & 0xFFE` into the 2048-entry int16 table. It
then writes back `accum + step`, modulo 2^32. The loop marks the buffer
full and gives it back to the pool. A `q` ends the loop.

The model has these modules:

- `Words` (words.dfy): the 32-bit unsigned type `Word`, the 16-bit signed
  type `Int16`, the modulo-2^32 wrap and the conversion to int16_t.
- `Phase` (phase.dfy): the interpolator's shift, mask and add as integer
  arithmetic, and the proof that the 32-bit wrap is seamless modulo the
  table length.
- `Controls` (controls.dfy): the key update as a function on `Tunables`,
  with the bounds it keeps and the saturating effect of each key.
- `Samples` (samples.dfy): the volume scaling as the C code computes it
  (unsigned product, logical shift, store to int16), and the samples one
  fill writes.
- `ControlLoop` (control_loop.dfy): a whole run over a finite sequence of
  polled key values, as the list of buffers given to the pool.
- `SineWave` (sine_wave.dfy): the state that changes in place. This is the
  `Interpolator` lane (accumulator and base register), the `AudioBuffer`
  the pool lends, and the `Oscillator` holding `vol`, `step`, the
  interpolator and the table. Its methods `HandleKey`, `FillBuffer` and
  `Run` are proved against the functions above.

## Model

| member | source | states |
|---|---|---|
| Words.Wrap | sine_wave.c:66 | reduction modulo 2^32 of the unsigned arithmetic: keeps a value already in [0, 2^32) and adds 2^32 to one in [-2^32, 0) |
| Words.ToInt16 | sine_wave.c:103 | storing to an int16_t slot keeps any value already in range, and otherwise changes it only by a multiple of 2^16 |
| Phase.TableIndex | sine_wave.c:16-19 | the entry addressed from any accumulator is below the table length 2048 |
| Phase.PopOffset | sine_wave.c:72-73 | the shift-by-15, mask-bits-1..11 offset is even, below 4096, and is exactly twice the index (accum >> 16) mod 2048 |
| Phase.AccumAfter | sine_wave.c:74-79 | the accumulator after k pops with a constant step, from a0; it addresses entry floor((a0 + k*s) / 2^16) mod 2048, whatever the wraps (pop-by-pop agreement: Phase.AdvanceAfter) |
| Phase.Advance | sine_wave.c:74 | the raw add's write-back addresses the entry of the unwrapped sum: wrapping modulo 2^32 does not move the index |
| Phase.WrapSeamless | sine_wave.c:16-73 | for any integer x, the index of x mod 2^32 equals floor(x / 2^16) mod 2048, because 2048 * 2^16 divides 2^32 |
| Phase.AdvanceAfter | sine_wave.c:74-79 | one more pop moves the accumulator from the k-step value to the (k+1)-step value, modulo 2^32 |
| Phase.AccumAfterAdd | sine_wave.c:94-102 | k pops then m pops with the same step equal k + m pops: the phase carries over between buffers |
| Phase.IndexFromZero | sine_wave.c:77-79 | from accumulator 0 with step s, pop k reads entry floor(k * s / 2^16) mod 2048 |
| Phase.IndexPeriodic | sine_wave.c:16-73 | adding any whole number of table periods (2048 * 2^16) to the accumulator, with wrap, leaves the index unchanged |
| Controls.ApplyKey | sine_wave.c:84-90 | an iteration's update ends the loop exactly when the polled value is 'q' (its effect on the tunables: Controls.KeyEffects, Controls.OtherKeysIgnored) |
| Controls.ApplyKeys | sine_wave.c:82-95 | the keys of successive iterations applied in turn; the sequence ends the loop exactly when it contains 'q', and no other character does (bounds: Controls.ApplyKeysInBounds) |
| Controls.InitialInBounds | sine_wave.c:66-81 | the initial vol 32 and step 0x200000 are within the kept bounds |
| Controls.KeyEffects | sine_wave.c:86-89 | within the bounds: '-' lowers vol by 4 unless it is 0; '+' and '=' raise it by 4 unless it is 256; '[' lowers step by 0x10000 unless it is 0x10000; ']' raises it unless it is 0x1000000 |
| Controls.EqualsIsPlus | sine_wave.c:87 | '=' and '+' have identical effects in every state |
| Controls.OtherKeysIgnored | sine_wave.c:84-91 | no character (c < 0), or any character other than - = + [ ] q, leaves vol and step unchanged |
| Controls.ApplyKeyInBounds | sine_wave.c:86-89 | a key keeps vol a multiple of 4 in [0, 256] and step a multiple of 0x10000 in [0x10000, 0x1000000] |
| Controls.ApplyKeysInBounds | sine_wave.c:82-95 | any sequence of keys keeps those bounds |
| Controls.ReachableInBounds | sine_wave.c:66-95 | from the initial tunables, any key sequence keeps those bounds |
| Controls.RepeatedIncrease | sine_wave.c:87 | n volume increases give min(256, vol + 4n): they saturate and further ones are no-ops |
| Controls.RepeatedDecrease | sine_wave.c:86 | n volume decreases give max(0, vol - 4n): they saturate and further ones are no-ops |
| Samples.Scale | sine_wave.c:103 | the sample `(vol * entry) >> 8u` stored to int16; for vol <= 256 it equals floor(vol * entry / 256) and its magnitude is at most the entry's |
| Samples.UnsignedScaleIsFloor | sine_wave.c:103 | for vol <= 256 the unsigned product, logical shift and modulo-2^16 store give floor(vol * entry / 256), at most the entry in magnitude, for every int16 entry |
| Samples.SampleAt | sine_wave.c:102-103 | the sample written at slot k: the scaled entry at index (accum >> 16) mod 2048 of the k-th pop's accumulator, looked up through the byte offset |
| Samples.Render | sine_wave.c:100-104 | the n samples of a fill: n of them, slot k holding the scaled entry addressed by the k-th pop's accumulator (properties: Samples.RenderFromZero, Samples.RenderConcat) |
| Samples.RenderFromZero | sine_wave.c:100-104 | from accumulator 0 with step s, slot k holds floor(vol * table[floor(k*s/2^16) mod 2048] / 256), no larger than that entry |
| Samples.RenderConcat | sine_wave.c:100-104 | filling n slots then m slots yields the same samples as filling n + m slots in one go |
| Samples.RenderStill | sine_wave.c:102-103 | with step 0 every slot holds the same scaled entry |
| ControlLoop.Play | sine_wave.c:82-108 | the buffers a run over polled key values gives to the pool: at most one per key, each with `capacity` samples (quit and count: ControlLoop.PlayShape, ControlLoop.PlayStopsAtQuit) |
| ControlLoop.PlayShape | sine_wave.c:82-108 | every buffer given back is full; a run stops exactly when a 'q' arrives; without one it gives one buffer per key and ends with the tunables the keys produce |
| ControlLoop.PlayStopsAtQuit | sine_wave.c:90-107 | at the first 'q' the loop leaves before taking another buffer: exactly one buffer per earlier key, and nothing after the 'q' matters |
| SineWave.Interpolator.constructor | sine_wave.c:71-75 | obtains lane 0 of interpolator 0 with the shift, mask and raw-add configuration that Pop2 encodes; the register values are set afterwards by the oscillator's setup |
| SineWave.Interpolator.Pop2 | sine_wave.c:72-74 | a pop returns the offset of the pre-add accumulator, even and addressing entry (accum >> 16) mod 2048, and adds the base with wrap, leaving the base unchanged |
| SineWave.AudioBuffer.constructor | sine_wave.c:97-98 | obtains a buffer with room for exactly its capacity (SAMPLES_PER_BUFFER in the program), as take_audio_buffer does; its sample count is overwritten when the fill ends (line 106) |
| SineWave.Oscillator.constructor | sine_wave.c:65-81 | setup leaves step 0x200000, accumulator 0, base holding the step and vol 32, within bounds |
| SineWave.Oscillator.HandleKey | sine_wave.c:84-95 | the in-place update matches the key function; on 'q' nothing changes; otherwise the interpolator base receives the new step; the phase is untouched; the bounds are kept |
| SineWave.Oscillator.FillBuffer | sine_wave.c:97-106 | every slot 0 .. max_sample_count-1 holds its rendered sample, sample_count becomes max_sample_count, and the accumulator has moved max_sample_count steps |
| SineWave.Oscillator.Run | sine_wave.c:82-108 | the loop gives to the pool exactly the buffers the run function describes, and ends in the state it describes |

## Left out

- `init_audio` (sine_wave.c:21-55) is left out: it configures I2S, DMA, PIO and the buffer pool, and calls `panic` on failure.
- The wavetable is built with `cosf`, which is floating point (sine_wave.c:61-63). The model takes the table as any 2048 int16 values. The scaling results hold for the whole int16 range, so no bound on the entries is needed.
- Console I/O is left out: `stdio_init_all`, `getchar_timeout_us`, `printf` and `puts`. The polled values are an input sequence of integers, and a negative value means that no character arrived.
- `take_audio_buffer` and `give_audio_buffer` are a blocking external library that hands buffers to DMA concurrently. Taking a buffer is modelled as allocating a fresh `AudioBuffer` of the pool's capacity. Giving it back is modelled as recording the samples it will play. The pool of 3 buffers, blocking and reuse are not modelled.
- Interpolator registers are replaced by the equivalent integer arithmetic. `base[2]`, the table's address, is replaced by indexing the table at offset / 2. Lane 1 is never configured and is taken to contribute 0.
- `pos_max` (sine_wave.c:67) is computed but never used.
- SineWave.Oscillator.Run: the source loop runs forever. A run is described only up to the end of a finite key sequence.
- Words.ToInt16: C leaves the conversion of an out-of-range value to int16_t implementation-defined. The model reduces modulo 2^16, as the two's complement toolchain does. This choice matters: for a negative entry the shifted unsigned product lies in [2^24 - 2^15, 2^24) (0xFFFFFF for vol 32 and entry -1), outside int16. Only the modulo-2^16 reduction turns it into floor(vol * entry / 256), so Samples.UnsignedScaleIsFloor depends on it; a saturating conversion would store 32767 instead.
- Three behaviours of the code worth noting:
  - The volume can reach 256, not 255, because the guard `vol < 255` is tested before `+= 4`.
  - The accumulator is unsigned and its shift is logical. Scaling is floor division, which rounds toward minus infinity.
  - The step never drops below 0x10000. A zero step still renders a constant buffer (Samples.RenderStill).
