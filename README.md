# SineWave tone generator — Dafny model

This project models the sound generator of a small Rust application that
plays a continuous tone through the oboe audio library. The generator,
`SineWave`, holds a frequency, a gain, a running phase and an optional
per-sample phase increment `delta`. The audio driver calls its
`on_audio_ready` callback once per hardware buffer. That call does three
things:

- on the first call, it derives `delta = frequency * 2 * PI / sample_rate`
  from the stream's sample rate;
- it overwrites the buffer in order with `gain * sin(phase)`, adding `delta`
  after each slot and taking off whole turns while the phase is strictly
  above `2 * PI`;
- it tells the driver to `Continue`.

Files:

- `phase.dfy` (module `Phase`): the program's truncated `PI` and
  `TwoPi = 2 * PI`, the wrap step `Wrap`, the number of turns it removes
  (`WrapCount`), and the phase reached after `n` samples (`PhaseAfter`).
- `sine_wave.dfy` (module `SineWaveGenerator`): the continuation signal, the
  default constants, the increment, the sample sequence `Samples`, the class
  `SineWave` with its constructor, its callback and the callback's wrap loop
  (`WrapPhase`, kept as a method of its own), and a driver-side method that
  compares two calls against one.

The sine is a parameter `sin: real -> real` of the callback and of
`Samples`. The model knows nothing about it except, in the amplitude lemmas,
that it stays within [-1, 1] (`BoundedSine`). The stream handle appears only
as the sample rate it reports (an integer, as `get_sample_rate` returns one).
The callback is proved against `Samples` and `PhaseAfter`. Its contract says
the new buffer equals `Samples` of the old phase, the new phase equals
`PhaseAfter` of the old phase, and the object invariant `Valid` is kept. The
lemmas then prove the listed properties about those two functions.

Three facts about the program shape the model:

- The wrap test is a strict `phase > 2.0 * PI`, so a phase of exactly
  `TwoPi` is kept. `Valid` therefore allows `0 <= phase <= TwoPi`, and
  `DefaultGeneratorReachesTwoPi` shows that a default generator on a 440 Hz
  stream reaches that value after one frame.
- The program has only the default constructor, `SineWave::default()`, and
  that is the one constructor modelled (`SineWave.Default`).
- With the program's `PI`, 440 * 2 * PI / 44100 is 0.062689..., which is what
  `ReferenceIncrement` states.

## Model

| member | source | states |
|---|---|---|
| `Phase.Wrap` | src/main.rs:57-59 | The wrapped phase is at most one turn. A phase of at most one turn, including exactly one turn, is left unchanged. A phase above one turn ends strictly between 0 and its old value. |
| `Phase.WrapCount` | src/main.rs:57-59 | The number of passes the wrap loop makes: the fewest whole turns whose removal leaves the phase at most one turn (one turn fewer would still leave it above one turn). |
| `Phase.WrapTakesWholeTurns` | src/main.rs:57-59 | The wrap removes whole turns only: exactly `WrapCount(p)` copies of `TwoPi`. |
| `Phase.WrapStep` | src/main.rs:57-58 | One pass of the wrap loop, taken while the phase is above one turn, leaves the final wrapped value unchanged and leaves exactly one turn fewer to remove. |
| `Phase.WrapUnique` | src/main.rs:57-59 | Reference definition: for a phase above one turn, the wrap gives the only value in (0, TwoPi] that differs from it by whole turns. |
| `Phase.PhaseAfter` | src/main.rs:54-59 | After at least one sample, the phase is at most `TwoPi`. A start within one turn stays within one turn. A non-negative start with a non-negative increment never goes negative. |
| `Phase.PhaseAfterAdditive` | src/main.rs:41-60 | Continuity of the phase: n steps followed by m steps reach the same phase as n + m steps. |
| `Phase.PhaseMayEqualTwoPi` | src/main.rs:57 | Because the wrap test is strict, a stored phase of exactly `TwoPi` can occur. |
| `SineWaveGenerator.Increment` | src/main.rs:42-43 | The increment times the sample rate is `frequency * TwoPi` (radians per second). The increment is non-negative exactly when the frequency is. |
| `SineWaveGenerator.ReferenceIncrement` | src/main.rs:21-22 | At the default 440 Hz on a 44100 Hz stream, the increment lies between 0.06268 and 0.06270. |
| `SineWaveGenerator.Sample` | src/main.rs:55 | The sample `gain * sin(phase)`: its magnitude is the gain's times the sine's, and a gain of zero gives a zero sample. |
| `SineWaveGenerator.Samples` | src/main.rs:54-60 | A call renders exactly as many samples as there are slots. |
| `SineWaveGenerator.SampleAt` | src/main.rs:54-56 | Sample k is `gain * sin` of the phase reached after k steps from the entry phase. |
| `SineWaveGenerator.SamplesAdditive` | src/main.rs:41-60 | Continuity: n samples followed by m samples, resumed from the phase the first n left behind, equal the n + m samples of one call. |
| `SineWaveGenerator.SamplesFirst` | src/main.rs:54-60 | Order of one call: the first slot gets the sample at the entry phase, and the remaining slots continue from the entry phase plus the increment, wrapped. |
| `SineWaveGenerator.SampleWithinGain` | src/main.rs:55 | With the sine in [-1, 1], one sample's magnitude is at most the gain's. |
| `SineWaveGenerator.SamplesWithinGain` | src/main.rs:54-55 | Amplitude: with the sine in [-1, 1], no sample in the buffer has a magnitude above the gain's. |
| `SineWaveGenerator.SilentWithZeroGain` | src/main.rs:55 | Silence: a gain of zero fills the buffer with zeros, whatever the phase, increment or sine. |
| `SineWaveGenerator.SineWave.Default` | src/main.rs:18-27 | Default construction gives frequency 440, gain 0.5, phase 0, no increment, and a valid state. |
| `SineWaveGenerator.SineWave.WrapPhase` | src/main.rs:57-59 | The wrap loop run on the stored phase: it changes only the phase, and leaves it at `Wrap` of its old value. |
| `SineWaveGenerator.SineWave.OnAudioReady` | src/main.rs:35-64 | The call returns `Continue`, never `Stop`. Frequency and gain are unchanged. An absent increment is set to `Increment(frequency, sampleRate)`; a present one is left as it is. The buffer becomes `Samples` of the entry phase, and the phase becomes `PhaseAfter` of the entry phase. The invariant (phase in [0, TwoPi], non-negative increment) is kept. |
| `SineWaveGenerator.SplitRenderMatchesSingle` | src/main.rs:35-64 | A default generator called with a buffer of n frames and then one of m frames writes the same samples as a second, distinct default generator called once with a buffer of n + m frames, and ends with the same phase. The combined buffer is `Samples` from phase 0 at the increment for the first call's rate. The increment comes from the first call's sample rate; the rate reported by the second call is ignored. |
| `SineWaveGenerator.DefaultGeneratorReachesTwoPi` | src/main.rs:18-59 | A default generator called with one frame on a 440 Hz stream keeps frequency 440 and gain 0.5, writes `0.5 * sin(0)` into the frame, gets the increment `TwoPi`, and because the wrap test is strict it ends with a stored phase of exactly `TwoPi`, in a valid state. |

## Left out

- Floating point: all arithmetic is on unbounded reals. Single-precision
  rounding, the `i32` to `f32` conversion of the sample rate and bit-exact
  output are not modelled. `PI` is the program's truncated constant, taken as
  an exact real.
- The sine itself: `f32::sin` is an arbitrary function parameter, so the
  zero-crossing count of a 440 Hz tone cannot be stated.
- `SineWaveGenerator.SineWave.OnAudioReady` requires a positive sample rate
  when the increment is still absent, because the driver reports one once the
  stream is open. A later call may report any rate, since it is not read. With
  a rate of zero and a non-zero frequency, the program would divide by zero in
  `f32`, get an infinite increment, and never leave the wrap loop. A negative
  rate would give a negative increment, which the model does not cover.
- `SineWaveGenerator.SineWave.OnAudioReady` states the buffer's final
  contents, not the order of the writes. Every slot's final value depends only
  on the generator's state, not on what the buffer held before.
- The diagnostic `println!` on the first call (I/O with no effect on the state
  or the samples).
- `main` (stream builder configuration, `open_stream`, `start`, `unwrap`),
  the Dioxus components `App` and `Hero`, and the asset constants: UI and
  library plumbing with no logic of their own.
- The real-time callback thread and the driver's serialisation of callbacks.
  The model treats each call as an ordinary sequential method call.
