/** The SineWave tone generator and its audio callback. The sine function
    is a parameter `sin`: nothing is known of it except, where a lemma says
    so, that it stays within [-1, 1]. */
module SineWaveGenerator {
  import opened Phase

  datatype Option<T> = None | Some(value: T)

  /** What the callback tells the audio driver: keep the stream going, or
      tear it down. */
  datatype DataCallbackResult = Continue | Stop

  const DefaultFrequency: real := 440.0
  const DefaultGain: real := 0.5

  function Abs(x: real): real {
    if x < 0.0 then -x else x
  }

  /** The per-sample phase increment derived from the stream's sample rate:
      `frequency * 2 * PI / sample_rate`. */
  function Increment(frequency: real, sampleRate: int): (d: real)
    requires 0 < sampleRate
    ensures d * sampleRate as real == frequency * TwoPi
    ensures 0.0 <= frequency <==> 0.0 <= d
  {
    frequency * 2.0 * Pi / sampleRate as real
  }

  /** At the default 440 Hz and a 44100 Hz stream, the increment is about
      0.06269 radians per sample. */
  lemma ReferenceIncrement()
    ensures 0.06268 < Increment(DefaultFrequency, 44100) < 0.06270
  {
  }

  /** What the model knows of the sine: it stays within [-1, 1]. */
  ghost predicate BoundedSine(sin: real -> real) {
    forall x :: -1.0 <= sin(x) <= 1.0
  }

  /** The sample written at phase `p`: the sine scaled by the gain, so its
      magnitude is the gain's times the sine's, and a zero gain gives zero. */
  function Sample(gain: real, sin: real -> real, p: real): (s: real)
    ensures Abs(s) == Abs(gain) * Abs(sin(p))
    ensures gain == 0.0 ==> s == 0.0
  {
    gain * sin(p)
  }

  /** The `n` samples the callback writes from phase `p` with increment `d`:
      the slots before the last, then the sample at the phase reached after
      those slots. */
  function Samples(gain: real, sin: real -> real, p: real, d: real, n: nat): (s: seq<real>)
    ensures |s| == n
    decreases n
  {
    if n == 0 then [] else Samples(gain, sin, p, d, n - 1) + [Sample(gain, sin, PhaseAfter(p, d, n - 1))]
  }

  /** Sample k is the gain times the sine of the phase reached after k steps,
      whatever the number of slots after it. */
  lemma {:induction false} SampleAt(gain: real, sin: real -> real, p: real, d: real, n: nat, k: nat)
    requires k < n
    ensures Samples(gain, sin, p, d, n)[k] == Sample(gain, sin, PhaseAfter(p, d, k))
    decreases n
  {
    if k < n - 1 {
      SampleAt(gain, sin, p, d, n - 1, k);
    }
  }

  /** Continuity: n samples and then m more, continued from the phase the
      first n left behind, are the n + m samples of one call. */
  lemma {:induction false} SamplesAdditive(gain: real, sin: real -> real, p: real, d: real, n: nat, m: nat)
    ensures Samples(gain, sin, p, d, n + m)
         == Samples(gain, sin, p, d, n) + Samples(gain, sin, PhaseAfter(p, d, n), d, m)
    decreases m
  {
    if m > 0 {
      SamplesAdditive(gain, sin, p, d, n, m - 1);
      PhaseAfterAdditive(p, d, n, m - 1);
      assert n + m - 1 == n + (m - 1);
    }
  }

  /** The first sample is taken at the entry phase, and the rest continue
      from the phase after one step: the callback's per-slot order. */
  lemma SamplesFirst(gain: real, sin: real -> real, p: real, d: real, n: nat)
    requires 0 < n
    ensures Samples(gain, sin, p, d, n)
         == [Sample(gain, sin, p)] + Samples(gain, sin, Wrap(p + d), d, n - 1)
  {
    SamplesAdditive(gain, sin, p, d, 1, n - 1);
  }

  /** A sine within [-1, 1] keeps the sample within the gain. */
  lemma SampleWithinGain(gain: real, sin: real -> real, p: real)
    requires BoundedSine(sin)
    ensures Abs(Sample(gain, sin, p)) <= Abs(gain)
  {
    var x := sin(p);
    assert Abs(Sample(gain, sin, p)) == Abs(gain) * Abs(x);
    assert Abs(x) <= 1.0;
    assert Abs(gain) * Abs(x) <= Abs(gain) * 1.0;
  }

  /** Amplitude: with the sine in [-1, 1] no sample exceeds the gain in
      magnitude. */
  lemma {:induction false} SamplesWithinGain(gain: real, sin: real -> real, p: real, d: real, n: nat)
    requires BoundedSine(sin)
    ensures forall k :: 0 <= k < n ==> Abs(Samples(gain, sin, p, d, n)[k]) <= Abs(gain)
    decreases n
  {
    if n > 0 {
      SamplesWithinGain(gain, sin, p, d, n - 1);
      SampleWithinGain(gain, sin, PhaseAfter(p, d, n - 1));
    }
  }

  /** Silence: a gain of zero fills the buffer with zeros, whatever the
      phase, the increment or the sine. */
  lemma {:induction false} SilentWithZeroGain(sin: real -> real, p: real, d: real, n: nat)
    ensures Samples(0.0, sin, p, d, n) == seq(n, _ => 0.0)
    decreases n
  {
    if n > 0 {
      SilentWithZeroGain(sin, p, d, n - 1);
    }
  }

  /** The sound generator: a frequency and gain fixed at construction, the
      running phase, and the phase increment, absent until the first
      callback supplies a sample rate. */
  class SineWave {
    var frequency: real
    var gain: real
    var phase: real
    var delta: Option<real>

    /** The state a generator keeps between callbacks: a phase within one
        turn and a non-negative increment. */
    ghost predicate Valid()
      reads this
    {
      0.0 <= frequency && 0.0 <= phase <= TwoPi && (delta.Some? ==> 0.0 <= delta.value)
    }

    /** `SineWave::default()`: 440 Hz at half gain, phase zero, no increment. */
    constructor Default()
      ensures frequency == DefaultFrequency && gain == DefaultGain
      ensures phase == 0.0 && delta == None
      ensures Valid()
    {
      frequency := DefaultFrequency;
      gain := DefaultGain;
      phase := 0.0;
      delta := None;
    }

    /** The wrap loop of the callback: while the phase is strictly above one
        turn, take one turn off. */
    method WrapPhase()
      modifies this`phase
      ensures phase == Wrap(old(phase))
    {
      while phase > TwoPi
        invariant Wrap(phase) == Wrap(old(phase))
        decreases WrapCount(phase)
      {
        WrapStep(phase);
        phase := phase - TwoPi;
      }
    }

    /** The audio callback: derive the increment on the first call, then
        overwrite every slot of `frames`, in order, with `gain * sin(phase)`,
        advancing and wrapping the phase after each slot. The sample rate is
        read only when the increment is still absent. */
    method OnAudioReady(frames: array<real>, sampleRate: int, sin: real -> real)
      returns (r: DataCallbackResult)
      requires delta.Some? || 0 < sampleRate
      modifies this, frames
      ensures r == Continue
      ensures frequency == old(frequency) && gain == old(gain)
      ensures old(delta).None? ==> delta == Some(Increment(frequency, sampleRate))
      ensures old(delta).Some? ==> delta == old(delta)
      ensures delta.Some?
      ensures phase == PhaseAfter(old(phase), delta.value, frames.Length)
      ensures frames[..] == Samples(gain, sin, old(phase), delta.value, frames.Length)
      ensures old(Valid()) ==> Valid()
    {
      if delta.None? {
        delta := Some(Increment(frequency, sampleRate));
      }
      var d := delta.value;
      ghost var start := phase;
      for i := 0 to frames.Length
        invariant frequency == old(frequency) && gain == old(gain) && delta == Some(d)
        invariant phase == PhaseAfter(start, d, i)
        invariant frames[..i] == Samples(gain, sin, start, d, i)
      {
        var sample := Sample(gain, sin, phase);
        ghost var written := frames[..i];
        frames[i] := sample;
        assert frames[..i + 1] == written + [sample];
        phase := phase + d;
        WrapPhase();
      }
      assert frames[..] == frames[..frames.Length];
      r := Continue;
    }
  }

  /** The driver's view of continuity and of the once-only increment: a
      default generator called with `n` frames and then `m` frames (the
      second call reporting any sample rate at all) produces what a second
      default generator produces in one call of `n + m` frames, and the two
      end in the same state. */
  method SplitRenderMatchesSingle(sampleRate: int, laterRate: int, n: nat, m: nat, sin: real -> real)
    returns (first: array<real>, second: array<real>, whole: array<real>, split: SineWave, single: SineWave)
    requires 0 < sampleRate
    ensures first.Length == n && second.Length == m && whole.Length == n + m
    ensures split != single
    ensures whole[..] == Samples(DefaultGain, sin, 0.0, Increment(DefaultFrequency, sampleRate), n + m)
    ensures first[..] + second[..] == whole[..]
    ensures split.phase == single.phase
    ensures split.delta == single.delta == Some(Increment(DefaultFrequency, sampleRate))
  {
    split := new SineWave.Default();
    first := new real[n];
    var r1 := split.OnAudioReady(first, sampleRate, sin);
    second := new real[m];
    var r2 := split.OnAudioReady(second, laterRate, sin);
    single := new SineWave.Default();
    whole := new real[n + m];
    var d := Increment(DefaultFrequency, sampleRate);
    ghost var rendered := first[..] + second[..];
    ghost var reached := split.phase;
    assert rendered == Samples(DefaultGain, sin, 0.0, d, n) + Samples(DefaultGain, sin, PhaseAfter(0.0, d, n), d, m);
    assert reached == PhaseAfter(PhaseAfter(0.0, d, n), d, m);
    SamplesAdditive(DefaultGain, sin, 0.0, d, n, m);
    PhaseAfterAdditive(0.0, d, n, m);
    var r3 := single.OnAudioReady(whole, sampleRate, sin);
  }

  /** The strict wrap test keeps a phase of exactly one turn: a default
      generator on a 440 Hz stream advances by exactly `TwoPi` per sample, and
      after one frame its stored phase is `TwoPi`, not 0. */
  method DefaultGeneratorReachesTwoPi(sin: real -> real)
    returns (generator: SineWave, frames: array<real>)
    ensures frames.Length == 1
    ensures frames[..] == [Sample(DefaultGain, sin, 0.0)]
    ensures generator.frequency == DefaultFrequency && generator.gain == DefaultGain
    ensures generator.delta == Some(TwoPi)
    ensures generator.phase == TwoPi
    ensures generator.Valid()
  {
    generator := new SineWave.Default();
    frames := new real[1];
    assert Increment(DefaultFrequency, 440) == TwoPi;
    var r := generator.OnAudioReady(frames, 440, sin);
  }
}
