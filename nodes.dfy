/**
 * The nodes of `src/nodes.rs`: the sine source, the gain processor and the
 * mixer. Samples are `real`; the sine's `f32::sin(2 * PI * phase)` is an
 * abstract `waveform` function given at construction, while its phase
 * arithmetic (`+=` then `%= 1.0`) is modelled exactly.
 */
module Nodes {
  import opened Processor

  /** A sample rate in Hz; the phase increment divides by it, so it is positive. */
  type SampleRate = n: nat | 0 < n witness 1

  // ---------------------------------------------------------------- sine

  /** Rust's float `%` by 1.0: the remainder of truncating division, with the sign of `x`. */
  function Rem1(x: real): (f: real)
    ensures x >= 0.0 ==> 0.0 <= f < 1.0
    ensures x <= 0.0 ==> -1.0 < f <= 0.0
  {
    if x >= 0.0 then x - x.Floor as real else x + (-x).Floor as real
  }

  /** The phase after `k` samples, starting at `phase` and advancing by `increment` per sample. */
  function PhaseAfter(phase: real, increment: real, k: nat): real
    decreases k
  {
    if k == 0 then phase else Rem1(PhaseAfter(phase, increment, k - 1) + increment)
  }

  /** The `n` samples a sine source starting at `phase` emits. */
  function SineBlock(waveform: real -> real, phase: real, increment: real, n: nat): (block: seq<real>)
    ensures |block| == n
  {
    seq(n, i requires 0 <= i < n => waveform(PhaseAfter(phase, increment, i)))
  }

  /** `SineGenerator`: carries its phase across calls so that consecutive blocks join up. */
  class SineGenerator {
    const frequencyHz: real
    const sampleRate: SampleRate
    /** The value emitted at a phase; `sin(2 * PI * phase)` in the source. */
    const waveform: real -> real
    var phase: real

    /** `SineGenerator::new`: phase starts at 0.0. */
    constructor (frequencyHz: real, sampleRate: SampleRate, waveform: real -> real)
      ensures this.frequencyHz == frequencyHz && this.sampleRate == sampleRate
      ensures this.waveform == waveform && phase == 0.0
    {
      this.frequencyHz := frequencyHz;
      this.sampleRate := sampleRate;
      this.waveform := waveform;
      phase := 0.0;
    }

    /** The phase step per sample, `frequency_hz / sample_rate`. */
    function Increment(): real
    {
      frequencyHz / sampleRate as real
    }

    /**
     * `SineGenerator::process`: ignores its inputs; writes one waveform
     * sample per output sample and advances the phase once per sample.
     */
    method Process(inputs: seq<seq<real>>, output: array<real>, len: nat)
      requires len <= output.Length
      modifies this, output
      ensures output[..len] == SineBlock(waveform, old(phase), Increment(), len)
      ensures output[len..] == old(output[len..])
      ensures phase == PhaseAfter(old(phase), Increment(), len)
    {
      ghost var start, step := phase, Increment();
      var i := 0;
      while i < len
        invariant i <= len
        invariant phase == PhaseAfter(start, step, i)
        invariant forall k {:trigger output[k]} :: 0 <= k < i ==> output[k] == waveform(PhaseAfter(start, step, k))
        invariant output[i..] == old(output[i..])
      {
        output[i] := waveform(phase);
        phase := Rem1(phase + Increment());
        i := i + 1;
      }
      assert output[..len] == SineBlock(waveform, start, step, len);
    }
  }

  /** With a non-negative step the phase stays in [0, 1), as the source's field comment says. */
  lemma {:induction false} PhaseStaysInUnit(phase: real, increment: real, k: nat)
    requires 0.0 <= phase < 1.0 && increment >= 0.0
    ensures 0.0 <= PhaseAfter(phase, increment, k) < 1.0
    decreases k
  {
    if k > 0 {
      PhaseStaysInUnit(phase, increment, k - 1);
    }
  }

  /** Whatever the sign of the step, the phase stays strictly between -1 and 1. */
  lemma {:induction false} PhaseStaysBounded(phase: real, increment: real, k: nat)
    requires -1.0 < phase < 1.0
    ensures -1.0 < PhaseAfter(phase, increment, k) < 1.0
    decreases k
  {
    if k > 0 {
      PhaseStaysBounded(phase, increment, k - 1);
    }
  }

  /** Continuity: `n` samples then `m` more end at the phase `n + m` samples reach in one go. */
  lemma {:induction false} PhaseContinues(phase: real, increment: real, n: nat, m: nat)
    ensures PhaseAfter(PhaseAfter(phase, increment, n), increment, m) == PhaseAfter(phase, increment, n + m)
    decreases m
  {
    if m > 0 {
      PhaseContinues(phase, increment, n, m - 1);
    }
  }

  /**
   * Continuity across blocks: a block of `n` samples followed by a block of
   * `m` samples, started where the first left the phase, is one block of
   * `n + m` samples.
   */
  lemma SineBlocksJoin(waveform: real -> real, phase: real, increment: real, n: nat, m: nat)
    ensures SineBlock(waveform, phase, increment, n) + SineBlock(waveform, PhaseAfter(phase, increment, n), increment, m)
            == SineBlock(waveform, phase, increment, n + m)
  {
    var joined := SineBlock(waveform, phase, increment, n) + SineBlock(waveform, PhaseAfter(phase, increment, n), increment, m);
    forall k | n <= k < n + m
      ensures joined[k] == SineBlock(waveform, phase, increment, n + m)[k]
    {
      PhaseContinues(phase, increment, n, k - n);
    }
  }

  /** A waveform bounded by 1 in magnitude gives a block bounded by 1. */
  lemma SineBlockBounded(waveform: real -> real, phase: real, increment: real, n: nat)
    requires forall p :: -1.0 <= waveform(p) <= 1.0
    ensures forall i :: 0 <= i < n ==> -1.0 <= SineBlock(waveform, phase, increment, n)[i] <= 1.0
  {
  }

  // ---------------------------------------------------------------- gain

  /**
   * What `GainProcessor::process` makes of a block `prior`: with an input,
   * the first input scaled by `gain` over the overlap and 0.0 beyond it;
   * with no input, `prior` scaled in place.
   */
  function Gained(gain: real, inputs: seq<seq<real>>, prior: seq<real>): (out: seq<real>)
    ensures |out| == |prior|
  {
    if |inputs| > 0 then
      seq(|prior|, i requires 0 <= i < |prior| => if i < |inputs[0]| then inputs[0][i] * gain else 0.0)
    else
      seq(|prior|, i requires 0 <= i < |prior| => prior[i] * gain)
  }

  /** `GainProcessor`: a linear gain (1.0 is unity, 0.0 is silence). */
  class GainProcessor {
    var gain: real

    /** `GainProcessor::new`. */
    constructor (gain: real)
      ensures this.gain == gain
    {
      this.gain := gain;
    }

    /** `GainProcessor::process`: copy-and-scale the first input, or scale the output in place. */
    method Process(inputs: seq<seq<real>>, output: array<real>, len: nat)
      requires len <= output.Length
      modifies output
      ensures output[..len] == Gained(gain, inputs, old(output[..len]))
      ensures output[len..] == old(output[len..])
    {
      if |inputs| > 0 {
        CopyScaled(inputs[0], output, len);
      } else {
        ScaleInPlace(output, len);
      }
    }

    /** The branch with an input: `inp[..n] * gain`, then 0.0 up to `len`. */
    method CopyScaled(inp: seq<real>, output: array<real>, len: nat)
      requires len <= output.Length
      modifies output
      ensures output[..len] == Gained(gain, [inp], old(output[..len]))
      ensures output[len..] == old(output[len..])
    {
      ghost var prior := output[..len];
      var n := if len <= |inp| then len else |inp|;
      var i := 0;
      while i < n
        invariant i <= n
        invariant forall k :: 0 <= k < i ==> output[k] == inp[k] * gain
        invariant forall k :: i <= k < output.Length ==> output[k] == old(output[k])
      {
        output[i] := inp[i] * gain;
        i := i + 1;
      }
      while i < len
        invariant n <= i <= len
        invariant forall k :: 0 <= k < n ==> output[k] == inp[k] * gain
        invariant forall k :: n <= k < i ==> output[k] == 0.0
        invariant forall k :: i <= k < output.Length ==> output[k] == old(output[k])
      {
        output[i] := 0.0;
        i := i + 1;
      }
      forall k | 0 <= k < len
        ensures output[..len][k] == Gained(gain, [inp], prior)[k]
      {
      }
    }

    /** The branch with no input: every sample of the block scaled in place. */
    method ScaleInPlace(output: array<real>, len: nat)
      requires len <= output.Length
      modifies output
      ensures output[..len] == Gained(gain, [], old(output[..len]))
      ensures output[len..] == old(output[len..])
    {
      ghost var prior := output[..len];
      var i := 0;
      while i < len
        invariant i <= len
        invariant forall k :: 0 <= k < i ==> output[k] == prior[k] * gain
        invariant forall k :: i <= k < output.Length ==> output[k] == old(output[k])
      {
        output[i] := output[i] * gain;
        i := i + 1;
      }
      forall k | 0 <= k < len
        ensures output[..len][k] == Gained(gain, [], prior)[k]
      {
      }
    }
  }

  /** With an input: the overlap is the input scaled, the rest of the block is 0.0. */
  lemma GainWithInput(gain: real, inputs: seq<seq<real>>, prior: seq<real>)
    requires |inputs| > 0
    ensures forall i :: 0 <= i < |prior| && i < |inputs[0]| ==> Gained(gain, inputs, prior)[i] == inputs[0][i] * gain
    ensures forall i :: |inputs[0]| <= i < |prior| ==> Gained(gain, inputs, prior)[i] == 0.0
  {
  }

  /** Only the first input is read: any further inputs make no difference. */
  lemma GainReadsFirstInputOnly(gain: real, first: seq<real>, rest: seq<seq<real>>, prior: seq<real>)
    ensures Gained(gain, [first] + rest, prior) == Gained(gain, [first], prior)
  {
  }

  /** With an input the prior contents of the block do not matter; without one they are scaled. */
  lemma GainPriorContents(gain: real, inputs: seq<seq<real>>, prior: seq<real>, other: seq<real>)
    requires |other| == |prior|
    ensures |inputs| > 0 ==> Gained(gain, inputs, prior) == Gained(gain, inputs, other)
    ensures |inputs| == 0 ==> forall i :: 0 <= i < |prior| ==> Gained(gain, inputs, prior)[i] == prior[i] * gain
  {
  }

  /** `n` samples of 1.0. */
  function Ones(n: nat): (s: seq<real>)
    ensures |s| == n
    ensures forall i :: 0 <= i < n ==> s[i] == 1.0
  {
    seq(n, _ => 1.0)
  }

  /** Gain 0.5 on all-ones input gives all 0.5; unity gain reproduces an input of the block's length. */
  lemma GainExamples(n: nat, input: seq<real>, prior: seq<real>)
    requires |prior| == n && |input| == n
    ensures Gained(0.5, [Ones(n)], prior) == seq(n, _ => 0.5)
    ensures Gained(1.0, [input], prior) == input
  {
  }

  /** A gain `g >= 0` on an input bounded by 1 in magnitude gives a block bounded by `g`. */
  lemma GainBounded(gain: real, input: seq<real>, prior: seq<real>)
    requires gain >= 0.0
    requires forall k :: 0 <= k < |input| ==> -1.0 <= input[k] <= 1.0
    ensures forall i :: 0 <= i < |prior| ==> -gain <= Gained(gain, [input], prior)[i] <= gain
  {
    var out := Gained(gain, [input], prior);
    forall i | 0 <= i < |prior|
      ensures -gain <= out[i] <= gain
    {
      if i < |input| {
        assert out[i] == input[i] * gain;
        ScaledBounded(input[i], gain, 1.0);
        assert Abs(gain) * 1.0 == gain;
      } else {
        assert out[i] == 0.0;
      }
    }
  }

  /** `|x| <= b` scaled by `g` is at most `|g| * b` in magnitude. */
  lemma ScaledBounded(x: real, g: real, b: real)
    requires -b <= x <= b
    ensures -Abs(g) * b <= x * g <= Abs(g) * b
  {
    if g >= 0.0 {
      MulNonneg(b - x, g);
      MulNonneg(x + b, g);
      assert (b - x) * g == b * g - x * g;
      assert (x + b) * g == x * g + b * g;
    } else {
      MulNonneg(b - x, -g);
      MulNonneg(x + b, -g);
      assert (b - x) * (-g) == x * g - b * g;
      assert (x + b) * (-g) == -(x * g) - b * g;
    }
  }

  lemma MulNonneg(a: real, b: real)
    requires a >= 0.0 && b >= 0.0
    ensures a * b >= 0.0
  {
  }

  function Abs(x: real): real
  {
    if x >= 0.0 then x else -x
  }

  // ---------------------------------------------------------------- mixer

  /** `s.get(k).copied().unwrap_or(0.0)`: a missing sample or gain reads as 0.0. */
  function At(s: seq<real>, k: nat): real
  {
    if k < |s| then s[k] else 0.0
  }

  /** The mix at sample `i` over the first `m` inputs, accumulated in input order. */
  function MixAt(gains: seq<real>, inputs: seq<seq<real>>, i: nat, m: nat): real
    requires m <= |inputs|
    decreases m
  {
    if m == 0 then 0.0 else MixAt(gains, inputs, i, m - 1) + At(inputs[m - 1], i) * At(gains, m - 1)
  }

  /** What `Mixer::process` writes into a block of `len` samples. */
  function Mixed(gains: seq<real>, inputs: seq<seq<real>>, len: nat): (out: seq<real>)
    ensures |out| == len
  {
    seq(len, i requires 0 <= i < len => MixAt(gains, inputs, i, |inputs|))
  }

  /** `Mixer`: one linear gain per input. */
  class Mixer {
    var gains: seq<real>

    /** `Mixer::new`. */
    constructor (gains: seq<real>)
      ensures this.gains == gains
    {
      this.gains := gains;
    }

    /** `Mixer::stereo`: unity gain on two inputs. */
    constructor Stereo()
      ensures gains == [1.0, 1.0]
    {
      gains := [1.0, 1.0];
    }

    /**
     * `Mixer::process`: each output sample, in turn, is reset to 0.0 and
     * accumulates `input[j][i] * gains[j]` over the inputs in order; the
     * gains are only read.
     */
    method Process(inputs: seq<seq<real>>, output: array<real>, len: nat)
      requires len <= output.Length
      modifies output
      ensures output[..len] == Mixed(gains, inputs, len)
      ensures output[len..] == old(output[len..])
    {
      var i := 0;
      while i < len
        invariant i <= len
        invariant forall k :: 0 <= k < i ==> output[k] == MixAt(gains, inputs, k, |inputs|)
        invariant output[i..] == old(output[i..])
      {
        output[i] := 0.0;
        var j := 0;
        while j < |inputs|
          invariant j <= |inputs|
          invariant output[i] == MixAt(gains, inputs, i, j)
          invariant forall k :: 0 <= k < i ==> output[k] == MixAt(gains, inputs, k, |inputs|)
          invariant output[i + 1..] == old(output[i + 1..])
        {
          var g := At(gains, j);
          output[i] := output[i] + At(inputs[j], i) * g;
          j := j + 1;
        }
        i := i + 1;
      }
    }
  }

  /** A mixer with no inputs writes silence. */
  lemma MixNoInputs(gains: seq<real>, len: nat)
    ensures Mixed(gains, [], len) == Zeros(len)
  {
  }

  /** Inputs past the end of `gains` contribute nothing: their gain reads as 0.0. */
  lemma {:induction false} MixMissingGains(gains: seq<real>, inputs: seq<seq<real>>, i: nat, m: nat)
    requires |gains| <= m <= |inputs|
    ensures MixAt(gains, inputs, i, m) == MixAt(gains, inputs, i, |gains|)
    decreases m
  {
    if m > |gains| {
      MixMissingGains(gains, inputs, i, m - 1);
    }
  }

  /** Gains past the number of inputs are never read. */
  lemma {:induction false} MixExtraGains(gains: seq<real>, extra: seq<real>, inputs: seq<seq<real>>, i: nat, m: nat)
    requires m <= |inputs| && m <= |gains|
    ensures MixAt(gains + extra, inputs, i, m) == MixAt(gains, inputs, i, m)
    decreases m
  {
    if m > 0 {
      MixExtraGains(gains, extra, inputs, i, m - 1);
      assert At(gains + extra, m - 1) == At(gains, m - 1);
    }
  }

  /** Sum of the magnitudes of the first `m` gains. */
  function AbsSum(gains: seq<real>, m: nat): real
    decreases m
  {
    if m == 0 then 0.0 else AbsSum(gains, m - 1) + Abs(At(gains, m - 1))
  }

  /** Inputs bounded by 1 in magnitude mix to at most the sum of the gains' magnitudes. */
  lemma {:induction false} MixBounded(gains: seq<real>, inputs: seq<seq<real>>, i: nat, m: nat)
    requires m <= |inputs|
    requires forall j, k :: 0 <= j < |inputs| && 0 <= k < |inputs[j]| ==> -1.0 <= inputs[j][k] <= 1.0
    ensures -AbsSum(gains, m) <= MixAt(gains, inputs, i, m) <= AbsSum(gains, m)
    decreases m
  {
    if m > 0 {
      MixBounded(gains, inputs, i, m - 1);
      ScaledBounded(At(inputs[m - 1], i), At(gains, m - 1), 1.0);
    }
  }

  /** Weights [0.5, 0.5] over two all-ones inputs give 1.0 everywhere; over two unit-bounded inputs, at most 1.0. */
  lemma MixHalfAndHalf(a: seq<real>, b: seq<real>, len: nat)
    ensures Mixed([0.5, 0.5], [Ones(len), Ones(len)], len) == Ones(len)
    ensures (forall k :: 0 <= k < |a| ==> -1.0 <= a[k] <= 1.0) && (forall k :: 0 <= k < |b| ==> -1.0 <= b[k] <= 1.0) ==>
              forall i :: 0 <= i < len ==> -1.0 <= Mixed([0.5, 0.5], [a, b], len)[i] <= 1.0
  {
    forall i | 0 <= i < len
      ensures Mixed([0.5, 0.5], [Ones(len), Ones(len)], len)[i] == 1.0
    {
      assert MixAt([0.5, 0.5], [Ones(len), Ones(len)], i, 1) == 0.5;
    }
    if (forall k :: 0 <= k < |a| ==> -1.0 <= a[k] <= 1.0) && (forall k :: 0 <= k < |b| ==> -1.0 <= b[k] <= 1.0) {
      forall i | 0 <= i < len
        ensures -1.0 <= Mixed([0.5, 0.5], [a, b], len)[i] <= 1.0
      {
        MixBounded([0.5, 0.5], [a, b], i, 2);
      }
    }
  }

  /** A gain node with one input computes what a one-input mixer with that gain computes. */
  lemma GainIsOneInputMix(gain: real, input: seq<real>, prior: seq<real>)
    ensures Gained(gain, [input], prior) == Mixed([gain], [input], |prior|)
  {
    forall i | 0 <= i < |prior|
      ensures Gained(gain, [input], prior)[i] == Mixed([gain], [input], |prior|)[i]
    {
      assert MixAt([gain], [input], i, 1) == 0.0 + At(input, i) * gain;
    }
  }
}
