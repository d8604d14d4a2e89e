/** What one capture block does to the shared sample buffer and to the
    oscillator and gate state (src/main.rs:129-207), as functions on values.
    The imperative callback in module Transformer is proved equal to them. */
module Capture {
  import opened Effects
  import opened Interpolation

  /** One synthesised sample is inserted whenever the buffer length reaches
      a multiple of this period. */
  const InterpolationPeriod: nat := 441

  /** The live parameters the capture callback reads once per block. */
  datatype Params = Params(
    volume: real,
    noiseThreshold: real,
    attack: real,
    release: real,
    smoothing: real,
    freqShift: real,
    bufferSizeLimit: nat)

  /** The parameter values the program starts with. */
  const InitialParams := Params(0.9, 0.01, 0.01, 0.1, 0.7, 5.0, 2400)

  /** The start-up parameters meet the preconditions of the block
      invariants RunPhaseInRange and RunEnvelopeNonNegative: the phase
      increment for 5 Hz is in [0, 2π), attack and release are non-negative
      and the smoothing is in [0, 1]. */
  lemma InitialParamsSane()
    ensures 0.0 <= PhaseIncrement(InitialParams.freqShift) < TwoPi
    ensures InitialParams.attack >= 0.0 && InitialParams.release >= 0.0
    ensures 0.0 <= InitialParams.smoothing <= 1.0
  {
    IncrementInRange(InitialParams.freqShift);
  }

  /** The state the capture callback updates: the shared sample buffer (oldest
      first), the modulation phase and the gate envelope. */
  datatype CaptureState = CaptureState(buffer: seq<real>, phase: real, envelope: real)

  /** The effect chain's result for one sample: the new phase, the new gate
      envelope and the processed sample. */
  datatype Processed = Processed(phase: real, envelope: real, sample: real)

  /** The effect chain for one input sample x: advance the phase, modulate,
      update the gate envelope, then scale by the volume and the gate gain. */
  function EffectChain(m: Transcendentals, p: Params, phase: real, envelope: real, x: real): Processed
  {
    var phase' := AdvancePhase(phase, p.freqShift);
    var shifted := Modulate(m, x, phase');
    var target := TargetEnvelope(Abs(shifted), p.noiseThreshold);
    var envelope' := EnvelopeStep(m, envelope, target, p.attack, p.release, p.smoothing);
    Processed(phase', envelope', shifted * p.volume * GateMultiplier(m, envelope', p.noiseThreshold))
  }

  /** What one sample does to the oscillator and the gate: the phase stays in
      [0, 2π) when it starts there and the increment is in [0, 2π); under
      sane gate parameters the envelope moves towards the gate target
      without overshoot, so it stays non-negative; while the envelope is
      above the threshold the gate passes the modulated sample at the set
      volume, and a fully closed gate (envelope 0 under a non-negative
      threshold) outputs silence. */
  lemma EffectChainProperties(m: Transcendentals, p: Params, phase: real, envelope: real, x: real)
    ensures var r := EffectChain(m, p, phase, envelope, x);
            0.0 <= phase < TwoPi && 0.0 <= PhaseIncrement(p.freqShift) < TwoPi ==> 0.0 <= r.phase < TwoPi
    ensures var r := EffectChain(m, p, phase, envelope, x);
            ExpDecays(m) && p.attack >= 0.0 && p.release >= 0.0 && 0.0 <= p.smoothing <= 1.0 ==>
              Between(envelope, r.envelope, TargetEnvelope(Abs(Modulate(m, x, r.phase)), p.noiseThreshold)) &&
              (envelope >= 0.0 ==> r.envelope >= 0.0)
    ensures var r := EffectChain(m, p, phase, envelope, x);
            r.envelope > p.noiseThreshold ==> r.sample == Modulate(m, x, r.phase) * p.volume
    ensures var r := EffectChain(m, p, phase, envelope, x);
            PowAnchored(m) && p.noiseThreshold >= 0.0 && r.envelope == 0.0 ==> r.sample == 0.0
  {
    var phase' := AdvancePhase(phase, p.freqShift);
    var target := TargetEnvelope(Abs(Modulate(m, x, phase')), p.noiseThreshold);
    if ExpDecays(m) && p.attack >= 0.0 && p.release >= 0.0 && 0.0 <= p.smoothing <= 1.0 {
      EnvelopeStepBetween(m, envelope, target, p.attack, p.release, p.smoothing);
    }
  }

  /** Whether pushing a sample that makes the buffer this long also inserts an
      interpolated one: the length is a multiple of the period and above 2. */
  predicate InsertsAfterPush(len: nat)
  {
    len % InterpolationPeriod == 0 && len > 2
  }

  /** Appending one processed sample to the buffer and, at the period, one
      sample interpolated from the previous sample and the one just pushed.
      Exactly one processed sample is appended, plus one more exactly when
      the length after the push is a non-zero multiple of 441; the existing
      samples are untouched; the inserted sample overshoots the pushed one by
      an eighth of the last step. */
  function PushSample(buffer: seq<real>, x: real): (r: seq<real>)
    ensures var n := |buffer|;
            |r| == n + 1 + (if (n + 1) % InterpolationPeriod == 0 then 1 else 0)
    ensures r[..|buffer|] == buffer && r[|buffer|] == x
    ensures var n := |buffer|;
            (n + 1) % InterpolationPeriod == 0 ==>
              n >= 1 && r[n + 1] == x + (x - buffer[n - 1]) / 8.0
  {
    var pushed := buffer + [x];
    var len := |pushed|;
    if InsertsAfterPush(len) then
      CubicMidpointOfRepeatedSample(pushed[len - 2], x);
      pushed + [CubicInterpolate(pushed[len - 2], pushed[len - 1], x, x, 0.5)]
    else
      pushed
  }

  /** Processing of one input sample: the effect chain, then the push. */
  function Step(m: Transcendentals, p: Params, st: CaptureState, x: real): (r: CaptureState)
  {
    var e := EffectChain(m, p, st.phase, st.envelope, x);
    CaptureState(PushSample(st.buffer, e.sample), e.phase, e.envelope)
  }

  /** The state after processing the samples of a block in order, before the
      trim. The buffer only grows at the back: the old buffer is a prefix of
      the new one, which holds at least one and at most two new samples per
      input sample. */
  function Run(m: Transcendentals, p: Params, st: CaptureState, data: seq<real>): (r: CaptureState)
    ensures |st.buffer| + |data| <= |r.buffer| <= |st.buffer| + 2 * |data|
    ensures r.buffer[..|st.buffer|] == st.buffer
    decreases |data|
  {
    if data == [] then st
    else
      var before := Run(m, p, st, data[..|data| - 1]);
      var r := Step(m, p, before, data[|data| - 1]);
      assert r.buffer[..|st.buffer|] == before.buffer[..|st.buffer|];
      r
  }

  /** Dropping the oldest samples so that at most `limit` remain: the result
      is the newest min(|s|, limit) samples of s in their original order,
      and s itself when it is already short enough. */
  function Trim(s: seq<real>, limit: nat): (r: seq<real>)
    ensures |r| <= limit
    ensures |s| <= limit ==> r == s
    ensures |s| > limit ==> |r| == limit
    ensures r == s[|s| - |r|..]
  {
    if |s| > limit then s[|s| - limit..] else s
  }

  /** The whole capture block: run the samples, then trim the buffer. */
  function CaptureBlock(m: Transcendentals, p: Params, st: CaptureState, data: seq<real>): (r: CaptureState)
    ensures |r.buffer| <= p.bufferSizeLimit
  {
    var ran := Run(m, p, st, data);
    CaptureState(Trim(ran.buffer, p.bufferSizeLimit), ran.phase, ran.envelope)
  }

  /** Over any block, the phase stays in [0, 2π) when it starts there and the
      per-sample increment is in [0, 2π). */
  lemma {:induction false} RunPhaseInRange(m: Transcendentals, p: Params, st: CaptureState, data: seq<real>)
    requires 0.0 <= st.phase < TwoPi
    requires 0.0 <= PhaseIncrement(p.freqShift) < TwoPi
    ensures 0.0 <= Run(m, p, st, data).phase < TwoPi
    decreases |data|
  {
    if data != [] {
      RunPhaseInRange(m, p, st, data[..|data| - 1]);
      var before := Run(m, p, st, data[..|data| - 1]);
      EffectChainProperties(m, p, before.phase, before.envelope, data[|data| - 1]);
    }
  }

  /** Over any block, the gate envelope stays non-negative when the attack
      and release times are non-negative and the smoothing is in [0, 1]. */
  lemma {:induction false} RunEnvelopeNonNegative(m: Transcendentals, p: Params, st: CaptureState, data: seq<real>)
    requires ExpDecays(m)
    requires p.attack >= 0.0 && p.release >= 0.0 && 0.0 <= p.smoothing <= 1.0
    requires st.envelope >= 0.0
    ensures Run(m, p, st, data).envelope >= 0.0
    decreases |data|
  {
    if data != [] {
      RunEnvelopeNonNegative(m, p, st, data[..|data| - 1]);
      var before := Run(m, p, st, data[..|data| - 1]);
      EffectChainProperties(m, p, before.phase, before.envelope, data[|data| - 1]);
    }
  }
}
