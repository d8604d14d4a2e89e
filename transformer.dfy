/** The shared sample buffer and the capture-side state, with the two audio
    callbacks as methods (src/main.rs:129-207 and 217-230). The callbacks run
    on separate real-time threads behind a mutex in the source; here they are
    sequential calls on one object. */
module Transformer {
  import opened Effects
  import opened Interpolation
  import opened Capture

  /** Fixed gain applied on playback. */
  const OutputGain: real := 0.9

  class VoiceTransformer {
    /** The shared buffer of processed samples, oldest first. */
    var buffer: seq<real>
    /** Modulation phase accumulator. */
    var phase: real
    /** Noise-gate envelope. */
    var envelope: real

    /** The capture-side state as a value. */
    function State(): CaptureState
      reads this
    {
      CaptureState(buffer, phase, envelope)
    }

    /** An empty buffer, phase 0 and envelope 0, as at program start. */
    constructor ()
      ensures buffer == [] && phase == 0.0 && envelope == 0.0
    {
      buffer := [];
      phase := 0.0;
      envelope := 0.0;
    }

    /** The input callback: processes the block's samples in order, then
        trims the buffer from the front to the size limit. The new state is
        the capture block of the old one, so the buffer never exceeds the
        limit afterwards, and the phase stays in [0, 2π) when it started
        there and the increment is in [0, 2π). */
    method Capture(m: Transcendentals, p: Params, data: seq<real>)
      modifies this
      ensures State() == CaptureBlock(m, p, old(State()), data)
      ensures |buffer| <= p.bufferSizeLimit
      ensures 0.0 <= old(phase) < TwoPi && 0.0 <= PhaseIncrement(p.freqShift) < TwoPi ==> 0.0 <= phase < TwoPi
    {
      ghost var start := State();
      var i := 0;
      while i < |data|
        invariant 0 <= i <= |data|
        invariant State() == Run(m, p, start, data[..i])
      {
        ProcessSample(m, p, data[i]);
        assert data[..i + 1][..i] == data[..i];
        i := i + 1;
      }
      assert data[..i] == data;
      if |buffer| > p.bufferSizeLimit {
        var excess := |buffer| - p.bufferSizeLimit;
        buffer := buffer[excess..];
      }
      if 0.0 <= start.phase < TwoPi && 0.0 <= PhaseIncrement(p.freqShift) < TwoPi {
        RunPhaseInRange(m, p, start, data);
      }
    }

    /** The body of the input callback's loop for one sample: the effect
        chain, then the push. The new state is one Step of the old one. */
    method ProcessSample(m: Transcendentals, p: Params, sample: real)
      modifies this
      ensures State() == Step(m, p, old(State()), sample)
    {
      var processed := ApplyEffects(m, p, sample);
      Push(processed);
    }

    /** Advance and wrap the phase, modulate the sample, update the gate
        envelope (attack while rising, release otherwise, then the extra
        smoothing) and return the sample scaled by volume and gate gain. */
    method ApplyEffects(m: Transcendentals, p: Params, sample: real) returns (processed: real)
      modifies this`phase, this`envelope
      ensures Processed(phase, envelope, processed) == EffectChain(m, p, old(phase), old(envelope), sample)
    {
      // The source updates phase and envelope through their mutex guards;
      // nothing reads them in between, so the new values are computed in
      // locals and stored once at the end.
      var ph := phase + PhaseIncrement(p.freqShift);
      if ph >= TwoPi {
        ph := ph - TwoPi;
      }
      assert ph == AdvancePhase(phase, p.freqShift);
      var shifted := Modulate(m, sample, ph);

      var level := Abs(shifted);
      var target := TargetEnvelope(level, p.noiseThreshold);
      var timeConstant := if target > envelope then p.attack else p.release;
      var alpha := Alpha(m, timeConstant);
      var env := Blend(envelope, target, alpha);
      env := Blend(env, target, p.smoothing);

      var gain := GateMultiplier(m, env, p.noiseThreshold);
      processed := shifted * p.volume * gain;
      phase, envelope := ph, env;
    }

    /** Push one processed sample and, when the buffer length then is a
        non-zero multiple of the period, one sample interpolated from the
        last two buffered samples and the processed one. */
    method Push(processed: real)
      modifies this`buffer
      ensures buffer == PushSample(old(buffer), processed)
    {
      buffer := buffer + [processed];
      if |buffer| % InterpolationPeriod == 0 && |buffer| > 2 {
        var p0 := buffer[|buffer| - 2];
        var p1 := buffer[|buffer| - 1];
        var interpolated := CubicInterpolate(p0, p1, processed, processed, 0.5);
        buffer := buffer + [interpolated];
      }
    }

    /** The output callback for an output block of data.Length samples. With
        enough samples buffered it writes the oldest ones, scaled by the
        output gain, and removes exactly those from the front of the buffer;
        otherwise it writes silence and leaves the buffer as it was. */
    method Playback(data: array<real>)
      modifies this`buffer, data
      ensures |old(buffer)| >= data.Length ==>
                (forall i :: 0 <= i < data.Length ==> data[i] == old(buffer)[i] * OutputGain) &&
                buffer == old(buffer)[data.Length..]
      ensures |old(buffer)| < data.Length ==>
                (forall i :: 0 <= i < data.Length ==> data[i] == 0.0) &&
                buffer == old(buffer)
    {
      if |buffer| >= data.Length {
        var i := 0;
        while i < data.Length
          invariant 0 <= i <= data.Length
          invariant buffer == old(buffer)
          invariant forall k :: 0 <= k < i ==> data[k] == buffer[k] * OutputGain
        {
          data[i] := buffer[i] * OutputGain;
          i := i + 1;
        }
        buffer := buffer[data.Length..];
      } else {
        var i := 0;
        while i < data.Length
          invariant 0 <= i <= data.Length
          invariant buffer == old(buffer)
          invariant forall k :: 0 <= k < i ==> data[k] == 0.0
        {
          data[i] := 0.0;
          i := i + 1;
        }
      }
    }
  }
}
