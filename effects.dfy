/** The per-sample effect chain of the capture callback (src/main.rs:149-188):
    the modulation phase accumulator, the modulation itself, and the noise
    gate's envelope follower and gain curve.

    Samples are f32 in the source and `real` here. The transcendental
    functions the chain calls (sin, cos, exp and x ↦ x^1.5) are not
    interpreted: they are passed in as a `Transcendentals` value, and the
    lemmas state the few facts about them they rely on as preconditions. */
module Effects {

  /** The processing rate the source hard-codes, whatever the device rate. */
  const SampleRate: real := 44100.0
  /** π as the f32 constant the source uses, rounded to eight digits. */
  const Pi: real := 3.1415927
  const TwoPi: real := 2.0 * Pi
  /** Depth of the amplitude modulation. */
  const ModulationDepth: real := 0.015

  datatype Option<T> = None | Some(value: T)

  /** sin, cos, exp and the gate's power curve x ↦ x^1.5, left uninterpreted. */
  datatype Transcendentals = Transcendentals(
    sin: real -> real,
    cos: real -> real,
    exp: real -> real,
    pow15: real -> real)

  /** exp maps negative arguments into [0, 1]. */
  ghost predicate ExpDecays(m: Transcendentals)
  {
    forall x: real :: x < 0.0 ==> 0.0 <= m.exp(x) <= 1.0
  }

  /** x^1.5 is 0 at 0 and 1 at 1. */
  predicate PowAnchored(m: Transcendentals)
  {
    m.pow15(0.0) == 0.0 && m.pow15(1.0) == 1.0
  }

  /** x^1.5 maps [0, 1] into [0, 1]. */
  ghost predicate PowInUnit(m: Transcendentals)
  {
    forall x: real :: 0.0 <= x <= 1.0 ==> 0.0 <= m.pow15(x) <= 1.0
  }

  function Abs(x: real): real
  {
    if x < 0.0 then -x else x
  }

  function Min(a: real, b: real): real
  {
    if a <= b then a else b
  }

  function Max(a: real, b: real): real
  {
    if a <= b then b else a
  }

  // ---------------------------------------------------------------------
  // Phase accumulator
  // ---------------------------------------------------------------------

  /** Phase advance per sample for a modulation frequency in Hz. */
  function PhaseIncrement(freq: real): real
  {
    TwoPi * freq / SampleRate
  }

  /** One step of the phase accumulator: add the increment and wrap once at
      2π. The result is congruent to phase + increment modulo 2π, and it
      stays in [0, 2π) when the phase and the increment do. */
  function AdvancePhase(phase: real, freq: real): (r: real)
    ensures r == phase + PhaseIncrement(freq) || r == phase + PhaseIncrement(freq) - TwoPi
    ensures 0.0 <= phase < TwoPi && 0.0 <= PhaseIncrement(freq) < TwoPi ==> 0.0 <= r < TwoPi
  {
    var p := phase + PhaseIncrement(freq);
    if p >= TwoPi then p - TwoPi else p
  }

  /** Every modulation frequency in [0, SampleRate) gives an increment in
      [0, 2π), the range the phase invariant needs. */
  lemma IncrementInRange(freq: real)
    requires 0.0 <= freq < SampleRate
    ensures 0.0 <= PhaseIncrement(freq) < TwoPi
  {
  }

  // ---------------------------------------------------------------------
  // Modulation
  // ---------------------------------------------------------------------

  function ModulationFactor(m: Transcendentals, phase: real): real
  {
    1.0 + ModulationDepth * (0.7 * m.sin(phase) + 0.3 * m.cos(phase))
  }

  /** The sample scaled by the modulation factor at the current phase. */
  function Modulate(m: Transcendentals, x: real, phase: real): real
  {
    x * ModulationFactor(m, phase)
  }

  /** With sin and cos in [-1, 1] the modulation keeps the sign of the
      sample and changes its magnitude by at most 1.5 percent. */
  lemma ModulationDepthBound(m: Transcendentals, x: real, phase: real)
    requires -1.0 <= m.sin(phase) <= 1.0 && -1.0 <= m.cos(phase) <= 1.0
    ensures 0.985 * Abs(x) <= Abs(Modulate(m, x, phase)) <= 1.015 * Abs(x)
    ensures (x >= 0.0) == (Modulate(m, x, phase) >= 0.0)
  {
    var f := ModulationFactor(m, phase);
    assert 0.985 <= f <= 1.015;
    assert Modulate(m, x, phase) == x * f;
    AbsOfScaled(x, f);
    ScaledBounds(Abs(x), f);
  }

  /** Scaling by a positive factor keeps the sign and scales the magnitude. */
  lemma AbsOfScaled(x: real, f: real)
    requires f > 0.0
    ensures Abs(x * f) == Abs(x) * f
    ensures (x >= 0.0) == (x * f >= 0.0)
  {
    if x < 0.0 {
      MulPositive(-x, f);
      assert x * f == -((-x) * f);
    } else {
      MulMonotone(x, 0.0, f);
      assert x * 0.0 == 0.0;
    }
  }

  lemma ScaledBounds(a: real, f: real)
    requires a >= 0.0 && 0.985 <= f <= 1.015
    ensures 0.985 * a <= a * f <= 1.015 * a
  {
    MulMonotone(a, 0.985, f);
    MulMonotone(a, f, 1.015);
    assert a * 0.985 == 0.985 * a && a * 1.015 == 1.015 * a;
  }

  // ---------------------------------------------------------------------
  // Noise gate: envelope follower
  // ---------------------------------------------------------------------

  /** The envelope the follower moves towards: the sample's level when it is
      above the threshold, silence otherwise. */
  function TargetEnvelope(level: real, threshold: real): (r: real)
    ensures level > threshold ==> r == level
    ensures level <= threshold ==> r == 0.0
    ensures level >= 0.0 ==> r >= 0.0
  {
    if level > threshold then level else 0.0
  }

  /** One-pole coefficient exp(-1 / (SampleRate · tc)). A time constant of
      exactly 0 divides by zero in the source; in f32 that gives -∞ and
      exp(-∞) = 0, an immediate envelope, which is what is modelled. */
  function Alpha(m: Transcendentals, tc: real): (r: real)
    ensures tc == 0.0 ==> r == 0.0
    ensures ExpDecays(m) && tc >= 0.0 ==> 0.0 <= r <= 1.0
  {
    if tc == 0.0 then 0.0
    else
      var arg := -1.0 / (SampleRate * tc);
      assert tc > 0.0 ==> arg < 0.0;
      m.exp(arg)
  }

  /** b lies between a and c. */
  predicate Between(a: real, b: real, c: real)
  {
    Min(a, c) <= b <= Max(a, c)
  }

  /** One first-order blend of the envelope e towards the target, keeping
      the weight w of the old value. */
  function Blend(e: real, target: real, w: real): real
  {
    e * w + target * (1.0 - w)
  }

  /** A blend with weight in [0, 1] lies between the old value and the
      target. */
  lemma BlendBetween(e: real, target: real, w: real)
    requires 0.0 <= w <= 1.0
    ensures Between(e, Blend(e, target, w), target)
  {
    BlendIsStep(e, target, w);
    StepBounds(e - target, w);
    BetweenOfStep(e, target, Blend(e, target, w), (e - target) * w);
  }

  /** Moving from the target by q, where q lies between 0 and e - target,
      lands between e and the target. */
  lemma BetweenOfStep(e: real, target: real, b: real, q: real)
    requires b == target + q
    requires e - target >= 0.0 ==> 0.0 <= q <= e - target
    requires e - target < 0.0 ==> e - target <= q <= 0.0
    ensures Between(e, b, target)
  {
  }

  /** A blend moves from the target by the fraction w of the distance to e. */
  lemma BlendIsStep(e: real, target: real, w: real)
    ensures Blend(e, target, w) == target + (e - target) * w
  {
  }

  /** A fraction w in [0, 1] of d lies between 0 and d. */
  lemma StepBounds(d: real, w: real)
    requires 0.0 <= w <= 1.0
    ensures d >= 0.0 ==> 0.0 <= d * w <= d
    ensures d < 0.0 ==> d <= d * w <= 0.0
  {
    if d >= 0.0 {
      MulMonotone(d, 0.0, w);
      MulMonotone(d, w, 1.0);
      assert d * 0.0 == 0.0 && d * 1.0 == d;
    } else {
      MulMonotone(-d, 0.0, w);
      MulMonotone(-d, w, 1.0);
      assert (-d) * 0.0 == 0.0 && (-d) * 1.0 == -d;
      assert d * w == -((-d) * w);
    }
  }

  /** The two blends the source applies in order: the one-pole filter with
      coefficient alpha, then the extra smoothing. */
  function SmoothEnvelope(envelope: real, target: real, alpha: real, smoothing: real): real
  {
    Blend(Blend(envelope, target, alpha), target, smoothing)
  }

  /** With both weights in [0, 1] the doubly smoothed envelope lies between
      the old envelope and the target: it follows the target without
      overshooting it. */
  lemma SmoothEnvelopeBetween(envelope: real, target: real, alpha: real, smoothing: real)
    requires 0.0 <= alpha <= 1.0 && 0.0 <= smoothing <= 1.0
    ensures Between(envelope, SmoothEnvelope(envelope, target, alpha, smoothing), target)
  {
    var e1 := Blend(envelope, target, alpha);
    BlendBetween(envelope, target, alpha);
    BlendBetween(e1, target, smoothing);
  }

  /** One envelope-follower step: the attack time when the target rises
      above the current envelope, the release time otherwise. */
  function EnvelopeStep(m: Transcendentals, envelope: real, target: real,
                        attack: real, release: real, smoothing: real): real
  {
    var tc := if target > envelope then attack else release;
    SmoothEnvelope(envelope, target, Alpha(m, tc), smoothing)
  }

  /** The attack time is used exactly when the target exceeds the current
      envelope, the release time otherwise; with non-negative times,
      smoothing in [0, 1] and exp decaying, the new envelope lies between
      the old envelope and the target. */
  lemma EnvelopeStepBetween(m: Transcendentals, envelope: real, target: real,
                            attack: real, release: real, smoothing: real)
    requires ExpDecays(m) && attack >= 0.0 && release >= 0.0 && 0.0 <= smoothing <= 1.0
    ensures target > envelope ==>
              EnvelopeStep(m, envelope, target, attack, release, smoothing)
              == SmoothEnvelope(envelope, target, Alpha(m, attack), smoothing)
    ensures target <= envelope ==>
              EnvelopeStep(m, envelope, target, attack, release, smoothing)
              == SmoothEnvelope(envelope, target, Alpha(m, release), smoothing)
    ensures Between(envelope, EnvelopeStep(m, envelope, target, attack, release, smoothing), target)
  {
    var tc := if target > envelope then attack else release;
    SmoothEnvelopeBetween(envelope, target, Alpha(m, tc), smoothing);
  }

  // ---------------------------------------------------------------------
  // Noise gate: gain curve
  // ---------------------------------------------------------------------

  lemma MulMonotone(a: real, b: real, c: real)
    requires a >= 0.0 && b <= c
    ensures a * b <= a * c
  {
    assert a * c - a * b == a * (c - b);
  }

  lemma MulPositive(a: real, b: real)
    requires a > 0.0 && b > 0.0
    ensures a * b > 0.0
  {
  }

  lemma ProductInUnit(a: real, b: real)
    requires 0.0 <= a <= 1.0 && 0.0 <= b <= 1.0
    ensures 0.0 <= a * b <= 1.0
  {
    MulMonotone(a, 0.0, b);
    MulMonotone(a, b, 1.0);
    assert a * b <= a * 1.0;
    assert a * 0.0 == 0.0 && a * 1.0 == a;
  }

  lemma DivSelf(t: real)
    requires t != 0.0
    ensures t / t == 1.0
  {
  }

  lemma DivZero(t: real)
    requires t != 0.0
    ensures 0.0 / t == 0.0
  {
  }

  lemma RatioInUnit(e: real, t: real)
    requires t > 0.0 && 0.0 <= e <= t
    ensures 0.0 <= e / t <= 1.0
  {
    assert (e / t) * t == e;
  }

  /** The gate's gain: 1 while the envelope is above the threshold, below
      it the curve ratio^1.5 · (0.15 + 0.85 · ratio) of
      ratio = envelope / threshold. With a threshold of 0 and an envelope at
      or below it there is no signal energy and the gate is closed (gain 0);
      see GateMultiplierAsWritten for what the source computes there. */
  function GateMultiplier(m: Transcendentals, envelope: real, threshold: real): real
  {
    if envelope > threshold then 1.0
    else if threshold == 0.0 then 0.0
    else
      var ratio := envelope / threshold;
      m.pow15(ratio) * (0.15 + 0.85 * ratio)
  }

  /** The gain is exactly 1 whenever the envelope is above the threshold; it
      is 1 at ratio 1, so it is continuous at the threshold, and 0 at
      ratio 0, a closed gate; with a non-negative envelope it is in [0, 1]. */
  lemma GateMultiplierProperties(m: Transcendentals, envelope: real, threshold: real)
    ensures envelope > threshold ==> GateMultiplier(m, envelope, threshold) == 1.0
    ensures PowAnchored(m) && threshold != 0.0 && envelope == threshold ==> GateMultiplier(m, envelope, threshold) == 1.0
    ensures PowAnchored(m) && threshold >= 0.0 && envelope == 0.0 ==> GateMultiplier(m, envelope, threshold) == 0.0
    ensures PowInUnit(m) && envelope >= 0.0 ==> 0.0 <= GateMultiplier(m, envelope, threshold) <= 1.0
  {
    if envelope <= threshold && threshold != 0.0 {
      var ratio := envelope / threshold;
      assert GateMultiplier(m, envelope, threshold) == m.pow15(ratio) * (0.15 + 0.85 * ratio);
      assert PowAnchored(m) && envelope == threshold ==> GateMultiplier(m, envelope, threshold) == 1.0 by {
        if envelope == threshold {
          DivSelf(threshold);
        }
      }
      assert PowAnchored(m) && envelope == 0.0 ==> GateMultiplier(m, envelope, threshold) == 0.0 by {
        if envelope == 0.0 {
          DivZero(threshold);
        }
      }
      assert PowInUnit(m) && envelope >= 0.0 ==> 0.0 <= GateMultiplier(m, envelope, threshold) <= 1.0 by {
        if envelope >= 0.0 {
          GainCurveInUnit(m, envelope, threshold);
        }
      }
    } else {
      assert GateMultiplier(m, envelope, threshold) == if envelope > threshold then 1.0 else 0.0;
    }
  }

  /** Below a positive threshold, a non-negative envelope gives a ratio in
      [0, 1] and hence a gain in [0, 1]. */
  lemma GainCurveInUnit(m: Transcendentals, envelope: real, threshold: real)
    requires 0.0 <= envelope <= threshold && threshold > 0.0
    ensures var ratio := envelope / threshold;
            PowInUnit(m) ==> 0.0 <= m.pow15(ratio) * (0.15 + 0.85 * ratio) <= 1.0
  {
    var ratio := envelope / threshold;
    RatioInUnit(envelope, threshold);
    if PowInUnit(m) {
      ProductInUnit(m.pow15(ratio), 0.15 + 0.85 * ratio);
    }
  }

  /** f32 division as the source performs it: a zero divisor yields NaN or
      an infinity, neither of which is a real number (None). */
  function DivideF32(a: real, b: real): Option<real>
  {
    if b == 0.0 then None else Some(a / b)
  }

  /** The gain exactly as src/main.rs:180-186 computes it, with the division
      by the threshold left unguarded. It agrees with GateMultiplier for
      every non-zero threshold and is not a real number when the threshold
      is 0 and the envelope does not exceed it. */
  function GateMultiplierAsWritten(m: Transcendentals, envelope: real, threshold: real): (r: Option<real>)
    ensures threshold != 0.0 ==> r == Some(GateMultiplier(m, envelope, threshold))
    ensures threshold == 0.0 && envelope <= threshold ==> r == None
  {
    if envelope > threshold then Some(1.0)
    else
      var ratio := DivideF32(envelope, threshold);
      assert threshold != 0.0 ==>
        (ratio == Some(envelope / threshold) &&
         GateMultiplier(m, envelope, threshold) == m.pow15(ratio.value) * (0.15 + 0.85 * ratio.value));
      if ratio.None? then None
      else Some(m.pow15(ratio.value) * (0.15 + 0.85 * ratio.value))
  }

  /** Silence at a noise threshold of 0: from the initial envelope 0, a zero
      input sample keeps the envelope at 0, and the gain as written is then
      0 / 0, not a number, where the corrected gain closes the gate. */
  lemma ZeroThresholdSilenceAsWritten(m: Transcendentals, phase: real, freq: real,
                                      attack: real, release: real, smoothing: real)
    ensures var shifted := Modulate(m, 0.0, AdvancePhase(phase, freq));
            var env := EnvelopeStep(m, 0.0, TargetEnvelope(Abs(shifted), 0.0), attack, release, smoothing);
            env == 0.0 && GateMultiplierAsWritten(m, env, 0.0) == None && GateMultiplier(m, env, 0.0) == 0.0
  {
  }

  /** The worked example: envelope 0.005 against threshold 0.01 is ratio 0.5,
      so the gain is 0.5^1.5 · 0.575. */
  lemma GateMultiplierExample(m: Transcendentals)
    ensures GateMultiplier(m, 0.005, 0.01) == m.pow15(0.5) * 0.575
    ensures GateMultiplier(m, 0.02, 0.01) == 1.0
  {
  }
}
