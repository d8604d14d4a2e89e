# Voice transformer: a Dafny model of the real-time sample path

This project models the audio core of the voice transformer in `src/main.rs`.
The capture callback runs each input sample through an amplitude modulation,
a noise gate and a volume stage. It appends the result to a shared sample
buffer, inserts one cubic-interpolated sample at a fixed cadence, and trims
the buffer to a size limit. The playback callback either drains a full
output block from the front of that buffer or outputs silence.

Samples and parameters are `real`. sin, cos, exp and x ↦ x^1.5 are not
interpreted: they are total `real -> real` fields of a `Transcendentals`
value passed to the callbacks. Lemmas that need a fact about them state it
as a precondition:

- `ExpDecays`: exp maps negative arguments into [0, 1].
- `PowAnchored`: 0^1.5 = 0 and 1^1.5 = 1.
- `PowInUnit`: x^1.5 maps [0, 1] into [0, 1].

Modules:

- `Interpolation` (interpolation.dfy): `cubic_interpolate`.
- `Effects` (effects.dfy): the phase accumulator, the modulation and the noise
  gate (target, time-constant choice, the two envelope blends, the gain curve).
- `Capture` (capture.dfy): the parameter record and the capture state as
  values, one sample's step, a block's run and the trim.
- `Transformer` (transformer.dfy): class `VoiceTransformer`. Its fields are
  the shared buffer (`seq<real>`), the phase and the envelope. `Capture`,
  `ProcessSample`, `ApplyEffects` and `Push` are the input callback and its
  loop body; `Playback` is the output callback and writes an `array<real>` in
  place. The capture methods are proved equal to the functions of `Capture`.
  `Playback` states the output contents and the new buffer directly in its
  own contract.

Points of the code worth knowing, which the model follows:

- The interpolation cadence test is the buffer length right after the push
  (`buffer.len() % 441 == 0`), not a count of samples appended. Playback
  drains and trims change that length. `PushSample` models the length test.
- The interpolation reads `buffer[len-2]` and `buffer[len-1]` after the push,
  so p1 is the sample just pushed, and p1, p2 and p3 are all that sample.
  `CubicMidpointOfRepeatedSample` gives the resulting value:
  x + (x − previous)/8.
- There is no guard on a zero time constant. In f32, −1/(44100·0) is −∞ and
  exp(−∞) = 0, so the envelope is set to the target at once. `Alpha` models
  that outcome.
- There is no spectrum analyser, Hann window, FFT or analysis window in
  `src/main.rs`, so none is modelled.

## Model

| member | source | states |
|---|---|---|
| `Interpolation.CubicInterpolate` | src/main.rs:24-30 | at t = 0 the value is p1 and at t = 1 it is p2; four equal points give that value for every t |
| `Interpolation.CubicMidpointExample` | src/main.rs:24-30 | cubic(0, 1, 1, 0, 0.5) = 1.25 |
| `Interpolation.CubicMidpointOfRepeatedSample` | src/main.rs:194-199 | with p1 = p2 = p3 = x at t = 0.5 the inserted value is x + (x − p0)/8 |
| `Effects.AdvancePhase` | src/main.rs:151-154 | the new phase is phase + increment or that minus 2π; if the phase and the increment are in [0, 2π), so is the result |
| `Effects.IncrementInRange` | src/main.rs:151 | a modulation frequency in [0, 44100) gives a per-sample increment in [0, 2π) |
| `Effects.ModulationDepthBound` | src/main.rs:156-157 | with sin and cos in [−1, 1] the modulated sample keeps its sign and its magnitude stays within 0.985 to 1.015 times the input's |
| `Effects.TargetEnvelope` | src/main.rs:160-165 | a level above the threshold is the target; a level at or below it gives a target of exactly 0; the target is non-negative for a non-negative level |
| `Effects.Alpha` | src/main.rs:175 | a zero time constant gives coefficient 0; with exp decaying and a non-negative time constant the coefficient is in [0, 1] |
| `Effects.BlendBetween` | src/main.rs:176-177 | one blend with weight in [0, 1] lies between the old envelope and the target |
| `Effects.SmoothEnvelopeBetween` | src/main.rs:176-177 | the two blends applied in order leave the envelope between its old value and the target (no overshoot) |
| `Effects.EnvelopeStepBetween` | src/main.rs:167-177 | attack is used exactly when the target exceeds the current envelope, release otherwise; with sane parameters the new envelope lies between the old one and the target |
| `Effects.GateMultiplierProperties` | src/main.rs:180-186 | the gain is exactly 1 whenever envelope > threshold; it is 1 at ratio 1 (continuous at the threshold) and 0 at ratio 0; for a non-negative envelope it is in [0, 1] |
| `Effects.GateMultiplierExample` | src/main.rs:180-186 | envelope 0.005 against threshold 0.01 gives 0.5^1.5 · 0.575; envelope 0.02 gives exactly 1 |
| `Effects.GateMultiplierAsWritten` | src/main.rs:180-186 | the unguarded division agrees with the corrected gain for every non-zero threshold and is not a real number when the threshold is 0 and the envelope does not exceed it |
| `Effects.ZeroThresholdSilenceAsWritten` | src/main.rs:160-186 | from envelope 0 with threshold 0, a silent sample keeps the envelope at 0; the gain as written is then 0/0, while the corrected gain is 0 |
| `Capture.InitialParamsSane` | src/main.rs:82-88 | the start-up parameters meet the preconditions of the block invariants: the 5 Hz increment is in [0, 2π), attack and release are non-negative, smoothing is in [0, 1] |
| `Capture.EffectChainProperties` | src/main.rs:150-188 | for one sample: the phase stays in [0, 2π); the envelope moves towards the target without overshoot and stays non-negative; an open gate passes the modulated sample times the volume; a closed gate outputs 0 |
| `Capture.PushSample` | src/main.rs:190-201 | exactly one processed sample is appended, plus one interpolated sample exactly when the length after the push is a non-zero multiple of 441; earlier samples are unchanged; the inserted value is x + (x − previous)/8 |
| `Capture.Run` | src/main.rs:149-202 | over a block, the pre-block buffer is a prefix of the untrimmed buffer, which gains between one and two samples per input sample |
| `Capture.Trim` | src/main.rs:204-207 | at most `limit` samples remain; a longer buffer becomes exactly its last `limit` samples in order; a buffer within the limit is unchanged |
| `Capture.CaptureBlock` | src/main.rs:129-207 | after a whole block the buffer length is at most the size limit |
| `Capture.RunPhaseInRange` | src/main.rs:149-154 | over any block the phase stays in [0, 2π) when it starts there and the increment is in [0, 2π) |
| `Capture.RunEnvelopeNonNegative` | src/main.rs:167-177 | over any block the envelope stays non-negative for non-negative attack and release times and smoothing in [0, 1] |
| `Transformer.VoiceTransformer.constructor` | src/main.rs:78-92 | empty buffer, phase 0, envelope 0 |
| `Transformer.VoiceTransformer.Capture` | src/main.rs:129-207 | the new state is `CaptureBlock` of the old one, so the buffer is at most the size limit; the phase stays in [0, 2π) under the increment condition |
| `Transformer.VoiceTransformer.ProcessSample` | src/main.rs:149-201 | one loop iteration is one `Step` of the state |
| `Transformer.VoiceTransformer.ApplyEffects` | src/main.rs:150-188 | the new phase, the new envelope and the returned sample are those of `EffectChain` |
| `Transformer.VoiceTransformer.Push` | src/main.rs:190-201 | the new buffer is `PushSample` of the old one |
| `Transformer.VoiceTransformer.Playback` | src/main.rs:217-230 | with at least n buffered samples, output i is 0.9 · buffer[i] for every i < n and the buffer becomes old[n..]; otherwise every output is 0 and the buffer is unchanged |

## Left out

- Device enumeration, configuration, stream building and the error callbacks (src/main.rs:33-112, 209, 232-238). These are audio-backend I/O.
- The `Arc<Mutex<…>>` sharing and the separate real-time threads of the two callbacks. The model is sequential method calls on one object.
- The interactive console loop and its parse-or-default fallbacks (src/main.rs:290-380), including the `d` defaults. This is stdin I/O. The initial parameter values are `Capture.InitialParams`.
- The progress-bar display closures (src/main.rs:252-284). This is display code.
- The adaptive-threshold average (src/main.rs:145-146). The gate never reads it. On an empty block it divides by zero.
- The values of sin, cos, exp and powf. They are uninterpreted, so f32 rounding, NaN and infinities are not modelled. There are two exceptions. `Effects.Alpha` models exp(−∞) = 0 at a zero time constant. `Effects.GateMultiplierAsWritten` models the division by a zero threshold (see Findings).
- `Capture.EffectChain` and `Transformer.VoiceTransformer.ApplyEffects`: use the corrected gain `Effects.GateMultiplier`. At threshold 0 with envelope 0 the capture model therefore pushes 0 where the source pushes NaN (see Findings).
- `Effects.GateMultiplierProperties`: does not state that the gain curve is monotone between ratio 0 and 1. That depends on x^1.5 being monotone, and x^1.5 is uninterpreted.
- `Effects.Alpha`: does not model a time constant of −0.0, which gives exp(+∞) in f32. Reals have no negative zero.
- `Transformer.VoiceTransformer.ApplyEffects`: powf of a negative ratio is NaN in f32, but here x^1.5 is total. A negative ratio needs a negative envelope. That happens with a smoothing factor outside [0, 1] or with a negative attack or release time (the console accepts both). A negative time gives alpha = exp(positive) > 1.
- `Transformer.VoiceTransformer.Playback`: `buffer[i] * 0.9` is exact real multiplication, not f32 rounding.
- The spectrum analyser, the analysis window and the broadcaster are not in `src/main.rs`. `src/web_server.rs` (websocket broadcast) and `main.py` (numpy/scipy filtering) are not part of this model.

## Findings

| source | as written | input that shows it | evidently intended | confidence | as-written member | corrected member |
|---|---|---|---|---|---|---|
| src/main.rs:183 | `ratio = envelope / noise_threshold` with no guard against a zero threshold | noise threshold set to 0.0 (accepted at src/main.rs:312), silent input, envelope at its initial 0.0: 0.0 / 0.0 is NaN, so the gain and the pushed sample are NaN and reach the output | with no signal energy the gate is closed: gain 0 | high that NaN results for this input; medium that gain 0 is the intent; not executed | `Effects.GateMultiplierAsWritten`, `Effects.ZeroThresholdSilenceAsWritten` | `Effects.GateMultiplierProperties` (about `Effects.GateMultiplier`, which the model uses) |
