/** The feedback delay card (`AudioDelay`): a 72000-slot circular store read
    by two interpolating taps, a knob/CV control path with hysteresis and
    one-pole smoothing, a tap-tempo estimator on pulse input 1, four
    feedback modes and freeze on pulse input 2.

    The arithmetic stages of `ProcessSample` are pure functions below; the
    class `AudioDelay` at the end holds the firmware's fields and runs the
    stages in the firmware's order. */
module Delay {
  import opened Fixed

  const BufferSize: int := 72000
  const MinDelay: int := 100
  const MaxDelay: int := 71000
  /** `MIN_DELAY << 7` and `MAX_DELAY << 7`: the delay bounds with 7
      fractional bits. */
  const MinDelayFine: int := 12800
  const MaxDelayFine: int := 9088000
  const TapMinInterval: int := 2400
  const TapMaxInterval: int := 144000
  const TapTimeout: int := 240000
  const HysteresisThreshold: int := 8
  const MinInputGain: int := 205
  const SoftKnee: int := 1200
  /** The Q16 constant of the Shimmer pitch shift. */
  const ShimmerPitchMod: int := -21782

  // ---------------------------------------------------------------------
  // Mode cycling

  datatype Mode = Clean | Saturation | Shimmer | LoFi
  {
    /** The enum value of the mode in the firmware. */
    function Index(): nat
    {
      match this
      case Clean => 0
      case Saturation => 1
      case Shimmer => 2
      case LoFi => 3
    }

    /** `(currentMode + 1) % 4`. */
    function Next(): (m: Mode)
      ensures m.Index() == (Index() + 1) % 4
    {
      match this
      case Clean => Saturation
      case Saturation => Shimmer
      case Shimmer => LoFi
      case LoFi => Clean
    }
  }

  /** The mode after one call: it advances only on a rising edge of the
      switch's Down position. */
  function ModeAfter(mode: Mode, lastDown: bool, down: bool): (m: Mode)
    ensures down && !lastDown ==> m.Index() == (mode.Index() + 1) % 4
    ensures !(down && !lastDown) ==> m == mode
  {
    if down && !lastDown then mode.Next() else mode
  }

  /** Cycling four times returns to the starting mode. */
  lemma ModeCycleLength(m: Mode)
    ensures m.Next().Next().Next().Next() == m
    ensures m.Next() != m
  {
  }

  /** The one-hot mode indicator on LEDs 2-5. */
  function ModeLeds(mode: Mode): (leds: seq<bool>)
    ensures |leds| == 4
    ensures forall i :: 0 <= i < 4 ==> (leds[i] <==> i == mode.Index())
  {
    [mode == Clean, mode == Saturation, mode == Shimmer, mode == LoFi]
  }

  // ---------------------------------------------------------------------
  // Tap tempo

  /** The tap-tempo fields of the card: all `uint32_t` except the two
      flags. */
  datatype TapState = TapState(lastTapTime: int, tapInterval: int, active: bool,
                               lastPulse: bool, sampleCounter: int)
  {
    ghost predicate Valid()
    {
      && 0 <= lastTapTime < U32
      && 0 <= sampleCounter < U32
      && 0 <= tapInterval < U32
    }

    /** `sampleCounter - lastTapTime` in `uint32_t` arithmetic. */
    function Elapsed(): nat
    {
      Wrap32(sampleCounter - lastTapTime)
    }
  }

  /** True when an interval is accepted as a tap period (50 ms to 3 s). */
  predicate InTapWindow(interval: int)
  {
    TapMinInterval <= interval <= TapMaxInterval
  }

  /** One call's worth of tap-tempo bookkeeping: edge detection on pulse 1,
      acceptance of the measured interval, the timeout (measured from the
      last tap, accepted or not, after that tap's update) and the counter
      increment. */
  function TapStep(t: TapState, pulse: bool): (r: TapState)
    requires t.Valid()
    ensures r.Valid()
    ensures r.lastPulse == pulse
    ensures r.sampleCounter == Wrap32(t.sampleCounter + 1)
    // a rising edge: the tap is timestamped whether or not it is accepted
    ensures pulse && !t.lastPulse ==> r.lastTapTime == t.sampleCounter
    ensures pulse && !t.lastPulse && InTapWindow(t.Elapsed()) ==>
              r.tapInterval == t.Elapsed() && r.active
    ensures pulse && !t.lastPulse && !InTapWindow(t.Elapsed()) ==>
              r.tapInterval == t.tapInterval && r.active == t.active
    // no edge: only the timeout can change anything
    ensures !(pulse && !t.lastPulse) ==>
              r.lastTapTime == t.lastTapTime && r.tapInterval == t.tapInterval &&
              r.active == (t.active && t.Elapsed() <= TapTimeout)
  {
    var edge := pulse && !t.lastPulse;
    var interval := Wrap32(t.sampleCounter - t.lastTapTime);
    var accepted := edge && InTapWindow(interval);
    var tapInterval := if accepted then interval else t.tapInterval;
    var active := t.active || accepted;
    var lastTapTime := if edge then t.sampleCounter else t.lastTapTime;
    var timedOut := active && Wrap32(t.sampleCounter - lastTapTime) > TapTimeout;
    TapState(lastTapTime, tapInterval, active && !timedOut, pulse,
             Wrap32(t.sampleCounter + 1))
  }

  /** `n` calls with pulse input 1 held low. */
  function TapIdle(t: TapState, n: nat): (r: TapState)
    requires t.Valid()
    ensures r.Valid()
    decreases n
  {
    if n == 0 then t else TapIdle(TapStep(t, false), n - 1)
  }

  lemma Wrap32Shift(x: int, j: int)
    ensures Wrap32(Wrap32(x) + j) == Wrap32(x + j)
  {
    var q := x / U32;
    assert x == q * U32 + Wrap32(x);
    assert x + j == q * U32 + (Wrap32(x) + j);
  }

  /** The elapsed time the timeout compares `j` calls after state `t`, if
      no tap arrives in between. */
  function ElapsedAfter(t: TapState, j: int): nat
  {
    Wrap32(t.sampleCounter + j - t.lastTapTime)
  }

  /** While pulse 1 stays low the tap time and interval stay put and the
      counter advances once per call, modulo 2^32. */
  lemma {:induction false} TapIdleCounter(t: TapState, n: nat)
    requires t.Valid()
    ensures TapIdle(t, n).lastTapTime == t.lastTapTime
    ensures TapIdle(t, n).tapInterval == t.tapInterval
    ensures TapIdle(t, n).sampleCounter == Wrap32(t.sampleCounter + n)
    decreases n
  {
    if n > 0 {
      var t1 := TapStep(t, false);
      TapIdleCounter(t1, n - 1);
      calc {
        TapIdle(t, n).sampleCounter;
        Wrap32(Wrap32(t.sampleCounter + 1) + (n - 1));
        { Wrap32Shift(t.sampleCounter + 1, n - 1); }
        Wrap32(t.sampleCounter + 1 + (n - 1));
      }
    }
  }

  /** One idle call moves the elapsed-time sequence along by one. */
  lemma ElapsedShift(t: TapState, t1: TapState, j: int)
    requires t1.lastTapTime == t.lastTapTime && t1.sampleCounter == Wrap32(t.sampleCounter + 1)
    ensures ElapsedAfter(t1, j - 1) == ElapsedAfter(t, j)
  {
    calc {
      ElapsedAfter(t1, j - 1);
      Wrap32(Wrap32(t.sampleCounter + 1) + (j - 1 - t.lastTapTime));
      { Wrap32Shift(t.sampleCounter + 1, j - 1 - t.lastTapTime); }
      Wrap32(t.sampleCounter + 1 + (j - 1 - t.lastTapTime));
    }
  }

  /** While pulse 1 stays low the flag can only have survived if every
      elapsed time the timeout compared was at most 240000. */
  lemma {:induction false} TapIdleActive(t: TapState, n: nat)
    requires t.Valid()
    ensures TapIdle(t, n).active ==>
              t.active && forall j :: 0 <= j < n ==> ElapsedAfter(t, j) <= TapTimeout
    decreases n
  {
    if n > 0 {
      var t1 := TapStep(t, false);
      TapIdleActive(t1, n - 1);
      if TapIdle(t, n).active {
        forall j | 0 <= j < n
          ensures ElapsedAfter(t, j) <= TapTimeout
        {
          if j > 0 {
            ElapsedShift(t, t1, j);
          }
        }
      }
    }
  }

  /** The timeout: after 240002 or more calls without a rising edge on
      pulse 1, tap tempo is off, whatever state it started in (the counter
      wraps, so 240001 consecutive elapsed values can all be at most 240000
      only when the first one is 0). */
  lemma TapTimesOut(t: TapState, n: nat)
    requires t.Valid()
    requires n >= TapTimeout + 2
    ensures !TapIdle(t, n).active
  {
    var e := t.Elapsed();
    var j := if e > TapTimeout then 0 else TapTimeout + 1 - e;
    Wrap32Shift(t.sampleCounter - t.lastTapTime, j);
    assert ElapsedAfter(t, j) > TapTimeout;
    TapIdleActive(t, n);
  }

  // ---------------------------------------------------------------------
  // Control conditioning and delay target

  /** The hysteresis stage: the value used this call, which is also the new
      `lastRawControl`. Outside LOFI a change smaller than the threshold
      keeps the held value; LOFI always takes the new value. */
  function HeldControl(mode: Mode, combined: int, last: int): (r: int)
    ensures mode == LoFi ==> r == combined
    ensures mode != LoFi && -HysteresisThreshold < combined - last < HysteresisThreshold ==> r == last
    ensures mode != LoFi && !(-HysteresisThreshold < combined - last < HysteresisThreshold) ==> r == combined
    ensures r == combined || r == last
    ensures -HysteresisThreshold < r - combined < HysteresisThreshold
  {
    if mode != LoFi then
      var delta := if combined - last < 0 then last - combined else combined - last;
      if delta >= HysteresisThreshold then combined else last
    else
      combined
  }

  /** Holding is idempotent: feeding the same input again keeps the held
      value. */
  lemma HeldControlIdempotent(mode: Mode, combined: int, last: int)
    ensures HeldControl(mode, combined, HeldControl(mode, combined, last))
         == HeldControl(mode, combined, last)
  {
  }

  /** The manual path: the control mapped linearly onto [100, 71000]. */
  function KnobTarget(control: int): (r: int)
    requires 0 <= control <= 4095
    ensures MinDelay <= r <= MaxDelay
    ensures control == 0 ==> r == MinDelay
    ensures control == 4095 ==> r == MaxDelay
  {
    MinDelay + (control * (MaxDelay - MinDelay)) / 4095
  }

  lemma KnobTargetMonotonic(c1: int, c2: int)
    requires 0 <= c1 <= c2 <= 4095
    ensures KnobTarget(c1) <= KnobTarget(c2)
  {
    assert c1 * (MaxDelay - MinDelay) <= c2 * (MaxDelay - MinDelay);
  }

  /** The delay target in whole samples: the tap interval while tap tempo is
      active, the knob path otherwise. */
  function TargetDelay(tapActive: bool, tapInterval: int, control: int): (r: int)
    requires 0 <= control <= 4095
    ensures MinDelay <= r <= MaxDelay
    ensures tapActive ==> r == Clamp(tapInterval, MinDelay, MaxDelay)
    ensures !tapActive ==> r == KnobTarget(control)
  {
    if tapActive then Clamp(tapInterval, MinDelay, MaxDelay) else KnobTarget(control)
  }

  /** One step of the 255/256 one-pole smoother in the 7-fractional-bit
      domain. It moves toward the target and never passes it, and the
      target is its fixed point. */
  function Smooth(smoothed: int, targetFine: int): (r: int)
    ensures smoothed <= targetFine ==> smoothed <= r <= targetFine
    ensures targetFine <= smoothed ==> targetFine <= r <= smoothed
    ensures smoothed == targetFine ==> r == smoothed
  {
    (smoothed * 255 + targetFine + 128) / 256
  }

  /** Once the smoothed delay is in the legal range it stays there. */
  lemma SmoothStaysInRange(smoothed: int, target: int)
    requires MinDelayFine <= smoothed <= MaxDelayFine
    requires MinDelay <= target <= MaxDelay
    ensures MinDelayFine <= Smooth(smoothed, target * 128) <= MaxDelayFine
  {
  }

  /** The control fields of the card: the mode and the switch it follows,
      tap tempo, the held control value and the smoothed delay. */
  datatype ControlState = ControlState(mode: Mode, lastSwitchDown: bool, tap: TapState,
                                       lastRawControl: int, smoothedDelay: int)
  {
    /** The bounds the control half keeps. */
    ghost predicate Valid()
    {
      tap.Valid() && 0 <= lastRawControl <= 4095 && 0 <= smoothedDelay <= MaxDelayFine
    }
  }

  /** The control half of a call: mode cycling on switch Down, tap tempo on
      pulse 1, knob plus CV through the hysteresis stage (judged in the new
      mode), and one smoothing step toward the target it selects. */
  function ControlStep(c: ControlState, switchDown: bool, knob: int, cv: int, pulse: bool): (r: ControlState)
    requires c.Valid()
    ensures r.Valid()
    ensures r.lastSwitchDown == switchDown
    ensures r.mode.Index() == if switchDown && !c.lastSwitchDown then (c.mode.Index() + 1) % 4 else c.mode.Index()
    ensures r.tap == TapStep(c.tap, pulse)
    ensures r.lastRawControl == CombineControl(knob, cv) || r.lastRawControl == c.lastRawControl
    ensures var target := TargetDelay(r.tap.active, r.tap.tapInterval, r.lastRawControl) * 128;
            (c.smoothedDelay <= target ==> c.smoothedDelay <= r.smoothedDelay <= target) &&
            (target <= c.smoothedDelay ==> target <= r.smoothedDelay <= c.smoothedDelay)
  {
    var mode := ModeAfter(c.mode, c.lastSwitchDown, switchDown);
    var tap := TapStep(c.tap, pulse);
    var held := HeldControl(mode, CombineControl(knob, cv), c.lastRawControl);
    ControlState(mode, switchDown, tap, held, Smooth(c.smoothedDelay, TargetDelay(tap.active, tap.tapInterval, held) * 128))
  }

  // ---------------------------------------------------------------------
  // Stereo taps

  /** The Shimmer pitch offset, `(smoothed * -21782 + 32768) >> 16`. */
  function PitchModulation(smoothed: int): (r: int)
    requires 0 <= smoothed
    ensures -smoothed <= r <= 0
  {
    (smoothed * ShimmerPitchMod + 32768) / 65536
  }

  /** The left (and feedback) delay with 7 fractional bits. */
  function LeftDelay(mode: Mode, smoothed: int): (r: int)
    requires 0 <= smoothed
    ensures MinDelayFine <= r <= MaxDelayFine
    ensures mode != Shimmer ==> r == Clamp(smoothed, MinDelayFine, MaxDelayFine)
    ensures mode == Shimmer && MinDelayFine <= smoothed ==> r <= smoothed
  {
    var modulation := if mode == Shimmer then PitchModulation(smoothed) else 0;
    Clamp(smoothed + modulation, MinDelayFine, MaxDelayFine)
  }

  /** The right delay: equal to the left in CLEAN and LOFI, 101/100 of it
      in SATURATION and 103/100 in SHIMMER, then clamped. It is never
      shorter than the left. */
  function RightDelay(mode: Mode, left: int): (r: int)
    requires MinDelayFine <= left <= MaxDelayFine
    ensures MinDelayFine <= r <= MaxDelayFine
    ensures mode == Clean || mode == LoFi ==> r == left
    ensures left <= r
  {
    var right :=
      if mode == Clean || mode == LoFi then left
      else if mode == Saturation then (left * 101) / 100
      else (left * 103) / 100;
    Clamp(right, MinDelayFine, MaxDelayFine)
  }

  /** A read index `writeIndex - delaySamples - back` as the firmware
      computes it: one conditional wrap, then the C++ remainder. For
      in-range delays it is the mathematical residue, so it is in bounds. */
  function ReadIndex(writeIndex: int, delaySamples: int, back: int): (r: int)
    ensures 0 <= writeIndex < BufferSize && 0 <= delaySamples && 0 <= back &&
            delaySamples + back <= BufferSize ==>
              0 <= r < BufferSize && r == (writeIndex - delaySamples - back) % BufferSize
  {
    var index := writeIndex - delaySamples - back;
    var wrapped := if index < 0 then index + BufferSize else index;
    CRem(wrapped, BufferSize)
  }

  /** Linear interpolation with 7 fractional bits, rounded:
      `(s2 * frac + s1 * (128 - frac) + 64) >> 7`. */
  function Interpolate(s1: int, s2: int, frac: int): (r: int)
    ensures frac == 0 ==> r == s1
    ensures 0 <= frac <= 128 && s1 <= s2 ==> s1 <= r <= s2
    ensures 0 <= frac <= 128 && s2 <= s1 ==> s2 <= r <= s1
  {
    assert s2 * frac + s1 * (128 - frac) == s1 * 128 + (s2 - s1) * frac;
    MulBetween(s2 - s1, frac, 128);
    (s2 * frac + s1 * (128 - frac) + 64) / 128
  }

  /** Every stored sample within the clip range. */
  predicate InClipRange(buffer: seq<int>)
  {
    forall i :: 0 <= i < |buffer| ==> -2047 <= buffer[i] <= 2047
  }

  /** One interpolated tap: the sample `delay >> 7` plus one and plus two
      slots behind the write cursor, weighted by the low 7 bits. */
  function TapSample(buffer: seq<int>, writeIndex: int, delayFine: int): (r: int)
    requires |buffer| == BufferSize && 0 <= writeIndex < BufferSize
    requires MinDelayFine <= delayFine <= MaxDelayFine
    ensures InClipRange(buffer) ==> -2047 <= r <= 2047
  {
    var delaySamples := delayFine / 128;
    var frac := delayFine % 128;
    var i1 := ReadIndex(writeIndex, delaySamples, 1);
    var i2 := ReadIndex(writeIndex, delaySamples, 2);
    Interpolate(buffer[i1], buffer[i2], frac)
  }

  // ---------------------------------------------------------------------
  // Feedback path

  /** `4095 - ((f * f + 2048) >> 12)`, floored at 205. */
  function InputGain(feedback: int): (g: int)
    requires 0 <= feedback <= 4095
    ensures MinInputGain <= g <= 4095
    ensures feedback == 0 ==> g == 4095
  {
    SquareBound(feedback);
    var g := 4095 - ((feedback * feedback + 2048) / 4096);
    if g < MinInputGain then MinInputGain else g
  }

  /** `4095 - (((4095 - f) * (4095 - f) + 2048) >> 12)`. */
  function FeedbackGain(feedback: int): (g: int)
    requires 0 <= feedback <= 4095
    ensures 0 <= g <= 4095
    ensures feedback == 4095 ==> g == 4095
  {
    SquareBound(4095 - feedback);
    4095 - (((4095 - feedback) * (4095 - feedback) + 2048) / 4096)
  }

  lemma SquareBound(x: int)
    requires 0 <= x <= 4095
    ensures 0 <= x * x <= 4095 * 4095
  {
    MulBetween(x, x, 4095);
  }

  lemma SquareMonotonic(x: int, y: int)
    requires 0 <= x <= y
    ensures x * x <= y * y
  {
    assert x * x <= x * y;
  }

  /** The crossfade law is monotonic: more feedback never raises the input
      gain and never lowers the feedback gain. */
  lemma CrossfadeMonotonic(f1: int, f2: int)
    requires 0 <= f1 <= f2 <= 4095
    ensures InputGain(f2) <= InputGain(f1)
    ensures FeedbackGain(f1) <= FeedbackGain(f2)
  {
    SquareMonotonic(f1, f2);
    SquareMonotonic(4095 - f2, 4095 - f1);
  }

  /** A sample times a 12-bit gain, `(x * g + 2048) >> 12`: the result has
      the sign of `x` and is no larger in magnitude. */
  function Scale12(x: int, g: int): (r: int)
    requires 0 <= g <= 4095
    ensures 0 <= x ==> 0 <= r <= x
    ensures x < 0 ==> x <= r <= 0
  {
    MulBetween(x, g, 4095);
    (x * g + 2048) / 4096
  }

  /** The soft knee of `warmSaturate`: identity below 1200 in magnitude,
      above it 1200 plus about 5/8 of the excess, capped at 2047. */
  function SoftKneeCurve(driven: int): (r: int)
    ensures -2047 <= r <= 2047
    ensures -SoftKnee < driven < SoftKnee ==> r == driven
    ensures 0 <= driven ==> 0 <= r <= driven
    ensures driven < 0 ==> driven <= r <= 0
  {
    if driven >= 0 then
      if driven < SoftKnee then driven
      else
        var excess := driven - SoftKnee;
        var output := SoftKnee + (excess + 1) / 2 + (excess + 4) / 8;
        if output > 2047 then 2047 else output
    else
      var posInput := -driven;
      if posInput < SoftKnee then driven
      else
        var excess := posInput - SoftKnee;
        var output := -(SoftKnee + (excess + 1) / 2 + (excess + 4) / 8);
        if output < -2047 then -2047 else output
  }

  /** The knee treats both polarities alike. */
  lemma SoftKneeOdd(d: int)
    ensures SoftKneeCurve(-d) == -SoftKneeCurve(d)
  {
  }

  /** The knee never reverses the order of two levels. */
  lemma SoftKneeMonotonic(d1: int, d2: int)
    requires d1 <= d2
    ensures SoftKneeCurve(d1) <= SoftKneeCurve(d2)
  {
    if 0 <= d1 {
      KneePositiveMonotonic(d1, d2);
    } else if d2 < 0 {
      SoftKneeOdd(d1);
      SoftKneeOdd(d2);
      KneePositiveMonotonic(-d2, -d1);
    }
  }

  lemma KneePositiveMonotonic(d1: int, d2: int)
    requires 0 <= d1 <= d2
    ensures SoftKneeCurve(d1) <= SoftKneeCurve(d2)
  {
  }

  datatype Saturated = Saturated(accum: int, output: int)

  /** `warmSaturate` on values: the energy accumulator's update and the
      driven soft-knee output. */
  function SaturateStep(accum: int, input: int): (r: Saturated)
    ensures -2047 <= r.output <= 2047
    ensures 0 <= accum <= 600 && -2047 <= input <= 2047 ==> 0 <= r.accum <= 600
  {
    var absInput := if input < 0 then -input else input;
    var accum' := (252 * accum + 128) / 256 + (absInput + 128) / 256;
    var drive := 3000 + (accum' + 4) / 8;
    var driven := (input * drive + 1024) / 2048;
    Saturated(accum', SoftKneeCurve(driven))
  }

  /** The shaped feedback signal: SATURATION runs it through the
      saturator; CLEAN, SHIMMER and LOFI pass it through unchanged. */
  function ShapeFeedback(mode: Mode, accum: int, signal: int): (r: Saturated)
    ensures mode != Saturation ==> r == Saturated(accum, signal)
    ensures mode == Saturation ==> r == SaturateStep(accum, signal)
  {
    if mode == Saturation then SaturateStep(accum, signal) else Saturated(accum, signal)
  }

  datatype Filtered = Filtered(state: int, output: int)

  /** The DC-blocking highpass: the state moves a b = 200/65536 step toward
      the input (rounded) and the output is the input minus the state. */
  function HighpassStep(state: int, input: int): (r: Filtered)
    ensures state <= input ==> state <= r.state <= input
    ensures input <= state ==> input <= r.state <= state
    ensures r.output == input - r.state
    ensures input == state ==> r.output == 0
  {
    var state' := state + ((input - state) * 200 + 32768) / 65536;
    Filtered(state', input - state')
  }

  /** What the feedback path leaves behind: the saturator's accumulator,
      the highpass state and the clipped sample for the store. */
  datatype Feedback = Feedback(accum: int, hpfState: int, written: int)

  /** The feedback path of one call: the input and the left tap crossfaded
      by the feedback amount, the tap shaped by the mode, the sum DC
      blocked and clipped. */
  function FeedbackStep(mode: Mode, accum: int, hpfState: int, audioIn: int, wetLeft: int, feedback: int)
    : (r: Feedback)
    requires 0 <= feedback <= 4095
    ensures -2047 <= r.written <= 2047
    ensures mode != Saturation ==> r.accum == accum
    ensures 0 <= accum <= 600 && -2047 <= wetLeft <= 2047 ==> 0 <= r.accum <= 600
    ensures -4096 <= hpfState <= 4096 && -2048 <= audioIn <= 2047 && -2047 <= wetLeft <= 2047 ==>
              -4096 <= r.hpfState <= 4096
  {
    var shaped := ShapeFeedback(mode, accum, Scale12(wetLeft, FeedbackGain(feedback)));
    var filtered := HighpassStep(hpfState, Scale12(audioIn, InputGain(feedback)) + shaped.output);
    Feedback(shaped.accum, filtered.state, Clip(filtered.output))
  }

  /** The store after one call: the sample at the cursor, unless frozen.
      No other slot ever changes. */
  function Store(buffer: seq<int>, writeIndex: int, freeze: bool, sample: int): (b: seq<int>)
    requires 0 <= writeIndex < |buffer|
    ensures |b| == |buffer|
    ensures forall i :: 0 <= i < |b| && i != writeIndex ==> b[i] == buffer[i]
    ensures freeze ==> b == buffer
    ensures !freeze ==> b[writeIndex] == sample
    ensures InClipRange(buffer) && -2047 <= sample <= 2047 ==> InClipRange(b)
  {
    if freeze then buffer else buffer[writeIndex := sample]
  }

  // ---------------------------------------------------------------------
  // Indicators

  /** The blink period: half the integer left delay, at least 100. */
  function BlinkRate(delaySamples: int): (r: int)
    ensures 100 <= r
    ensures 0 <= delaySamples <= MaxDelay ==> r <= MaxDelay / 2
  {
    var rate := delaySamples / 2;
    if rate < 100 then 100 else rate
  }

  datatype Blink = Blink(counter: int, led: Option<bool>)

  /** LED 0: the counter counts up to the blink rate, then resets and turns
      the LED on; from half the rate it turns it off; otherwise the LED is
      not written. */
  function BlinkStep(counter: int, rate: int): (r: Blink)
    requires 100 <= rate
    ensures 0 <= counter ==> 0 <= r.counter < rate
    ensures r.led == Some(true) <==> counter + 1 >= rate
    ensures 0 <= counter ==> (r.led == Some(true) <==> r.counter == 0)
    ensures r.led == Some(false) <==> rate / 2 <= counter + 1 < rate
  {
    var c := counter + 1;
    if c >= rate then Blink(0, Some(true))
    else if c >= rate / 2 then Blink(c, Some(false))
    else Blink(c, None)
  }

  /** What one call sends to the outputs. */
  datatype DelayOutput = DelayOutput(left: int, right: int, blinkLed: Option<bool>,
                                     feedbackLed: bool, modeLeds: seq<bool>)

  /** The outputs of one call: each tap crossfaded with the dry input by
      the Main knob and clipped, the blink command, the feedback LED (lit
      above half feedback) and the mode LEDs. */
  function Outputs(audioIn: int, wetLeft: int, wetRight: int, knobMain: int,
                   blinkLed: Option<bool>, feedback: int, mode: Mode): (o: DelayOutput)
    requires -2048 <= audioIn <= 2047 && -2048 <= wetLeft <= 2047 && -2048 <= wetRight <= 2047
    ensures -2047 <= o.left <= 2047 && -2047 <= o.right <= 2047
    ensures knobMain == 0 ==> o.left == Clip(audioIn) && o.right == Clip(audioIn)
    ensures knobMain == 4095 ==> o.left == Clip(wetLeft) && o.right == Clip(wetRight)
    ensures o.blinkLed == blinkLed && o.feedbackLed == (feedback > 2048)
    ensures o.modeLeds == ModeLeds(mode)
  {
    CrossmixAllDry(audioIn, wetLeft);
    CrossmixAllDry(audioIn, wetRight);
    CrossmixAllWet(audioIn, wetLeft);
    CrossmixAllWet(audioIn, wetRight);
    DelayOutput(Clip(Crossmix(audioIn, wetLeft, knobMain)), Clip(Crossmix(audioIn, wetRight, knobMain)),
                blinkLed, feedback > 2048, ModeLeds(mode))
  }

  /** What the data path of one call leaves behind: the store and its
      cursor, the saturator and highpass states, the blink counter, and the
      outputs. */
  datatype Pass = Pass(buffer: seq<int>, writeIndex: int, accum: int, hpfState: int, ledCounter: int,
                       out: DelayOutput)

  /** The data path of one call, given the store with its cursor, the mode
      and smoothed delay the controls produced this call, and the states
      of the feedback filters and the blink counter: both taps read from
      the store as it stands, the left one fed back and written (unless
      frozen), the taps mixed with the input for the outputs. */
  function DataPath(buffer: seq<int>, writeIndex: int, mode: Mode, smoothed: int,
                    accum: int, hpfState: int, counter: int,
                    audioIn: int, feedback: int, knobMain: int, freeze: bool): (p: Pass)
    requires |buffer| == BufferSize && 0 <= writeIndex < BufferSize && InClipRange(buffer)
    requires 0 <= smoothed && -2048 <= audioIn <= 2047 && 0 <= feedback <= 4095
    ensures |p.buffer| == BufferSize && InClipRange(p.buffer)
    ensures p.writeIndex == (writeIndex + 1) % BufferSize
    ensures forall i :: 0 <= i < BufferSize && i != writeIndex ==> p.buffer[i] == buffer[i]
    ensures freeze ==> p.buffer == buffer
    ensures mode != Saturation ==> p.accum == accum
    ensures 0 <= accum <= 600 ==> 0 <= p.accum <= 600
    ensures -4096 <= hpfState <= 4096 ==> -4096 <= p.hpfState <= 4096
    ensures 0 <= counter ==> 0 <= p.ledCounter < MaxDelay / 2
    ensures -2047 <= p.out.left <= 2047 && -2047 <= p.out.right <= 2047
    ensures knobMain == 0 ==> p.out.left == Clip(audioIn) && p.out.right == Clip(audioIn)
    ensures p.out.feedbackLed == (feedback > 2048) && p.out.modeLeds == ModeLeds(mode)
  {
    var left := LeftDelay(mode, smoothed);
    var right := RightDelay(mode, left);
    var wetLeft := TapSample(buffer, writeIndex, left);
    var wetRight := TapSample(buffer, writeIndex, right);
    var fb := FeedbackStep(mode, accum, hpfState, audioIn, wetLeft, feedback);
    var blink := BlinkStep(counter, BlinkRate(left / 128));
    Pass(Store(buffer, writeIndex, freeze, fb.written), (writeIndex + 1) % BufferSize,
         fb.accum, fb.hpfState, blink.counter,
         Outputs(audioIn, wetLeft, wetRight, knobMain, blink.led, feedback, mode))
  }

  // ---------------------------------------------------------------------
  // The card

  class AudioDelay {
    /** The sample store; static storage, so it starts zeroed. */
    const delayBuffer: array<int>
    var writeIndex: int

    var smoothedDelay: int
    var lastRawControl: int
    var ledCounter: int

    var currentMode: Mode
    var lastSwitchDown: bool

    var hpfState: int
    var saturationAccum: int

    var lastTapTime: int
    var tapInterval: int
    var tapTempoActive: bool
    var lastPulse1: bool
    var sampleCounter: int

    /** The tap-tempo fields as one value. */
    function Tap(): TapState
      reads this`lastTapTime, this`tapInterval, this`tapTempoActive, this`lastPulse1, this`sampleCounter
    {
      TapState(lastTapTime, tapInterval, tapTempoActive, lastPulse1, sampleCounter)
    }

    /** The control fields as one value. */
    function Controls(): ControlState
      reads this`currentMode, this`lastSwitchDown
      reads this`lastTapTime, this`tapInterval, this`tapTempoActive, this`lastPulse1, this`sampleCounter
      reads this`lastRawControl, this`smoothedDelay
    {
      ControlState(currentMode, lastSwitchDown, Tap(), lastRawControl, smoothedDelay)
    }

    /** The bounds of the data-path fields: the cursor and every stored
        sample in range, and the blink counter and the filter states
        within the bounds their updates keep, so that no `int32_t`
        intermediate overflows. */
    ghost predicate StoreValid()
      reads this`writeIndex, this`ledCounter, this`hpfState, this`saturationAccum, delayBuffer
    {
      && delayBuffer.Length == BufferSize
      && 0 <= writeIndex < BufferSize
      && InClipRange(delayBuffer[..])
      && 0 <= ledCounter < MaxDelay / 2
      && -4096 <= hpfState <= 4096
      && 0 <= saturationAccum <= 600
    }

    /** The card's invariant. */
    ghost predicate Valid()
      reads this, delayBuffer
    {
      Controls().Valid() && StoreValid()
    }

    constructor (switchPos: Switch)
      ensures Valid() && fresh(delayBuffer)
      ensures forall i :: 0 <= i < BufferSize ==> delayBuffer[i] == 0
      ensures writeIndex == 0 && smoothedDelay == 0 && lastRawControl == 0 && ledCounter == 0
      ensures currentMode == Clean && lastSwitchDown == (switchPos == Down)
      ensures hpfState == 0 && saturationAccum == 0
      ensures Tap() == TapState(0, 24000, false, false, 0)
    {
      delayBuffer := new int[BufferSize](_ => 0);
      writeIndex, smoothedDelay, lastRawControl, ledCounter := 0, 0, 0, 0;
      currentMode, lastSwitchDown := Clean, switchPos == Down;
      hpfState, saturationAccum := 0, 0;
      lastTapTime, tapInterval, tapTempoActive, lastPulse1, sampleCounter := 0, 24000, false, false, 0;
    }

    /** `highpass`: updates the filter state and returns the input minus it. */
    method Highpass(input: int) returns (output: int)
      modifies this`hpfState
      ensures Filtered(hpfState, output) == HighpassStep(old(hpfState), input)
    {
      hpfState := hpfState + ((input - hpfState) * 200 + 32768) / 65536;
      output := input - hpfState;
    }

    /** `warmSaturate`: updates the energy accumulator and returns the
        driven soft-knee output. */
    method WarmSaturate(input: int) returns (output: int)
      modifies this`saturationAccum
      ensures Saturated(saturationAccum, output) == SaturateStep(old(saturationAccum), input)
    {
      var absInput := if input < 0 then -input else input;
      saturationAccum := (252 * saturationAccum + 128) / 256 + (absInput + 128) / 256;
      var drive := 3000 + (saturationAccum + 4) / 8;
      var driven := (input * drive + 1024) / 2048;
      output := SoftKneeCurve(driven);
    }

    /** Mode cycling on the rising edge of switch Down. */
    method CycleMode(switchDown: bool)
      modifies this`currentMode, this`lastSwitchDown
      ensures currentMode == ModeAfter(old(currentMode), old(lastSwitchDown), switchDown)
      ensures lastSwitchDown == switchDown
    {
      if switchDown && !lastSwitchDown {
        currentMode := currentMode.Next();
      }
      lastSwitchDown := switchDown;
    }

    /** Tap tempo on pulse 1, its timeout and the sample counter. */
    method TapTempo(pulse1: bool)
      requires Tap().Valid()
      modifies this`lastTapTime, this`tapInterval, this`tapTempoActive, this`lastPulse1, this`sampleCounter
      ensures Tap() == TapStep(old(Tap()), pulse1)
    {
      if pulse1 && !lastPulse1 {
        var timeSinceLastTap := Wrap32(sampleCounter - lastTapTime);
        if TapMinInterval <= timeSinceLastTap <= TapMaxInterval {
          tapInterval := timeSinceLastTap;
          tapTempoActive := true;
        }
        lastTapTime := sampleCounter;
      }
      lastPulse1 := pulse1;
      if tapTempoActive && Wrap32(sampleCounter - lastTapTime) > TapTimeout {
        tapTempoActive := false;
      }
      sampleCounter := Wrap32(sampleCounter + 1);
    }

    /** Knob plus CV through the hysteresis stage (none in LOFI); returns
        the control value used this call. */
    method ConditionControl(delayKnob: int, cv1: int) returns (combinedControl: int)
      modifies this`lastRawControl
      ensures lastRawControl == HeldControl(currentMode, CombineControl(delayKnob, cv1), old(lastRawControl))
      ensures combinedControl == lastRawControl
    {
      combinedControl := CombineControl(delayKnob, cv1);
      if currentMode != LoFi {
        var controlDelta := combinedControl - lastRawControl;
        if controlDelta < 0 {
          controlDelta := -controlDelta;
        }
        if controlDelta >= HysteresisThreshold {
          lastRawControl := combinedControl;
        } else {
          combinedControl := lastRawControl;
        }
      } else {
        lastRawControl := combinedControl;
      }
    }

    /** LED 0: counts calls and blinks at the given rate. */
    method BlinkLed(blinkRate: int) returns (led: Option<bool>)
      requires 100 <= blinkRate
      modifies this`ledCounter
      ensures Blink(ledCounter, led) == BlinkStep(old(ledCounter), blinkRate)
    {
      ledCounter := ledCounter + 1;
      led := None;
      if ledCounter >= blinkRate {
        ledCounter := 0;
        led := Some(true);
      } else if ledCounter >= blinkRate / 2 {
        led := Some(false);
      }
    }

    /** The control half of a call: mode cycling, tap tempo, the
        conditioned delay control and its smoothing. */
    method UpdateControls(switchPos: Switch, knobX: int, cv1: int, pulse1: bool)
      requires Controls().Valid()
      modifies this`currentMode, this`lastSwitchDown
      modifies this`lastTapTime, this`tapInterval, this`tapTempoActive, this`lastPulse1, this`sampleCounter
      modifies this`lastRawControl, this`smoothedDelay
      ensures Controls() == ControlStep(old(Controls()), switchPos == Down, knobX, cv1, pulse1)
    {
      CycleMode(switchPos == Down);
      TapTempo(pulse1);
      var combinedControl := ConditionControl(knobX, cv1);
      var targetDelay := TargetDelay(tapTempoActive, tapInterval, combinedControl);
      smoothedDelay := Smooth(smoothedDelay, targetDelay * 128);
    }

    /** The feedback half of a call: the crossfaded feedback, the mode's
        shaping, DC blocking and the store write (suppressed by freeze);
        the cursor always advances. */
    method WriteFeedback(audioIn: int, wetLeft: int, feedback: int, pulse2: bool)
      requires delayBuffer.Length == BufferSize && 0 <= writeIndex < BufferSize
      requires 0 <= feedback <= 4095
      modifies this`saturationAccum, this`hpfState, this`writeIndex, delayBuffer
      ensures writeIndex == (old(writeIndex) + 1) % BufferSize
      ensures var r := FeedbackStep(currentMode, old(saturationAccum), old(hpfState), audioIn, wetLeft, feedback);
              && saturationAccum == r.accum
              && hpfState == r.hpfState
              && delayBuffer[..] == Store(old(delayBuffer[..]), old(writeIndex), pulse2, r.written)
    {
      var inputGain := InputGain(feedback);
      var feedbackGain := FeedbackGain(feedback);
      var feedbackSignal := Scale12(wetLeft, feedbackGain);
      if currentMode == Saturation {
        feedbackSignal := WarmSaturate(feedbackSignal);
      }
      var mixedSignal := Scale12(audioIn, inputGain) + feedbackSignal;
      var filteredSignal := Highpass(mixedSignal);
      filteredSignal := Clip(filteredSignal);
      if !pulse2 {
        delayBuffer[writeIndex] := filteredSignal;
      }
      writeIndex := (writeIndex + 1) % BufferSize;
    }

    /** The data path of a call, after the controls: both taps, the
        feedback write, the cursor, the blink LED and the outputs. */
    method RunDataPath(audioIn: int, feedback: int, knobMain: int, pulse2: bool) returns (out: DelayOutput)
      requires StoreValid() && 0 <= smoothedDelay
      requires -2048 <= audioIn <= 2047 && 0 <= feedback <= 4095
      modifies this`saturationAccum, this`hpfState, this`writeIndex, this`ledCounter, delayBuffer
      ensures StoreValid()
      ensures Pass(delayBuffer[..], writeIndex, saturationAccum, hpfState, ledCounter, out) ==
              DataPath(old(delayBuffer[..]), old(writeIndex), currentMode, smoothedDelay,
                       old(saturationAccum), old(hpfState), old(ledCounter),
                       audioIn, feedback, knobMain, pulse2)
    {
      var left := LeftDelay(currentMode, smoothedDelay);
      var right := RightDelay(currentMode, left);
      // the two interpolated taps; the left one feeds back
      var wetLeft := TapSample(delayBuffer[..], writeIndex, left);
      var wetRight := TapSample(delayBuffer[..], writeIndex, right);
      WriteFeedback(audioIn, wetLeft, feedback, pulse2);
      var blinkLed := BlinkLed(BlinkRate(left / 128));
      out := Outputs(audioIn, wetLeft, wetRight, knobMain, blinkLed, feedback, currentMode);
    }

    /** One audio sample. The hardware reads are the parameters: the two
        audio inputs, the switch, the X, Y and Main knobs, CV 1 and 2 and
        pulse inputs 1 (tap) and 2 (freeze). */
    method ProcessSample(audioIn1: int, audioIn2: int, switchPos: Switch,
                         knobX: int, knobY: int, knobMain: int, cv1: int, cv2: int,
                         pulse1: bool, pulse2: bool) returns (out: DelayOutput)
      requires Valid()
      requires -2048 <= audioIn1 <= 2047 && -2048 <= audioIn2 <= 2047
      requires 0 <= knobX <= 4095 && 0 <= knobY <= 4095 && 0 <= knobMain <= 4095
      requires -2048 <= cv1 <= 2047 && -2048 <= cv2 <= 2047
      modifies this, delayBuffer
      ensures Valid()
      ensures Controls() == ControlStep(old(Controls()), switchPos == Down, knobX, cv1, pulse1)
      // the store and its cursor, the feedback path, the outputs and the indicators
      ensures Pass(delayBuffer[..], writeIndex, saturationAccum, hpfState, ledCounter, out) ==
              DataPath(old(delayBuffer[..]), old(writeIndex), currentMode, smoothedDelay,
                       old(saturationAccum), old(hpfState), old(ledCounter),
                       MixInputs(audioIn1, audioIn2), CombineControl(knobY, cv2), knobMain, pulse2)
    {
      var audioIn := MixInputs(audioIn1, audioIn2);
      ghost var buffer, w := delayBuffer[..], writeIndex;
      ghost var accum, hpf, counter := saturationAccum, hpfState, ledCounter;
      UpdateControls(switchPos, knobX, cv1, pulse1);
      assert delayBuffer[..] == buffer && writeIndex == w;
      assert saturationAccum == accum && hpfState == hpf && ledCounter == counter;
      out := RunDataPath(audioIn, CombineControl(knobY, cv2), knobMain, pulse2);
    }
  }
}
