/** The resonating-strings card (resonating-strings/main.cpp): the earlier,
    integer-delay version of the resonator. Four Karplus-Strong strings
    tuned to a chord over a linear pitch map, seven chord modes, a noise
    pluck on pulse 1 and one mono output sent to both audio outputs. */
module ResonatingStrings {
  import opened Fixed
  import opened KarplusStrong

  // ---------------------------------------------------------------------
  // Chord modes

  datatype ChordMode = Harmonic | Fifth | Major7 | Minor7 | Dim | Sus4 | Add9
  {
    /** The enum value of the mode in the firmware. */
    function Index(): nat
    {
      match this
      case Harmonic => 0
      case Fifth => 1
      case Major7 => 2
      case Minor7 => 3
      case Dim => 4
      case Sus4 => 5
      case Add9 => 6
    }

    /** `(currentMode + 1) % NUM_MODES` with seven modes. */
    function Next(): (m: ChordMode)
      ensures m.Index() == (Index() + 1) % 7
    {
      match this
      case Harmonic => Fifth
      case Fifth => Major7
      case Major7 => Minor7
      case Minor7 => Dim
      case Dim => Sus4
      case Sus4 => Add9
      case Add9 => Harmonic
    }
  }

  /** The mode after one call: it advances only on a rising edge of the
      switch's Down position. */
  function ModeAfter(mode: ChordMode, lastDown: bool, down: bool): (m: ChordMode)
    ensures down && !lastDown ==> m.Index() == (mode.Index() + 1) % 7
    ensures !(down && !lastDown) ==> m == mode
  {
    if down && !lastDown then mode.Next() else mode
  }

  /** The mode after `n` presses. */
  function Advance(mode: ChordMode, n: nat): ChordMode
  {
    if n == 0 then mode else Advance(mode, n - 1).Next()
  }

  /** `n` presses move the mode index by `n` modulo 7. */
  lemma {:induction false} AdvanceIndex(mode: ChordMode, n: nat)
    ensures Advance(mode, n).Index() == (mode.Index() + n) % 7
  {
    if n > 0 {
      AdvanceIndex(mode, n - 1);
    }
  }

  /** Seven presses return to the starting mode. */
  lemma AdvanceSeven(mode: ChordMode)
    ensures Advance(mode, 7) == mode
  {
    AdvanceIndex(mode, 7);
  }

  /** `getFrequencyRatios`: the `num:den` of each of the four strings. */
  function FrequencyRatios(mode: ChordMode): (r: Quad<Ratio>)
    ensures r.s1 == Ratio(1, 1)
    ensures forall k :: 0 <= k < 4 ==> AtOrAbove(r.At(k))
    ensures forall k :: 0 <= k < 4 ==> r.At(k).num <= 4 * r.At(k).den
  {
    match mode
    case Harmonic => Quad(Ratio(1, 1), Ratio(2, 1), Ratio(3, 1), Ratio(4, 1))
    case Fifth => Quad(Ratio(1, 1), Ratio(3, 2), Ratio(2, 1), Ratio(3, 1))
    case Major7 => Quad(Ratio(1, 1), Ratio(5, 4), Ratio(3, 2), Ratio(15, 8))
    case Minor7 => Quad(Ratio(1, 1), Ratio(6, 5), Ratio(3, 2), Ratio(9, 5))
    case Dim => Quad(Ratio(1, 1), Ratio(6, 5), Ratio(36, 25), Ratio(3, 2))
    case Sus4 => Quad(Ratio(1, 1), Ratio(4, 3), Ratio(3, 2), Ratio(2, 1))
    case Add9 => Quad(Ratio(1, 1), Ratio(5, 4), Ratio(3, 2), Ratio(9, 4))
  }

  /** The six mode LEDs: one LED per mode for the first six, LEDs 0 and 5
      together for ADD9. */
  function ModeLeds(mode: ChordMode): (leds: seq<bool>)
    ensures |leds| == 6
    ensures ModeFromLeds(leds) == Some(mode)
  {
    var leds := [mode == Harmonic || mode == Add9,
                 mode == Fifth,
                 mode == Major7,
                 mode == Minor7,
                 mode == Dim,
                 mode == Sus4 || mode == Add9];
    assert ModeFromLeds(leds) == Some(mode) by {
      var on := set k | 0 <= k < 6 && leds[k];
      assert mode == Harmonic ==> on == {0};
      assert mode == Fifth ==> on == {1};
      assert mode == Major7 ==> on == {2};
      assert mode == Minor7 ==> on == {3};
      assert mode == Dim ==> on == {4};
      assert mode == Sus4 ==> on == {5};
      assert mode == Add9 ==> on == {0, 5};
    }
    leds
  }

  /** Reading the mode back off the LEDs. */
  function ModeFromLeds(leds: seq<bool>): (m: Option<ChordMode>)
    requires |leds| == 6
  {
    var on := set k | 0 <= k < 6 && leds[k];
    if on == {0} then Some(Harmonic)
    else if on == {1} then Some(Fifth)
    else if on == {2} then Some(Major7)
    else if on == {3} then Some(Minor7)
    else if on == {4} then Some(Dim)
    else if on == {5} then Some(Sus4)
    else if on == {0, 5} then Some(Add9)
    else None
  }

  /** The seven LED patterns are pairwise distinct. */
  lemma LedsDistinct(m1: ChordMode, m2: ChordMode)
    requires ModeLeds(m1) == ModeLeds(m2)
    ensures m1 == m2
  {
  }

  // ---------------------------------------------------------------------
  // Pitch and tuning

  /** `baseDelay = MAX_DELAY - combinedFreq * (MAX_DELAY - MIN_DELAY) / 4095`:
      the linear map from 960 samples (50 Hz) down to 60 (800 Hz). */
  function BaseDelay(combinedFreq: int): (r: int)
    ensures 0 <= combinedFreq <= 4095 ==> 60 <= r <= 960
    ensures combinedFreq == 0 ==> r == 960
    ensures combinedFreq == 4095 ==> r == 60
  {
    960 - (combinedFreq * 900) / 4095
  }

  /** A higher frequency control never gives a longer base delay. */
  lemma BaseDelayMonotonic(c: int, c': int)
    requires c <= c'
    ensures BaseDelay(c') <= BaseDelay(c)
  {
    assert c * 900 <= c' * 900;
  }

  /** `(baseDelay * den) / num` clamped to [10, MAX_DELAY_SIZE - 1]. */
  function StringLength(baseDelay: int, ratio: Ratio): (length: int)
    requires AtOrAbove(ratio)
    ensures 10 <= length <= LineSize - 1
    ensures 10 <= baseDelay < LineSize && ratio == Ratio(1, 1) ==> length == baseDelay
  {
    Clamp((baseDelay * ratio.den) / ratio.num, 10, LineSize - 1)
  }

  /** For every base delay the pitch map produces and every chord ratio
      (at most 4:1) the clamp is inactive: the length is exactly
      `baseDelay * den / num`, and never longer than the base delay. */
  lemma LengthUnclamped(baseDelay: int, ratio: Ratio)
    requires 60 <= baseDelay <= 960
    requires AtOrAbove(ratio) && ratio.num <= 4 * ratio.den
    ensures StringLength(baseDelay, ratio) == (baseDelay * ratio.den) / ratio.num
    ensures StringLength(baseDelay, ratio) <= baseDelay
  {
    var scaled := baseDelay * ratio.den;
    MulBetween(baseDelay, ratio.den, ratio.num);
    MulBetween(ratio.den, 60, baseDelay);
    assert 15 * ratio.num <= scaled <= baseDelay * ratio.num;
    QuotientBetween(scaled, ratio.num, 15, baseDelay);
  }

  /** A value between `lo * n` and `hi * n` divides by `n` to a quotient
      between `lo` and `hi`. */
  lemma QuotientBetween(x: int, n: int, lo: int, hi: int)
    requires 1 <= n && lo * n <= x <= hi * n
    ensures lo <= x / n <= hi
  {
    var q := x / n;
    assert x == q * n + x % n;
    if q < lo {
      MulBetween(n, q + 1, lo);
      assert false;
    }
    if q > hi {
      MulBetween(n, hi + 1, q);
      assert false;
    }
  }

  /** The four strings' delay lengths for a base delay and a chord. */
  function Lengths(baseDelay: int, mode: ChordMode): (lengths: Quad<int>)
    ensures forall k :: 0 <= k < 4 ==> 10 <= lengths.At(k) < LineSize
    ensures 10 <= baseDelay < LineSize ==> lengths.s1 == baseDelay
  {
    var ratios := FrequencyRatios(mode);
    assert AtOrAbove(ratios.At(1)) && AtOrAbove(ratios.At(2)) && AtOrAbove(ratios.At(3));
    Quad(StringLength(baseDelay, ratios.s1), StringLength(baseDelay, ratios.s2),
         StringLength(baseDelay, ratios.s3), StringLength(baseDelay, ratios.s4))
  }

  /** With the pitch map's base delays every string is tuned at or above the
      fundamental, whose length is the base delay. */
  lemma StringsWithinFundamental(baseDelay: int, mode: ChordMode, k: int)
    requires 60 <= baseDelay <= 960 && 0 <= k < 4
    ensures Lengths(baseDelay, mode).At(k) <= Lengths(baseDelay, mode).s1 == baseDelay
  {
    var ratios := FrequencyRatios(mode);
    assert AtOrAbove(ratios.At(k)) && ratios.At(k).num <= 4 * ratios.At(k).den;
    LengthUnclamped(baseDelay, ratios.At(k));
  }

  /** `dampingCoeff`: knob Y plus CV 2 clamped to [0, 4095], mapped to
      32000 + c * 33300 / 4095; unlike the resonator there is no cap. */
  function DampingCoefficient(knobY: int, cv2: int): (r: int)
    ensures 32000 <= r <= 65300
    ensures Clamp(knobY + cv2, 0, 4095) == 0 ==> r == 32000
    ensures Clamp(knobY + cv2, 0, 4095) == 4095 ==> r == 65300
  {
    32000 + (Clamp(knobY + cv2, 0, 4095) * 33300) / 4095
  }

  /** The input level detector: `((env * 255) >> 8) + (|audioIn| >> 3)`.
      Its value is kept but never used, and it stays within [0, 65536]. */
  function EnvelopeStep(envelope: int, audioIn: int): (r: int)
    ensures 0 <= envelope <= 65536 && -2048 <= audioIn <= 2048 ==> 0 <= r <= 65536
  {
    var absInput := if audioIn < 0 then -audioIn else audioIn;
    (envelope * 255) / 256 + absInput / 8
  }

  // ---------------------------------------------------------------------
  // One string, integer reads

  /** `processString` on values: read the slot `delayLength` behind the
      cursor, then feed the string. */
  function StringStep(s: StringState, delayLength: int, excitation: int, coeff: int): (r: Processed)
    requires |s.line| == LineSize && 0 <= s.writeIndex < LineSize
    requires 0 <= delayLength <= LineSize
    ensures r.delayed == s.line[(s.writeIndex - delayLength) % LineSize]
    ensures r.next == Feed(s, r.delayed, excitation, coeff)
    ensures s.Valid() && 0 <= coeff <= 65536 ==> -2047 <= r.delayed <= 2047 && r.next.Valid()
  {
    var delayed := s.line[WrapBack(s.writeIndex - delayLength)];
    Processed(delayed, Feed(s, delayed, excitation, coeff))
  }

  /** `processString`: reads one slot, writes one slot, advances the
      cursor and updates the two filter states of the string in place.
      The unused `brightness` argument is not modelled. */
  method ProcessString(s: KarplusString, delayLength: int, excitation: int, dampingCoeff: int)
    returns (delayedSample: int)
    requires s.line.Length == LineSize && 0 <= s.writeIndex < LineSize
    requires 0 <= delayLength <= LineSize
    modifies s, s.line
    ensures Processed(delayedSample, s.State()) ==
              StringStep(old(s.State()), delayLength, excitation, dampingCoeff)
  {
    ghost var before := s.State();
    ghost var after := StringStep(before, delayLength, excitation, dampingCoeff);
    var readIndex := s.writeIndex - delayLength;
    if readIndex < 0 {
      readIndex := readIndex + LineSize;
    }
    delayedSample := s.line[readIndex];
    assert delayedSample == after.delayed;
    s.filterState := DampingStep(s.filterState, delayedSample, dampingCoeff);
    var dampedSample := s.filterState;
    s.dcState := s.dcState + (dampedSample - s.dcState) / 256;
    assert s.filterState == after.next.filterState && s.dcState == after.next.dcState;
    dampedSample := dampedSample - s.dcState;
    var newSample := dampedSample + excitation;
    if newSample > 2047 {
      newSample := 2047;
    }
    if newSample < -2047 {
      newSample := -2047;
    }
    assert newSample == after.next.line[before.writeIndex];
    s.line[s.writeIndex] := newSample;
    assert s.line[..] == before.line[before.writeIndex := newSample];
    s.writeIndex := (s.writeIndex + 1) % LineSize;
  }

  /** The four strings run once, each with its own length and excitation
      and the shared damping coefficient. */
  function StepAll(s: Quad<StringState>, lengths: Quad<int>, e: Quad<int>, coeff: int): (p: Quad<Processed>)
    requires s.s1.Valid() && s.s2.Valid() && s.s3.Valid() && s.s4.Valid()
    requires forall k :: 0 <= k < 4 ==> 0 <= lengths.At(k) <= LineSize
    requires 0 <= coeff <= 65536
    ensures p.s1.next.Valid() && p.s2.next.Valid() && p.s3.next.Valid() && p.s4.next.Valid()
  {
    assert 0 <= lengths.At(0) <= LineSize && 0 <= lengths.At(1) <= LineSize;
    assert 0 <= lengths.At(2) <= LineSize && 0 <= lengths.At(3) <= LineSize;
    Quad(StringStep(s.s1, lengths.s1, e.s1, coeff),
         StringStep(s.s2, lengths.s2, e.s2, coeff),
         StringStep(s.s3, lengths.s3, e.s3, coeff),
         StringStep(s.s4, lengths.s4, e.s4, coeff))
  }

  // ---------------------------------------------------------------------
  // Mixing

  /** Four samples within the clip range. */
  predicate InClipRange(outs: Quad<int>)
  {
    && -2047 <= outs.s1 <= 2047 && -2047 <= outs.s2 <= 2047
    && -2047 <= outs.s3 <= 2047 && -2047 <= outs.s4 <= 2047
  }

  /** `(out1 + out2 + out3 + out4) / 4`, a C++ division that truncates
      toward zero: the mean of the four strings stays in the clip range, and
      four equal strings give that string's sample. */
  function StringMix(outs: Quad<int>): (r: int)
    ensures InClipRange(outs) ==> -2047 <= r <= 2047
    ensures outs.s1 == outs.s2 == outs.s3 == outs.s4 ==> r == outs.s1
  {
    TruncDiv(outs.s1 + outs.s2 + outs.s3 + outs.s4, 4)
  }

  /** What one call sends to the outputs. */
  datatype StringsOutput = StringsOutput(left: int, right: int, leds: seq<bool>)

  /** The output stage: the string mix crossfaded against the dry input by
      the Main knob and clipped, the same sample on both outputs; the LEDs
      show the chord mode. */
  function Outputs(audioIn: int, outs: Quad<int>, knobMain: int, mode: ChordMode): (o: StringsOutput)
    ensures -2047 <= o.left <= 2047 && o.right == o.left
    ensures o.left == Clip(Crossmix(audioIn, StringMix(outs), knobMain))
    ensures |o.leds| == 6 && ModeFromLeds(o.leds) == Some(mode)
  {
    var output := Clip(Crossmix(audioIn, StringMix(outs), knobMain));
    StringsOutput(output, output, ModeLeds(mode))
  }

  /** With the mix knob at 0 the output is the clipped input; at 4095 it is
      the string mix. */
  lemma OutputsAtKnobEnds(audioIn: int, outs: Quad<int>, mode: ChordMode)
    requires -2048 <= audioIn <= 2047
    requires InClipRange(outs)
    ensures Outputs(audioIn, outs, 0, mode).left == Clip(audioIn)
    ensures Outputs(audioIn, outs, 4095, mode).left == StringMix(outs)
  {
    CrossmixAllDry(audioIn, StringMix(outs));
    CrossmixAllWet(audioIn, StringMix(outs));
  }

  // ---------------------------------------------------------------------
  // initializeString

  /** The noise `initializeString` writes at slot `i`: the low 15 bits of
      `i * 1103515245 + 12345`, centred and shifted right by 3. The low bits
      are the same whether the `int` product wraps or not. */
  function InitNoise(i: int): (r: int)
    ensures -2048 <= r <= 2047
  {
    ((i * 1103515245 + 12345) % 32768 - 16384) / 8
  }

  /** `initializeString`: fills the first `min(length, MAX_DELAY_SIZE)`
      slots with noise and leaves every other slot as it was. */
  method InitializeString(line: array<int>, length: int)
    requires line.Length == LineSize
    modifies line
    ensures forall i :: 0 <= i < LineSize && i < length ==> line[i] == InitNoise(i)
    ensures forall i :: 0 <= i < LineSize && length <= i ==> line[i] == old(line[i])
  {
    var i := 0;
    while i < length && i < LineSize
      invariant 0 <= i <= LineSize
      invariant i <= length || i == 0
      invariant forall j :: 0 <= j < i ==> line[j] == InitNoise(j)
      invariant forall j :: i <= j < LineSize ==> line[j] == old(line[j])
    {
      line[i] := InitNoise(i);
      i := i + 1;
    }
  }

  // ---------------------------------------------------------------------
  // The card

  class ResonatingStrings {
    const string1: KarplusString
    const string2: KarplusString
    const string3: KarplusString
    const string4: KarplusString

    var delayLength1: int
    var delayLength2: int
    var delayLength3: int
    var delayLength4: int

    var currentMode: ChordMode
    var lastSwitchDown: bool

    /** Computed every call, never read. */
    var envelopeFollower: int

    var pulseExciteEnvelope: int
    var noiseState: int

    /** The four strings are separate objects with separate lines, each in
        its valid range; the delay lengths are clamped; the envelopes and
        the generator state are in range. */
    ghost predicate Valid()
      reads this, string1, string2, string3, string4
      reads string1.line, string2.line, string3.line, string4.line
    {
      && Separate()
      && StringsValid()
      && 10 <= delayLength1 < LineSize && 10 <= delayLength2 < LineSize
      && 10 <= delayLength3 < LineSize && 10 <= delayLength4 < LineSize
      && 0 <= envelopeFollower <= 65536
      && 0 <= pulseExciteEnvelope <= 2048
      && 0 <= noiseState < U32
    }

    /** No two strings share an object or a line. */
    ghost predicate Separate()
      reads this
    {
      && string1 != string2 && string1 != string3 && string1 != string4
      && string2 != string3 && string2 != string4 && string3 != string4
      && string1.line != string2.line && string1.line != string3.line && string1.line != string4.line
      && string2.line != string3.line && string2.line != string4.line && string3.line != string4.line
    }

    /** Every string keeps its cursor, samples and filter states in range. */
    ghost predicate StringsValid()
      reads string1, string2, string3, string4
      reads string1.line, string2.line, string3.line, string4.line
    {
      && string1.State().Valid() && string2.State().Valid()
      && string3.State().Valid() && string4.State().Valid()
    }

    /** The four strings' states. */
    function Strings(): Quad<StringState>
      reads string1, string2, string3, string4
      reads string1.line, string2.line, string3.line, string4.line
    {
      Quad(string1.State(), string2.State(), string3.State(), string4.State())
    }

    /** The initial state: silent lines, lengths 100/150/200/400, mode
        FIFTH, switch taken as down, generator seed 12345. */
    constructor ()
      ensures Valid()
      ensures fresh(string1) && fresh(string2) && fresh(string3) && fresh(string4)
      ensures fresh(string1.line) && fresh(string2.line) && fresh(string3.line) && fresh(string4.line)
      ensures forall i :: 0 <= i < LineSize ==>
                string1.line[i] == 0 && string2.line[i] == 0 && string3.line[i] == 0 && string4.line[i] == 0
      ensures string1.writeIndex == 0 && string1.filterState == 0 && string1.dcState == 0
      ensures string2.writeIndex == 0 && string2.filterState == 0 && string2.dcState == 0
      ensures string3.writeIndex == 0 && string3.filterState == 0 && string3.dcState == 0
      ensures string4.writeIndex == 0 && string4.filterState == 0 && string4.dcState == 0
      ensures delayLength1 == 100 && delayLength2 == 150 && delayLength3 == 200 && delayLength4 == 400
      ensures currentMode == Fifth && lastSwitchDown
      ensures envelopeFollower == 0 && pulseExciteEnvelope == 0 && noiseState == 12345
    {
      string1 := new KarplusString();
      string2 := new KarplusString();
      string3 := new KarplusString();
      string4 := new KarplusString();
      delayLength1, delayLength2, delayLength3, delayLength4 := 100, 150, 200, 400;
      currentMode, lastSwitchDown := Fifth, true;
      envelopeFollower, pulseExciteEnvelope, noiseState := 0, 0, 12345;
      new;
      ClearLines(string1.line, string2.line, string3.line, string4.line);
    }

    /** Mode cycling on the rising edge of switch Down. */
    method CycleMode(switchDown: bool)
      modifies this`currentMode, this`lastSwitchDown
      ensures currentMode == ModeAfter(old(currentMode), old(lastSwitchDown), switchDown)
      ensures lastSwitchDown == switchDown
    {
      if switchDown && !lastSwitchDown {
        currentMode := currentMode.Next();
      }
      lastSwitchDown := switchDown;
    }

    /** The four delay lengths for the base delay and the current chord. */
    method TuneStrings(baseDelay: int) returns (lengths: Quad<int>)
      modifies this`delayLength1, this`delayLength2, this`delayLength3, this`delayLength4
      ensures lengths == Lengths(baseDelay, currentMode)
      ensures delayLength1 == lengths.s1 && delayLength2 == lengths.s2
      ensures delayLength3 == lengths.s3 && delayLength4 == lengths.s4
    {
      lengths := Lengths(baseDelay, currentMode);
      delayLength1, delayLength2, delayLength3, delayLength4 := lengths.s1, lengths.s2, lengths.s3, lengths.s4;
    }

    /** The pluck burst: restart on a rising edge, then one noise sample
        scaled by the envelope and one decay step while it is above 10. */
    method Pluck(risingEdge: bool) returns (scaledNoise: int)
      requires 0 <= pulseExciteEnvelope <= 2048 && 0 <= noiseState < U32
      modifies this`pulseExciteEnvelope, this`noiseState
      ensures KarplusStrong.Pluck(pulseExciteEnvelope, noiseState, scaledNoise) ==
                PluckStep(old(pulseExciteEnvelope), old(noiseState), risingEdge)
    {
      if risingEdge {
        pulseExciteEnvelope := 2048;
      }
      scaledNoise := 0;
      if pulseExciteEnvelope > 10 {
        noiseState := Wrap32(noiseState * 1103515245 + 12345);
        var noise := (noiseState / 65536) % 4096 - 2048;
        scaledNoise := (noise * pulseExciteEnvelope) / 2048;
        pulseExciteEnvelope := (pulseExciteEnvelope * 250) / 256;
      }
    }

    /** Runs the four strings with their lengths and excitations. */
    method RunStrings(lengths: Quad<int>, excitation: Quad<int>, dampingCoeff: int)
      returns (outs: Quad<int>)
      requires Separate() && StringsValid()
      requires forall k :: 0 <= k < 4 ==> 10 <= lengths.At(k) < LineSize
      requires 32000 <= dampingCoeff <= 65300
      modifies string1, string2, string3, string4
      modifies string1.line, string2.line, string3.line, string4.line
      ensures StringsValid()
      ensures var p := StepAll(old(Strings()), lengths, excitation, dampingCoeff);
                && outs == Quad(p.s1.delayed, p.s2.delayed, p.s3.delayed, p.s4.delayed)
                && Strings() == Quad(p.s1.next, p.s2.next, p.s3.next, p.s4.next)
    {
      ghost var before1, before2, before3, before4 := string1.State(), string2.State(), string3.State(), string4.State();
      ghost var p := StepAll(Strings(), lengths, excitation, dampingCoeff);
      assert 10 <= lengths.At(0) < LineSize && 10 <= lengths.At(1) < LineSize;
      assert 10 <= lengths.At(2) < LineSize && 10 <= lengths.At(3) < LineSize;
      var out1 := ProcessString(string1, lengths.s1, excitation.s1, dampingCoeff);
      ghost var after1 := string1.State();
      assert Processed(out1, after1) == p.s1;
      assert after1.Valid();
      assert string2.State() == before2 && string3.State() == before3 && string4.State() == before4;
      var out2 := ProcessString(string2, lengths.s2, excitation.s2, dampingCoeff);
      ghost var after2 := string2.State();
      assert Processed(out2, after2) == p.s2;
      assert after2.Valid();
      assert string1.State() == after1 && string3.State() == before3 && string4.State() == before4;
      var out3 := ProcessString(string3, lengths.s3, excitation.s3, dampingCoeff);
      ghost var after3 := string3.State();
      assert Processed(out3, after3) == p.s3;
      assert after3.Valid();
      assert string1.State() == after1 && string2.State() == after2 && string4.State() == before4;
      var out4 := ProcessString(string4, lengths.s4, excitation.s4, dampingCoeff);
      assert Processed(out4, string4.State()) == p.s4;
      assert string4.State().Valid();
      assert string1.State() == after1 && string2.State() == after2 && string3.State() == after3;
      outs := Quad(out1, out2, out3, out4);
    }

    /** The control stage: mode cycling, pitch, chord lengths, damping, the
        level detector and the pluck burst. */
    method Controls(switchDown: bool, knobX: int, knobY: int, cv1: int, cv2: int, audioIn: int,
                    pulse1Rising: bool)
      returns (lengths: Quad<int>, dampingCoeff: int, scaledNoise: int)
      requires 0 <= pulseExciteEnvelope <= 2048 && 0 <= noiseState < U32
      modifies this`currentMode, this`lastSwitchDown
      modifies this`delayLength1, this`delayLength2, this`delayLength3, this`delayLength4
      modifies this`envelopeFollower, this`pulseExciteEnvelope, this`noiseState
      ensures currentMode == ModeAfter(old(currentMode), old(lastSwitchDown), switchDown)
      ensures lastSwitchDown == switchDown
      ensures lengths == Lengths(BaseDelay(CombineControl(knobX, cv1)), currentMode)
      ensures delayLength1 == lengths.s1 && delayLength2 == lengths.s2
      ensures delayLength3 == lengths.s3 && delayLength4 == lengths.s4
      ensures dampingCoeff == DampingCoefficient(knobY, cv2)
      ensures envelopeFollower == EnvelopeStep(old(envelopeFollower), audioIn)
      ensures KarplusStrong.Pluck(pulseExciteEnvelope, noiseState, scaledNoise) ==
                PluckStep(old(pulseExciteEnvelope), old(noiseState), pulse1Rising)
    {
      CycleMode(switchDown);
      var combinedFreq := CombineControl(knobX, cv1);
      var baseDelay := BaseDelay(combinedFreq);
      lengths := TuneStrings(baseDelay);
      dampingCoeff := DampingCoefficient(knobY, cv2);
      envelopeFollower := EnvelopeStep(envelopeFollower, audioIn);
      scaledNoise := Pluck(pulse1Rising);
    }

    /** One audio sample. The hardware reads are the parameters: the two
        audio inputs, the switch, the X, Y and Main knobs, CV 1 and 2 and
        the rising edge of pulse input 1. */
    method ProcessSample(audioIn1: int, audioIn2: int, switchPos: Switch,
                         knobX: int, knobY: int, knobMain: int, cv1: int, cv2: int,
                         pulse1Rising: bool) returns (out: StringsOutput)
      requires Valid()
      requires -2048 <= audioIn1 <= 2047 && -2048 <= audioIn2 <= 2047
      requires 0 <= knobX <= 4095 && 0 <= knobY <= 4095 && 0 <= knobMain <= 4095
      requires -2048 <= cv1 <= 2047 && -2048 <= cv2 <= 2047
      modifies this, string1, string2, string3, string4
      modifies string1.line, string2.line, string3.line, string4.line
      ensures currentMode == ModeAfter(old(currentMode), old(lastSwitchDown), switchPos == Down)
      ensures lastSwitchDown == (switchPos == Down)
      ensures
        var audioIn := MixInputs(audioIn1, audioIn2);
        var lengths := Lengths(BaseDelay(CombineControl(knobX, cv1)), currentMode);
        var coeff := DampingCoefficient(knobY, cv2);
        var pluck := PluckStep(old(pulseExciteEnvelope), old(noiseState), pulse1Rising);
        var e := Excitations(audioIn, pluck.scaledNoise);
        var p := StepAll(old(Strings()), lengths, e, coeff);
        && delayLength1 == lengths.s1 && delayLength2 == lengths.s2
        && delayLength3 == lengths.s3 && delayLength4 == lengths.s4
        && envelopeFollower == EnvelopeStep(old(envelopeFollower), audioIn)
        && pulseExciteEnvelope == pluck.envelope && noiseState == pluck.noiseState
        && Strings() == Quad(p.s1.next, p.s2.next, p.s3.next, p.s4.next)
        && out == Outputs(audioIn, Quad(p.s1.delayed, p.s2.delayed, p.s3.delayed, p.s4.delayed),
                          knobMain, currentMode)
      ensures Valid()
    {
      var audioIn := MixInputs(audioIn1, audioIn2);

      ghost var before := Strings();
      var lengths, dampingCoeff, scaledNoise :=
        Controls(switchPos == Down, knobX, knobY, cv1, cv2, audioIn, pulse1Rising);
      assert Strings() == before;
      ghost var pluck := PluckStep(old(pulseExciteEnvelope), old(noiseState), pulse1Rising);
      assert scaledNoise == pluck.scaledNoise;

      // excitation: the input plus the pluck burst
      var excitation := Excitations(audioIn, scaledNoise);

      var outs := RunStrings(lengths, excitation, dampingCoeff);

      out := Outputs(audioIn, outs, knobMain, currentMode);
    }
  }
}
