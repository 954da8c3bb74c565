/** The resonator card (`ResonatingStrings` in resonator/main.cpp): four
    Karplus-Strong strings tuned by a 1V/oct exponential lookup table, with
    chord ratios in 8-bit fractional delays, interpolated reads, a noise
    pluck on pulse 1, nine chord modes and a mid/side stereo mix. */
module Resonator {
  import opened Fixed
  import opened KarplusStrong

  // ---------------------------------------------------------------------
  // The exponential delay table

  /** Entry `k` of a row of ten table entries. */
  function RowEntry(k: int, a0: int, a1: int, a2: int, a3: int, a4: int,
                    a5: int, a6: int, a7: int, a8: int, a9: int): int
  {
    if k == 0 then a0 else if k == 1 then a1 else if k == 2 then a2
    else if k == 3 then a3 else if k == 4 then a4 else if k == 5 then a5
    else if k == 6 then a6 else if k == 7 then a7 else if k == 8 then a8 else a9
  }

  /** `delay_vals[i]`: one octave of delays (scaled by 64) in 341 steps.
      Each line is one row of ten entries of the firmware's table; the
      last entry, index 340, is 47072. */
  function DelayVal(i: int): (r: int)
    requires 0 <= i < 341
    ensures i == 0 ==> r == 93952
    ensures i == 340 ==> r == 47072
  {
    if i < 10 then RowEntry(i - 0, 93952, 93761, 93571, 93381, 93191, 93002, 92813, 92625, 92437, 92249)
    else if i < 20 then RowEntry(i - 10, 92062, 91875, 91688, 91502, 91316, 91131, 90946, 90761, 90577, 90393)
    else if i < 30 then RowEntry(i - 20, 90209, 90026, 89843, 89661, 89479, 89297, 89116, 88935, 88754, 88574)
    else if i < 40 then RowEntry(i - 30, 88394, 88214, 88035, 87857, 87678, 87500, 87322, 87145, 86968, 86792)
    else if i < 50 then RowEntry(i - 40, 86615, 86439, 86264, 86089, 85914, 85739, 85565, 85392, 85218, 85045)
    else if i < 60 then RowEntry(i - 50, 84872, 84700, 84528, 84356, 84185, 84014, 83844, 83673, 83503, 83334)
    else if i < 70 then RowEntry(i - 60, 83165, 82996, 82827, 82659, 82491, 82324, 82157, 81990, 81823, 81657)
    else if i < 80 then RowEntry(i - 70, 81491, 81326, 81161, 80996, 80831, 80667, 80503, 80340, 80177, 80014)
    else if i < 90 then RowEntry(i - 80, 79852, 79689, 79528, 79366, 79205, 79044, 78884, 78723, 78564, 78404)
    else if i < 100 then RowEntry(i - 90, 78245, 78086, 77927, 77769, 77611, 77454, 77296, 77139, 76983, 76826)
    else if i < 110 then RowEntry(i - 100, 76670, 76515, 76359, 76204, 76049, 75895, 75741, 75587, 75434, 75280)
    else if i < 120 then RowEntry(i - 110, 75128, 74975, 74823, 74671, 74519, 74368, 74217, 74066, 73916, 73766)
    else if i < 130 then RowEntry(i - 120, 73616, 73466, 73317, 73168, 73020, 72872, 72724, 72576, 72428, 72281)
    else if i < 140 then RowEntry(i - 130, 72135, 71988, 71842, 71696, 71551, 71405, 71260, 71116, 70971, 70827)
    else if i < 150 then RowEntry(i - 140, 70683, 70540, 70396, 70253, 70111, 69968, 69826, 69685, 69543, 69402)
    else if i < 160 then RowEntry(i - 150, 69261, 69120, 68980, 68840, 68700, 68561, 68421, 68282, 68144, 68005)
    else if i < 170 then RowEntry(i - 160, 67867, 67729, 67592, 67455, 67318, 67181, 67045, 66908, 66773, 66637)
    else if i < 180 then RowEntry(i - 170, 66502, 66367, 66232, 66097, 65963, 65829, 65696, 65562, 65429, 65296)
    else if i < 190 then RowEntry(i - 180, 65164, 65031, 64899, 64767, 64636, 64505, 64374, 64243, 64112, 63982)
    else if i < 200 then RowEntry(i - 190, 63852, 63723, 63593, 63464, 63335, 63207, 63078, 62950, 62822, 62695)
    else if i < 210 then RowEntry(i - 200, 62568, 62440, 62314, 62187, 62061, 61935, 61809, 61684, 61558, 61433)
    else if i < 220 then RowEntry(i - 210, 61309, 61184, 61060, 60936, 60812, 60689, 60565, 60442, 60320, 60197)
    else if i < 230 then RowEntry(i - 220, 60075, 59953, 59831, 59710, 59588, 59467, 59347, 59226, 59106, 58986)
    else if i < 240 then RowEntry(i - 230, 58866, 58747, 58627, 58508, 58389, 58271, 58153, 58034, 57917, 57799)
    else if i < 250 then RowEntry(i - 240, 57682, 57564, 57448, 57331, 57215, 57098, 56982, 56867, 56751, 56636)
    else if i < 260 then RowEntry(i - 250, 56521, 56406, 56292, 56177, 56063, 55949, 55836, 55722, 55609, 55496)
    else if i < 270 then RowEntry(i - 260, 55384, 55271, 55159, 55047, 54935, 54824, 54712, 54601, 54490, 54380)
    else if i < 280 then RowEntry(i - 270, 54269, 54159, 54049, 53939, 53830, 53720, 53611, 53503, 53394, 53285)
    else if i < 290 then RowEntry(i - 280, 53177, 53069, 52962, 52854, 52747, 52640, 52533, 52426, 52320, 52213)
    else if i < 300 then RowEntry(i - 290, 52107, 52001, 51896, 51790, 51685, 51580, 51476, 51371, 51267, 51163)
    else if i < 310 then RowEntry(i - 300, 51059, 50955, 50852, 50748, 50645, 50542, 50440, 50337, 50235, 50133)
    else if i < 320 then RowEntry(i - 310, 50031, 49930, 49828, 49727, 49626, 49525, 49425, 49325, 49224, 49124)
    else if i < 330 then RowEntry(i - 320, 49025, 48925, 48826, 48727, 48628, 48529, 48430, 48332, 48234, 48136)
    else if i < 340 then RowEntry(i - 330, 48038, 47941, 47843, 47746, 47649, 47552, 47456, 47360, 47263, 47167)
    else 47072
  }

  /** Every entry of the table is larger than the next. */
  lemma TableStep(i: int)
    requires 0 <= i < 340
    ensures DelayVal(i + 1) < DelayVal(i)
  {
    if i < 170 {
      TableStepLow(i);
    } else {
      TableStepHigh(i);
    }
  }

  /** `TableStep` in the first half of the table. */
  lemma TableStepLow(i: int)
    requires 0 <= i < 170
    ensures DelayVal(i + 1) < DelayVal(i)
  {
  }

  /** `TableStep` in the second half of the table. */
  lemma TableStepHigh(i: int)
    requires 170 <= i < 340
    ensures DelayVal(i + 1) < DelayVal(i)
  {
  }

  /** The table falls between any two positions. */
  lemma {:induction false} TableOrdered(i: int, j: int)
    requires 0 <= i <= j < 341
    ensures DelayVal(j) <= DelayVal(i)
    decreases j - i
  {
    if i < j {
      TableStep(i);
      TableOrdered(i + 1, j);
    }
  }

  /** The table runs from 93952 down to 47072, so every entry lies in
      (46976, 93952]: the table spans less than one halving. */
  lemma TableBounds(i: int)
    requires 0 <= i < 341
    ensures 47072 <= DelayVal(i) <= 93952
  {
    TableOrdered(0, i);
    TableOrdered(i, 340);
  }

  /** `x >> k` on an unsigned value, one halving at a time. */
  function ShiftRight(x: int, k: nat): (r: int)
    ensures 0 <= x ==> 0 <= r <= x
    decreases k
  {
    if k == 0 then x else ShiftRight(x / 2, k - 1)
  }

  /** Shifting preserves order. */
  lemma {:induction false} ShiftMonotonic(x: int, y: int, k: nat)
    requires x <= y
    ensures ShiftRight(x, k) <= ShiftRight(y, k)
    decreases k
  {
    if k > 0 {
      ShiftMonotonic(x / 2, y / 2, k - 1);
    }
  }

  /** Halving before or after the shift is the same. */
  lemma {:induction false} ShiftHalf(x: int, k: nat)
    ensures ShiftRight(x / 2, k) == ShiftRight(x, k) / 2
    decreases k
  {
    if k > 0 {
      ShiftHalf(x / 2, k - 1);
    }
  }

  /** Doubling undoes one step of the shift. */
  lemma ShiftDouble(x: int, k: nat)
    requires 1 <= k
    ensures ShiftRight(2 * x, k) == ShiftRight(x, k - 1)
  {
    assert 2 * x / 2 == x;
  }

  /** Shifting a non-negative value further never makes it larger. */
  lemma {:induction false} ShiftFurther(x: int, j: nat, k: nat)
    requires 0 <= x && j <= k
    ensures ShiftRight(x, k) <= ShiftRight(x, j)
    decreases k
  {
    if j < k {
      ShiftMonotonic(x / 2, x, k - 1);
      ShiftFurther(x, j, k - 1);
    }
  }

  /** `ExpDelay`: the input clamped to [0, 4091] splits into an octave
      (`in / 341`, at most 11) and a table index (`in % 341`, at most 340);
      the delay is the table entry shifted right by the octave. */
  function ExpDelay(input: int): (r: int)
    ensures 22 <= r <= 93952
  {
    var x := Clamp(input, 0, 4091);
    var oct := x / 341;
    var suboct := x % 341;
    TableBounds(suboct);
    ShiftMonotonic(47072, DelayVal(suboct), oct);
    ShiftFurther(47072, oct, 11);
    assert ShiftRight(47072, 11) == 22;
    ShiftRight(DelayVal(suboct), oct)
  }

  /** At or below 0 the input reads the first entry unshifted: the
      longest delay, 93952. */
  lemma ExpDelayLowest(input: int)
    requires input <= 0
    ensures ExpDelay(input) == 93952
  {
    assert Clamp(input, 0, 4091) == 0;
    assert DelayVal(0) == 93952;
  }

  /** At or above 4091 the input is clamped to 4091 = 11 * 341 + 340: the
      last entry shifted by 11, the shortest delay, 22. */
  lemma ExpDelayHighest(input: int)
    requires 4091 <= input
    ensures ExpDelay(input) == 22
  {
    assert Clamp(input, 0, 4091) == 4091 && 4091 / 341 == 11 && 4091 % 341 == 340;
    assert DelayVal(340) == 47072;
    assert ShiftRight(47072, 11) == 22;
  }

  /** One octave is 341 counts: 341 counts up halves the delay. */
  lemma ExpDelayOctave(input: int)
    requires 0 <= input && input + 341 <= 4091
    ensures ExpDelay(input + 341) == ExpDelay(input) / 2
  {
    var oct := input / 341;
    var suboct := input % 341;
    assert (input + 341) / 341 == oct + 1 && (input + 341) % 341 == suboct;
    TableBounds(suboct);
    ShiftHalf(DelayVal(suboct), oct);
  }

  /** Higher input, shorter delay: `ExpDelay` is non-increasing. Within an
      octave the table falls; across octaves the larger shift wins because
      the table spans less than a factor of two. */
  lemma ExpDelayMonotonic(a: int, b: int)
    requires a <= b
    ensures ExpDelay(b) <= ExpDelay(a)
  {
    var x, y := Clamp(a, 0, 4091), Clamp(b, 0, 4091);
    var sa, sb := x % 341, y % 341;
    TableBounds(sa);
    TableBounds(sb);
    if x / 341 == y / 341 {
      TableOrdered(sa, sb);
    }
    ShiftedEntriesOrdered(DelayVal(sa), DelayVal(sb), x / 341, y / 341);
  }

  /** Two table entries shifted by their octaves: the later octave, or the
      same octave and the later entry, gives the shorter delay. The table
      spans less than a factor of two, so one more octave outweighs any
      entry. */
  lemma ShiftedEntriesOrdered(da: int, db: int, oa: nat, ob: nat)
    requires 47072 <= da <= 93952 && 47072 <= db <= 93952
    requires oa <= ob && (oa == ob ==> db <= da)
    ensures ShiftRight(db, ob) <= ShiftRight(da, oa)
  {
    if oa == ob {
      ShiftMonotonic(db, da, oa);
    } else {
      ShiftMonotonic(db, 2 * da, ob);
      ShiftDouble(da, ob);
      ShiftFurther(da, oa, ob - 1);
    }
  }

  // ---------------------------------------------------------------------
  // Chord modes

  datatype ChordMode = Harmonic | Fifth | Major7 | Minor7 | Dim | Sus4 | Add9 | TanpuraPa | TanpuraMa
  {
    /** The enum value of the mode in the firmware. */
    function Index(): nat
    {
      match this
      case Harmonic => 0
      case Fifth => 1
      case Major7 => 2
      case Minor7 => 3
      case Dim => 4
      case Sus4 => 5
      case Add9 => 6
      case TanpuraPa => 7
      case TanpuraMa => 8
    }

    /** `(currentMode + 1) % NUM_MODES` with nine modes. */
    function Next(): (m: ChordMode)
      ensures m.Index() == (Index() + 1) % 9
    {
      match this
      case Harmonic => Fifth
      case Fifth => Major7
      case Major7 => Minor7
      case Minor7 => Dim
      case Dim => Sus4
      case Sus4 => Add9
      case Add9 => TanpuraPa
      case TanpuraPa => TanpuraMa
      case TanpuraMa => Harmonic
    }
  }

  /** The mode after one call: it advances only on a rising edge of the
      switch's Down position. */
  function ModeAfter(mode: ChordMode, lastDown: bool, down: bool): (m: ChordMode)
    ensures down && !lastDown ==> m.Index() == (mode.Index() + 1) % 9
    ensures !(down && !lastDown) ==> m == mode
  {
    if down && !lastDown then mode.Next() else mode
  }

  /** The mode after `n` presses. */
  function Advance(mode: ChordMode, n: nat): ChordMode
  {
    if n == 0 then mode else Advance(mode, n - 1).Next()
  }

  /** `n` presses move the mode index by `n` modulo 9, so nine presses
      return to the starting mode. */
  lemma {:induction false} AdvanceIndex(mode: ChordMode, n: nat)
    ensures Advance(mode, n).Index() == (mode.Index() + n) % 9
  {
    if n > 0 {
      AdvanceIndex(mode, n - 1);
    }
  }

  /** Nine presses return to the starting mode. */
  lemma AdvanceNine(mode: ChordMode)
    ensures Advance(mode, 9) == mode
  {
    AdvanceIndex(mode, 9);
  }

  /** `getFrequencyRatios`: the `num:den` of each of the four strings. */
  function FrequencyRatios(mode: ChordMode): (r: Quad<Ratio>)
    ensures r.s1 == Ratio(1, 1)
    ensures forall k :: 0 <= k < 4 ==> AtOrAbove(r.At(k))
  {
    match mode
    case Harmonic => Quad(Ratio(1, 1), Ratio(2, 1), Ratio(3, 1), Ratio(4, 1))
    case Fifth => Quad(Ratio(1, 1), Ratio(3, 2), Ratio(2, 1), Ratio(3, 1))
    case Major7 => Quad(Ratio(1, 1), Ratio(5, 4), Ratio(3, 2), Ratio(15, 8))
    case Minor7 => Quad(Ratio(1, 1), Ratio(6, 5), Ratio(3, 2), Ratio(9, 5))
    case Dim => Quad(Ratio(1, 1), Ratio(6, 5), Ratio(36, 25), Ratio(3, 2))
    case Sus4 => Quad(Ratio(1, 1), Ratio(4, 3), Ratio(3, 2), Ratio(2, 1))
    case Add9 => Quad(Ratio(1, 1), Ratio(5, 4), Ratio(3, 2), Ratio(9, 4))
    case TanpuraPa => Quad(Ratio(1, 1), Ratio(3, 2), Ratio(2, 1), Ratio(4, 1))
    case TanpuraMa => Quad(Ratio(1, 1), Ratio(4, 3), Ratio(2, 1), Ratio(4, 1))
  }

  /** The six mode LEDs: the first six modes light one LED each, the last
      three light a pair (0+5, 1+4, 2+3). */
  function ModeLeds(mode: ChordMode): (leds: seq<bool>)
    ensures |leds| == 6
    ensures ModeFromLeds(leds) == Some(mode)
  {
    var leds := [mode == Harmonic || mode == Add9,
                 mode == Fifth || mode == TanpuraPa,
                 mode == Major7 || mode == TanpuraMa,
                 mode == Minor7 || mode == TanpuraMa,
                 mode == Dim || mode == TanpuraPa,
                 mode == Sus4 || mode == Add9];
    assert ModeFromLeds(leds) == Some(mode) by {
      var on := set k | 0 <= k < 6 && leds[k];
      assert mode == Harmonic ==> on == {0};
      assert mode == Fifth ==> on == {1};
      assert mode == Major7 ==> on == {2};
      assert mode == Minor7 ==> on == {3};
      assert mode == Dim ==> on == {4};
      assert mode == Sus4 ==> on == {5};
      assert mode == Add9 ==> on == {0, 5};
      assert mode == TanpuraPa ==> on == {1, 4};
      assert mode == TanpuraMa ==> on == {2, 3};
    }
    leds
  }

  /** Reading the mode back off the LEDs. */
  function ModeFromLeds(leds: seq<bool>): (m: Option<ChordMode>)
    requires |leds| == 6
  {
    var on := set k | 0 <= k < 6 && leds[k];
    if on == {0} then Some(Harmonic)
    else if on == {1} then Some(Fifth)
    else if on == {2} then Some(Major7)
    else if on == {3} then Some(Minor7)
    else if on == {4} then Some(Dim)
    else if on == {5} then Some(Sus4)
    else if on == {0, 5} then Some(Add9)
    else if on == {1, 4} then Some(TanpuraPa)
    else if on == {2, 3} then Some(TanpuraMa)
    else None
  }

  /** Each of the nine modes lights a different pattern. */
  lemma LedsDistinct(m1: ChordMode, m2: ChordMode)
    requires ModeLeds(m1) == ModeLeds(m2)
    ensures m1 == m2
  {
  }

  // ---------------------------------------------------------------------
  // Pitch and tuning

  /** The fine tune with CV 1 patched: `((knob - 2048) * 341) / 2048`, a C++
      division that truncates toward zero, so at most one octave either
      way and symmetric about the centre. */
  function FineTune(knobX: int): (r: int)
    requires 0 <= knobX <= 4095
    ensures -341 <= r <= 340
    ensures knobX == 2048 ==> r == 0
    ensures knobX < 2048 ==> r <= 0
    ensures 2048 <= knobX ==> 0 <= r
  {
    TruncDiv((knobX - 2048) * 341, 2048)
  }

  /** Truncation makes the fine tune odd about the knob centre. */
  lemma FineTuneOdd(d: int)
    requires 0 <= d <= 2047
    ensures FineTune(2048 - d) == -FineTune(2048 + d)
  {
    assert (2048 - d - 2048) * 341 == -((2048 + d - 2048) * 341);
  }

  /** The pitch control: the X knob alone over the upper half
      (`2048 + knob / 2`) when CV 1 is unpatched, otherwise CV 1 around the
      centre plus the fine tune; clamped to [0, 4095]. */
  function PitchCv(cv1Disconnected: bool, knobX: int, cv1: int): (r: int)
    requires 0 <= knobX <= 4095
    ensures 0 <= r <= 4095
    ensures cv1Disconnected ==> r == 2048 + knobX / 2
    ensures !cv1Disconnected ==> r == Clamp(2048 + cv1 + FineTune(knobX), 0, 4095)
  {
    var pitchCV := if cv1Disconnected then 2048 + knobX / 2 else 2048 + cv1 + FineTune(knobX);
    Clamp(pitchCV, 0, 4095)
  }

  /** `baseDelay`: the table delay clamped to [15, 1468] samples. */
  function BaseDelay(pitchCV: int): (r: int)
    ensures 15 <= r <= 1468
  {
    Clamp(ExpDelay(pitchCV), 15, 1468)
  }

  /** Raising CV 1 never lengthens the string: the pitch map is monotonic
      and the delay map antitonic. */
  lemma HigherCvShorterDelay(knobX: int, cv: int, cv': int)
    requires 0 <= knobX <= 4095 && cv <= cv'
    ensures BaseDelay(PitchCv(false, knobX, cv')) <= BaseDelay(PitchCv(false, knobX, cv))
  {
    ExpDelayMonotonic(PitchCv(false, knobX, cv), PitchCv(false, knobX, cv'));
  }

  /** `((baseDelay * den) << 8) / num`: the string's delay with 8
      fractional bits. A ratio at or above unison never lengthens it. */
  function DelayFull(baseDelay: int, ratio: Ratio): (full: int)
    requires AtOrAbove(ratio)
    ensures 0 <= baseDelay ==> 0 <= full <= baseDelay * 256
    ensures ratio == Ratio(1, 1) ==> full == baseDelay * 256
  {
    ScaleDown(baseDelay, ratio.den, ratio.num);
    baseDelay * ratio.den * 256 / ratio.num
  }

  /** Scaling by `den / num <= 1` never grows a non-negative delay. */
  lemma ScaleDown(b: int, den: int, num: int)
    ensures 0 <= b && 1 <= den <= num ==> 0 <= b * den * 256 / num <= b * 256
  {
    if 0 <= b && 1 <= den <= num {
      var scaled := b * den * 256;
      MulBetween(b * 256, den, num);
      assert 0 <= scaled <= (b * 256) * num;
    }
  }

  /** A string's integer delay and its 8-bit fraction. */
  datatype Tuning = Tuning(length: int, frac: int)

  /** `delayFull >> 8` clamped to [10, 1919], and `delayFull & 0xFF`. */
  function Tune(baseDelay: int, ratio: Ratio): (t: Tuning)
    requires AtOrAbove(ratio)
    ensures 10 <= t.length <= LineSize - 1
    ensures 0 <= t.frac < 256
    ensures 0 <= baseDelay && 10 <= DelayFull(baseDelay, ratio) / 256 <= LineSize - 1 ==>
              t.length * 256 + t.frac == DelayFull(baseDelay, ratio)
  {
    var full := DelayFull(baseDelay, ratio);
    Tuning(Clamp(full / 256, 10, LineSize - 1), full % 256)
  }

  /** A tuning the strings can play: an integer delay in [10, 1919] and
      an 8-bit fraction. */
  predicate Playable(t: Tuning)
  {
    10 <= t.length < LineSize && 0 <= t.frac < 256
  }

  /** The four strings' tunings for a base delay and a chord. */
  function Tunings(baseDelay: int, mode: ChordMode): (t: Quad<Tuning>)
    ensures Playable(t.s1) && Playable(t.s2) && Playable(t.s3) && Playable(t.s4)
  {
    var ratios := FrequencyRatios(mode);
    assert AtOrAbove(ratios.At(1)) && AtOrAbove(ratios.At(2)) && AtOrAbove(ratios.At(3));
    Quad(Tune(baseDelay, ratios.s1), Tune(baseDelay, ratios.s2),
         Tune(baseDelay, ratios.s3), Tune(baseDelay, ratios.s4))
  }

  /** No string is tuned longer than the fundamental, whose length is the
      base delay itself, untouched by the upper clamp. */
  lemma StringsWithinFundamental(baseDelay: int, mode: ChordMode, k: int)
    requires 15 <= baseDelay <= 1468 && 0 <= k < 4
    ensures var ratios := FrequencyRatios(mode);
            && DelayFull(baseDelay, ratios.At(k)) <= DelayFull(baseDelay, ratios.s1)
            && Tune(baseDelay, ratios.s1) == Tuning(baseDelay, 0)
            && Tune(baseDelay, ratios.At(k)).length <= baseDelay
  {
    var ratios := FrequencyRatios(mode);
    var full := DelayFull(baseDelay, ratios.At(k));
    assert full / 256 <= baseDelay;
  }

  /** The damping coefficient: knob Y plus CV 2 clamped to [0, 4095],
      mapped to 32000 + c * 33300 / 4095 and capped at 57000. */
  function DampingCoefficient(knobY: int, cv2: int): (r: int)
    ensures 32000 <= r <= 57000
    ensures Clamp(knobY + cv2, 0, 4095) <= 3074 ==> r == 32000 + Clamp(knobY + cv2, 0, 4095) * 33300 / 4095
    ensures Clamp(knobY + cv2, 0, 4095) >= 3075 ==> r == 57000
  {
    var dampingKnob := Clamp(knobY + cv2, 0, 4095);
    assert dampingKnob <= 3074 ==> dampingKnob * 33300 <= 3074 * 33300;
    assert dampingKnob >= 3075 ==> dampingKnob * 33300 >= 3075 * 33300;
    var dampingCoeff := 32000 + (dampingKnob * 33300) / 4095;
    if dampingCoeff > 57000 then 57000 else dampingCoeff
  }

  // ---------------------------------------------------------------------
  // One string with interpolated reads

  /** `((s1 * (256 - frac)) + (s2 * frac)) >> 8`. */
  function Interp256(s1: int, s2: int, frac: int): (r: int)
    ensures frac == 0 ==> r == s1
    ensures 0 <= frac <= 256 && s1 <= s2 ==> s1 <= r <= s2
    ensures 0 <= frac <= 256 && s2 <= s1 ==> s2 <= r <= s1
  {
    assert s1 * (256 - frac) + s2 * frac == s1 * 256 + (s2 - s1) * frac;
    MulBetween(s2 - s1, frac, 256);
    (s1 * (256 - frac) + s2 * frac) / 256
  }

  /** `processString` on values: read the slots `delayLength` and
      `delayLength + 1` behind the cursor, interpolate, then feed the
      string. */
  function StringStep(s: StringState, delayLength: int, frac: int, excitation: int, coeff: int): (r: Processed)
    requires |s.line| == LineSize && 0 <= s.writeIndex < LineSize
    requires 0 <= delayLength <= LineSize
    ensures r.delayed == Interp256(s.line[(s.writeIndex - delayLength) % LineSize],
                                   s.line[(s.writeIndex - delayLength - 1) % LineSize], frac)
    ensures r.next == Feed(s, r.delayed, excitation, coeff)
    ensures s.Valid() && 0 <= frac <= 256 && 0 <= coeff <= 65536 ==>
              -2047 <= r.delayed <= 2047 && r.next.Valid()
  {
    var readIndex1 := WrapBack(s.writeIndex - delayLength);
    var readIndex2 := WrapBack(readIndex1 - 1);
    assert readIndex2 == (s.writeIndex - delayLength - 1) % LineSize;
    var delayed := Interp256(s.line[readIndex1], s.line[readIndex2], frac);
    Processed(delayed, Feed(s, delayed, excitation, coeff))
  }

  /** `processString`: reads two slots, writes one slot, advances the
      cursor and updates the two filter states of the string in place. */
  method ProcessString(s: KarplusString, delayLength: int, excitation: int, dampingCoeff: int, frac: int)
    returns (delayedSample: int)
    requires s.line.Length == LineSize && 0 <= s.writeIndex < LineSize
    requires 0 <= delayLength <= LineSize
    modifies s, s.line
    ensures Processed(delayedSample, s.State()) ==
              StringStep(old(s.State()), delayLength, frac, excitation, dampingCoeff)
  {
    ghost var before := s.State();
    ghost var after := StringStep(before, delayLength, frac, excitation, dampingCoeff);
    var readIndex1 := s.writeIndex - delayLength;
    if readIndex1 < 0 {
      readIndex1 := readIndex1 + LineSize;
    }
    var readIndex2 := readIndex1 - 1;
    if readIndex2 < 0 {
      readIndex2 := readIndex2 + LineSize;
    }
    var sample1 := s.line[readIndex1];
    var sample2 := s.line[readIndex2];
    delayedSample := (sample1 * (256 - frac) + sample2 * frac) / 256;
    assert delayedSample == after.delayed;
    s.filterState := DampingStep(s.filterState, delayedSample, dampingCoeff);
    var dampedSample := s.filterState;
    s.dcState := s.dcState + (dampedSample - s.dcState) / 256;
    assert s.filterState == after.next.filterState && s.dcState == after.next.dcState;
    dampedSample := dampedSample - s.dcState;
    var newSample := dampedSample + excitation;
    if newSample > 2047 {
      newSample := 2047;
    }
    if newSample < -2047 {
      newSample := -2047;
    }
    assert newSample == after.next.line[before.writeIndex];
    s.line[s.writeIndex] := newSample;
    assert s.line[..] == before.line[before.writeIndex := newSample];
    s.writeIndex := (s.writeIndex + 1) % LineSize;
  }

  /** The four strings run once, each with its own tuning and excitation
      and the shared damping coefficient. */
  function StepAll(s: Quad<StringState>, t: Quad<Tuning>, e: Quad<int>, coeff: int): (p: Quad<Processed>)
    requires s.s1.Valid() && s.s2.Valid() && s.s3.Valid() && s.s4.Valid()
    requires Playable(t.s1) && Playable(t.s2) && Playable(t.s3) && Playable(t.s4)
    requires 0 <= coeff <= 65536
    ensures p.s1.next.Valid() && p.s2.next.Valid() && p.s3.next.Valid() && p.s4.next.Valid()
  {
    Quad(StringStep(s.s1, t.s1.length, t.s1.frac, e.s1, coeff),
         StringStep(s.s2, t.s2.length, t.s2.frac, e.s2, coeff),
         StringStep(s.s3, t.s3.length, t.s3.frac, e.s3, coeff),
         StringStep(s.s4, t.s4.length, t.s4.frac, e.s4, coeff))
  }

  // ---------------------------------------------------------------------
  // Mixing

  /** The two resonator buses. */
  datatype Buses = Buses(mid: int, side: int)

  /** Mid/side: in tuning mode (switch Up) both buses carry the fundamental
      alone; otherwise mid sums all four strings and side flips strings 2
      and 4, so mid plus side doubles strings 1 and 3 and mid minus side
      doubles strings 2 and 4. */
  function MidSide(tuning: bool, outs: Quad<int>): (b: Buses)
    ensures tuning ==> b.mid == outs.s1 && b.side == outs.s1
    ensures !tuning ==> b.mid + b.side == 2 * (outs.s1 + outs.s3)
    ensures !tuning ==> b.mid - b.side == 2 * (outs.s2 + outs.s4)
  {
    if tuning then Buses(outs.s1, outs.s1)
    else Buses(outs.s1 + outs.s2 + outs.s3 + outs.s4, outs.s1 - outs.s2 + outs.s3 - outs.s4)
  }

  /** Both buses at the two ends of the Main knob: the dry input at 0 and,
      in tuning mode, string 1 at 4095. */
  lemma KnobEnds(audioIn: int, buses: Buses, s1: int)
    ensures -2048 <= audioIn <= 2047 ==>
              Clip(Crossmix(audioIn, buses.mid, 0)) == Clip(audioIn) &&
              Clip(Crossmix(audioIn, buses.side, 0)) == Clip(audioIn)
    ensures buses == Buses(s1, s1) && -2048 <= s1 <= 2047 ==>
              Clip(Crossmix(audioIn, buses.mid, 4095)) == Clip(s1) &&
              Clip(Crossmix(audioIn, buses.side, 4095)) == Clip(s1)
  {
    if -2048 <= audioIn <= 2047 {
      CrossmixAllDry(audioIn, buses.mid);
      CrossmixAllDry(audioIn, buses.side);
    }
    if -2048 <= s1 <= 2047 {
      CrossmixAllWet(audioIn, s1);
    }
  }

  /** What one call sends to the outputs. */
  datatype ResonatorOutput = ResonatorOutput(left: int, right: int, leds: seq<bool>)

  /** The output stage: each bus crossfaded against the dry input by the
      Main knob and clipped; the LEDs show the chord mode. In tuning mode
      both outputs carry the same sample. */
  function Outputs(audioIn: int, outs: Quad<int>, tuning: bool, knobMain: int, mode: ChordMode)
    : (o: ResonatorOutput)
    ensures -2047 <= o.left <= 2047 && -2047 <= o.right <= 2047
    ensures tuning ==> o.left == o.right
    ensures -2048 <= audioIn <= 2047 && knobMain == 0 ==>
              o.left == Clip(audioIn) && o.right == Clip(audioIn)
    ensures tuning && knobMain == 4095 && -2048 <= outs.s1 <= 2047 ==>
              o.left == Clip(outs.s1) && o.right == Clip(outs.s1)
    ensures |o.leds| == 6 && ModeFromLeds(o.leds) == Some(mode)
  {
    var buses := MidSide(tuning, outs);
    var o := ResonatorOutput(Clip(Crossmix(audioIn, buses.mid, knobMain)),
                             Clip(Crossmix(audioIn, buses.side, knobMain)),
                             ModeLeds(mode));
    KnobEnds(audioIn, buses, outs.s1);
    o
  }

  // ---------------------------------------------------------------------
  // The card

  class ResonatingStrings {
    const string1: KarplusString
    const string2: KarplusString
    const string3: KarplusString
    const string4: KarplusString

    var delayLength1: int
    var delayLength2: int
    var delayLength3: int
    var delayLength4: int

    var currentMode: ChordMode
    var lastSwitchDown: bool

    var pulseExciteEnvelope: int
    var noiseState: int

    /** The four strings are separate objects with separate lines, each in
        its valid range; the delay lengths are clamped; the envelope and
        the generator state are in range. */
    ghost predicate Valid()
      reads this, string1, string2, string3, string4
      reads string1.line, string2.line, string3.line, string4.line
    {
      && Separate()
      && StringsValid()
      && 10 <= delayLength1 < LineSize && 10 <= delayLength2 < LineSize
      && 10 <= delayLength3 < LineSize && 10 <= delayLength4 < LineSize
      && 0 <= pulseExciteEnvelope <= 2048
      && 0 <= noiseState < U32
    }

    /** No two strings share an object or a line. */
    ghost predicate Separate()
      reads this
    {
      && string1 != string2 && string1 != string3 && string1 != string4
      && string2 != string3 && string2 != string4 && string3 != string4
      && string1.line != string2.line && string1.line != string3.line && string1.line != string4.line
      && string2.line != string3.line && string2.line != string4.line && string3.line != string4.line
    }

    /** Every string keeps its cursor, samples and filter states in range. */
    ghost predicate StringsValid()
      reads string1, string2, string3, string4
      reads string1.line, string2.line, string3.line, string4.line
    {
      && string1.State().Valid() && string2.State().Valid()
      && string3.State().Valid() && string4.State().Valid()
    }

    /** The initial state: silent lines, mode FIFTH, switch taken as down,
        generator seed 12345. */
    constructor ()
      ensures Valid()
      ensures fresh(string1) && fresh(string2) && fresh(string3) && fresh(string4)
      ensures fresh(string1.line) && fresh(string2.line) && fresh(string3.line) && fresh(string4.line)
      ensures forall i :: 0 <= i < LineSize ==>
                string1.line[i] == 0 && string2.line[i] == 0 && string3.line[i] == 0 && string4.line[i] == 0
      ensures string1.writeIndex == 0 && string1.filterState == 0 && string1.dcState == 0
      ensures string2.writeIndex == 0 && string2.filterState == 0 && string2.dcState == 0
      ensures string3.writeIndex == 0 && string3.filterState == 0 && string3.dcState == 0
      ensures string4.writeIndex == 0 && string4.filterState == 0 && string4.dcState == 0
      ensures delayLength1 == 100 && delayLength2 == 150 && delayLength3 == 200 && delayLength4 == 400
      ensures currentMode == Fifth && lastSwitchDown
      ensures pulseExciteEnvelope == 0 && noiseState == 12345
    {
      string1 := new KarplusString();
      string2 := new KarplusString();
      string3 := new KarplusString();
      string4 := new KarplusString();
      delayLength1, delayLength2, delayLength3, delayLength4 := 100, 150, 200, 400;
      currentMode, lastSwitchDown := Fifth, true;
      pulseExciteEnvelope, noiseState := 0, 12345;
      new;
      ClearLines(string1.line, string2.line, string3.line, string4.line);
    }

    /** Mode cycling on the rising edge of switch Down. */
    method CycleMode(switchDown: bool)
      modifies this`currentMode, this`lastSwitchDown
      ensures currentMode == ModeAfter(old(currentMode), old(lastSwitchDown), switchDown)
      ensures lastSwitchDown == switchDown
    {
      if switchDown && !lastSwitchDown {
        currentMode := currentMode.Next();
      }
      lastSwitchDown := switchDown;
    }

    /** The four tunings for the base delay and the current chord; the
        integer lengths are stored, the fractions only returned. */
    method TuneStrings(baseDelay: int) returns (t: Quad<Tuning>)
      modifies this`delayLength1, this`delayLength2, this`delayLength3, this`delayLength4
      ensures t == Tunings(baseDelay, currentMode)
      ensures delayLength1 == t.s1.length && delayLength2 == t.s2.length
      ensures delayLength3 == t.s3.length && delayLength4 == t.s4.length
    {
      t := Tunings(baseDelay, currentMode);
      delayLength1, delayLength2, delayLength3, delayLength4 := t.s1.length, t.s2.length, t.s3.length, t.s4.length;
    }

    /** The pluck burst: restart on a rising edge, then one noise sample
        scaled by the envelope and one decay step while it is above 10. */
    method Pluck(risingEdge: bool) returns (scaledNoise: int)
      requires 0 <= pulseExciteEnvelope <= 2048 && 0 <= noiseState < U32
      modifies this`pulseExciteEnvelope, this`noiseState
      ensures KarplusStrong.Pluck(pulseExciteEnvelope, noiseState, scaledNoise) ==
                PluckStep(old(pulseExciteEnvelope), old(noiseState), risingEdge)
    {
      if risingEdge {
        pulseExciteEnvelope := 2048;
      }
      scaledNoise := 0;
      if pulseExciteEnvelope > 10 {
        noiseState := Wrap32(noiseState * 1103515245 + 12345);
        var noise := (noiseState / 65536) % 4096 - 2048;
        scaledNoise := (noise * pulseExciteEnvelope) / 2048;
        pulseExciteEnvelope := (pulseExciteEnvelope * 250) / 256;
      }
    }

    /** The four strings' states. */
    function Strings(): Quad<StringState>
      reads string1, string2, string3, string4
      reads string1.line, string2.line, string3.line, string4.line
    {
      Quad(string1.State(), string2.State(), string3.State(), string4.State())
    }

    /** Runs the four strings with their tunings and excitations. */
    method RunStrings(t: Quad<Tuning>, excitation: Quad<int>, dampingCoeff: int)
      returns (outs: Quad<int>)
      requires Separate() && StringsValid()
      requires Playable(t.s1) && Playable(t.s2) && Playable(t.s3) && Playable(t.s4)
      requires 32000 <= dampingCoeff <= 57000
      modifies string1, string2, string3, string4
      modifies string1.line, string2.line, string3.line, string4.line
      ensures StringsValid()
      ensures var p := StepAll(old(Strings()), t, excitation, dampingCoeff);
                && outs == Quad(p.s1.delayed, p.s2.delayed, p.s3.delayed, p.s4.delayed)
                && Strings() == Quad(p.s1.next, p.s2.next, p.s3.next, p.s4.next)
    {
      ghost var before1, before2, before3, before4 := string1.State(), string2.State(), string3.State(), string4.State();
      ghost var p := StepAll(Strings(), t, excitation, dampingCoeff);
      var out1 := ProcessString(string1, t.s1.length, excitation.s1, dampingCoeff, t.s1.frac);
      ghost var after1 := string1.State();
      assert Processed(out1, after1) == p.s1;
      assert after1.Valid();
      assert string2.State() == before2 && string3.State() == before3 && string4.State() == before4;
      var out2 := ProcessString(string2, t.s2.length, excitation.s2, dampingCoeff, t.s2.frac);
      ghost var after2 := string2.State();
      assert Processed(out2, after2) == p.s2;
      assert after2.Valid();
      assert string1.State() == after1 && string3.State() == before3 && string4.State() == before4;
      var out3 := ProcessString(string3, t.s3.length, excitation.s3, dampingCoeff, t.s3.frac);
      ghost var after3 := string3.State();
      assert Processed(out3, after3) == p.s3;
      assert after3.Valid();
      assert string1.State() == after1 && string2.State() == after2 && string4.State() == before4;
      var out4 := ProcessString(string4, t.s4.length, excitation.s4, dampingCoeff, t.s4.frac);
      assert Processed(out4, string4.State()) == p.s4;
      assert string4.State().Valid();
      assert string1.State() == after1 && string2.State() == after2 && string3.State() == after3;
      outs := Quad(out1, out2, out3, out4);
    }

    /** The control stage: mode cycling, pitch, chord tunings, damping and
        the pluck burst. */
    method Controls(switchDown: bool, knobX: int, knobY: int, cv1: int, cv2: int, cv1Disconnected: bool,
                    pulse1Rising: bool)
      returns (t: Quad<Tuning>, dampingCoeff: int, scaledNoise: int)
      requires 0 <= knobX <= 4095 && -2048 <= cv1 <= 2047
      requires 0 <= pulseExciteEnvelope <= 2048 && 0 <= noiseState < U32
      modifies this`currentMode, this`lastSwitchDown
      modifies this`delayLength1, this`delayLength2, this`delayLength3, this`delayLength4
      modifies this`pulseExciteEnvelope, this`noiseState
      ensures currentMode == ModeAfter(old(currentMode), old(lastSwitchDown), switchDown)
      ensures lastSwitchDown == switchDown
      ensures t == Tunings(BaseDelay(PitchCv(cv1Disconnected, knobX, cv1)), currentMode)
      ensures delayLength1 == t.s1.length && delayLength2 == t.s2.length
      ensures delayLength3 == t.s3.length && delayLength4 == t.s4.length
      ensures dampingCoeff == DampingCoefficient(knobY, cv2)
      ensures KarplusStrong.Pluck(pulseExciteEnvelope, noiseState, scaledNoise) ==
                PluckStep(old(pulseExciteEnvelope), old(noiseState), pulse1Rising)
    {
      CycleMode(switchDown);
      var pitchCV := PitchCv(cv1Disconnected, knobX, cv1);
      var baseDelay := BaseDelay(pitchCV);
      t := TuneStrings(baseDelay);
      dampingCoeff := DampingCoefficient(knobY, cv2);
      scaledNoise := Pluck(pulse1Rising);
    }

    /** One audio sample. The hardware reads are the parameters: the two
        audio inputs, the switch, the X, Y and Main knobs, CV 1 and 2, the
        CV 1 jack-detect and the rising edge of pulse input 1. */
    method ProcessSample(audioIn1: int, audioIn2: int, switchPos: Switch,
                         knobX: int, knobY: int, knobMain: int, cv1: int, cv2: int,
                         cv1Disconnected: bool, pulse1Rising: bool) returns (out: ResonatorOutput)
      requires Valid()
      requires -2048 <= audioIn1 <= 2047 && -2048 <= audioIn2 <= 2047
      requires 0 <= knobX <= 4095 && 0 <= knobY <= 4095 && 0 <= knobMain <= 4095
      requires -2048 <= cv1 <= 2047 && -2048 <= cv2 <= 2047
      modifies this, string1, string2, string3, string4
      modifies string1.line, string2.line, string3.line, string4.line
      ensures currentMode == ModeAfter(old(currentMode), old(lastSwitchDown), switchPos == Down)
      ensures lastSwitchDown == (switchPos == Down)
      ensures
        var audioIn := MixInputs(audioIn1, audioIn2);
        var t := Tunings(BaseDelay(PitchCv(cv1Disconnected, knobX, cv1)), currentMode);
        var coeff := DampingCoefficient(knobY, cv2);
        var pluck := PluckStep(old(pulseExciteEnvelope), old(noiseState), pulse1Rising);
        var e := Excitations(audioIn, pluck.scaledNoise);
        var p := StepAll(old(Strings()), t, e, coeff);
        && delayLength1 == t.s1.length && delayLength2 == t.s2.length
        && delayLength3 == t.s3.length && delayLength4 == t.s4.length
        && pulseExciteEnvelope == pluck.envelope && noiseState == pluck.noiseState
        && Strings() == Quad(p.s1.next, p.s2.next, p.s3.next, p.s4.next)
        && out == Outputs(audioIn, Quad(p.s1.delayed, p.s2.delayed, p.s3.delayed, p.s4.delayed),
                          switchPos == Up, knobMain, currentMode)
      ensures Valid()
    {
      var audioIn := MixInputs(audioIn1, audioIn2);

      // pitch, chord and damping
      ghost var before := Strings();
      var tunings, dampingCoeff, scaledNoise :=
        Controls(switchPos == Down, knobX, knobY, cv1, cv2, cv1Disconnected, pulse1Rising);
      assert Strings() == before;
      ghost var pluck := PluckStep(old(pulseExciteEnvelope), old(noiseState), pulse1Rising);
      assert scaledNoise == pluck.scaledNoise;

      // excitation: the input plus the pluck burst
      var excitation := Excitations(audioIn, scaledNoise);

      var outs := RunStrings(tunings, excitation, dampingCoeff);

      out := Outputs(audioIn, outs, switchPos == Up, knobMain, currentMode);
    }
  }
}
