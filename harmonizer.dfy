/** The harmonizer card (harmonizer/main.cpp, class `SimplePitchShifter`):
    a 1024-slot circular buffer read at a fixed offset behind the write
    cursor, the offset chosen by a three-mode cycle on switch Down, a
    dry/wet mix on the Main knob and an LED refresh every 12000 calls. */
module Harmonizer {
  import opened Fixed

  /** `DELAY_SIZE`. */
  const BufferSize: int := 1024

  /** `ledCounter` resets on reaching this count. */
  const LedPeriod: int := 12000

  // ---------------------------------------------------------------------
  // Modes

  datatype HarmonicMode = Third | Fifth | Octave
  {
    /** The enum value of the mode in the firmware. */
    function Index(): nat
    {
      match this
      case Third => 0
      case Fifth => 1
      case Octave => 2
    }

    /** `(currentMode + 1) % 3`. */
    function Next(): (m: HarmonicMode)
      ensures m.Index() == (Index() + 1) % 3
    {
      match this
      case Third => Fifth
      case Fifth => Octave
      case Octave => Third
    }
  }

  /** The mode after one call: it advances only on a rising edge of the
      switch's Down position. */
  function ModeAfter(mode: HarmonicMode, lastDown: bool, down: bool): (m: HarmonicMode)
    ensures down && !lastDown ==> m.Index() == (mode.Index() + 1) % 3
    ensures !(down && !lastDown) ==> m == mode
  {
    if down && !lastDown then mode.Next() else mode
  }

  /** The mode after `n` presses. */
  function Advance(mode: HarmonicMode, n: nat): HarmonicMode
  {
    if n == 0 then mode else Advance(mode, n - 1).Next()
  }

  /** `n` presses move the mode index by `n` modulo 3. */
  lemma {:induction false} AdvanceIndex(mode: HarmonicMode, n: nat)
    ensures Advance(mode, n).Index() == (mode.Index() + n) % 3
  {
    if n > 0 {
      AdvanceIndex(mode, n - 1);
    }
  }

  /** The read offset of each mode: a shorter delay for a higher
      interval. */
  function PitchOffset(mode: HarmonicMode): (offset: int)
    ensures 0 < offset < BufferSize
    ensures mode == Third ==> offset == 80
    ensures mode == Fifth ==> offset == 120
    ensures mode == Octave ==> offset == 300
  {
    match mode
    case Third => 80
    case Fifth => 120
    case Octave => 300
  }

  // ---------------------------------------------------------------------
  // The buffer's history

  /** The input written `k` calls before the most recent one in the
      history `h` (oldest first), or the cleared buffer's 0 when fewer
      calls have been made. */
  ghost function InputAgo(h: seq<int>, k: nat): int
  {
    if k < |h| then h[|h| - 1 - k] else 0
  }

  /** The sample slot `j` holds after the inputs `h` were written at
      successive slots from slot 0: the most recent input whose position
      is `j` modulo the buffer size, or 0 if there is none. */
  ghost function LastWritten(h: seq<int>, j: int): int
    requires 0 <= j < BufferSize
  {
    InputAgo(h, (|h| - 1 - j) % BufferSize)
  }

  /** Writing one more input changes what the slot it lands on holds, and
      nothing else. */
  lemma LastWrittenAppend(h: seq<int>, x: int, j: int)
    requires 0 <= j < BufferSize
    ensures LastWritten(h + [x], j) == if j == |h| % BufferSize then x else LastWritten(h, j)
  {
    var n := |h|;
    var h' := h + [x];
    var q := (n - j) / BufferSize;
    var k := (n - j) % BufferSize;
    assert n - j == BufferSize * q + k;
    if j == n % BufferSize {
      ModOf(n - j, n / BufferSize, 0);
      assert LastWritten(h', j) == h'[n];
    } else {
      if k == 0 {
        ModOf(n, q, j);
        assert false;
      }
      ModOf(n - 1 - j, q, k - 1);
      if k - 1 < n {
        assert h'[|h'| - 1 - k] == h[n - 1 - (k - 1)];
      }
    }
  }

  /** The remainder is the unique `r` in [0, BufferSize) with `a = q * BufferSize + r`. */
  lemma ModOf(a: int, q: int, r: int)
    requires 0 <= r < BufferSize && a == BufferSize * q + r
    ensures a % BufferSize == r
  {
  }

  /** Advancing the cursor modulo the buffer size keeps it at the count of
      inputs modulo the buffer size. */
  lemma CursorFollows(n: int)
    ensures (n % BufferSize + 1) % BufferSize == (n + 1) % BufferSize
  {
  }

  /** The read slot `writeIndex - offset` (wrapped once), taken right after
      the current input was written at `writeIndex`, holds the input
      written exactly `offset` calls earlier. */
  lemma ReadIsDelayed(h: seq<int>, offset: int)
    requires 0 < |h| && 0 < offset < BufferSize
    ensures var w := (|h| - 1) % BufferSize;
            var r := if w - offset < 0 then w - offset + BufferSize else w - offset;
            && 0 <= r < BufferSize
            && LastWritten(h, r) == InputAgo(h, offset)
  {
    var w := (|h| - 1) % BufferSize;
    var r := if w - offset < 0 then w - offset + BufferSize else w - offset;
    assert r == (|h| - 1 - offset) % BufferSize;
    assert (|h| - 1 - r) % BufferSize == offset;
  }

  // ---------------------------------------------------------------------
  // Mixing and LEDs

  /** `(audioIn * (4095 - mix) + wet * mix) / 4095`, a C++ division that
      truncates toward zero, clamped to [-2048, 2047]. */
  function Mix(dry: int, wet: int, mix: int): (r: int)
    ensures -2048 <= r <= 2047
    ensures mix == 0 ==> r == Clamp(dry, -2048, 2047)
    ensures mix == 4095 ==> r == Clamp(wet, -2048, 2047)
  {
    assert mix == 0 ==> dry * (4095 - mix) + wet * mix == dry * 4095;
    assert mix == 4095 ==> dry * (4095 - mix) + wet * mix == wet * 4095;
    Clamp(TruncDiv(dry * (4095 - mix) + wet * mix, 4095), -2048, 2047)
  }

  /** For samples in range the mix is a weighted mean of dry and wet: it
      lies between them, so the clamp never acts. */
  lemma MixBetween(dry: int, wet: int, mix: int)
    requires -2048 <= dry <= 2047 && -2048 <= wet <= 2047 && 0 <= mix <= 4095
    ensures dry <= wet ==> dry <= Mix(dry, wet, mix) <= wet
    ensures wet <= dry ==> wet <= Mix(dry, wet, mix) <= dry
  {
    var sum := dry * (4095 - mix) + wet * mix;
    assert sum == dry * 4095 + (wet - dry) * mix;
    MulBetween(wet - dry, mix, 4095);
    var q := TruncDiv(sum, 4095);
    if dry <= wet {
      assert dry * 4095 <= sum <= wet * 4095;
      TruncBetween(sum, dry, wet);
    } else {
      assert wet * 4095 <= sum <= dry * 4095;
      TruncBetween(sum, wet, dry);
    }
  }

  /** Truncating division by 4095 keeps a value between `lo * 4095` and
      `hi * 4095` between `lo` and `hi`. */
  lemma TruncBetween(x: int, lo: int, hi: int)
    requires lo * 4095 <= x <= hi * 4095
    ensures lo <= TruncDiv(x, 4095) <= hi
  {
  }

  /** The debug LED lit every call: 4 for a Main knob in the lowest
      quarter, 5 in the highest, none in between. Nothing turns it off
      until the next refresh. */
  function DebugLed(knobMain: int): (led: Option<int>)
    ensures led == Some(4) <==> knobMain < 1024
    ensures led == Some(5) <==> knobMain > 3071
    ensures led == None <==> 1024 <= knobMain <= 3071
  {
    if knobMain < 1024 then Some(4) else if knobMain > 3071 then Some(5) else None
  }

  /** The six LEDs after a refresh: all cleared, then the mode's LED (0, 1
      or 2) and LED 3 when the mix is above 2000. */
  function StatusLeds(mode: HarmonicMode, dryWetMix: int): (leds: seq<bool>)
    ensures |leds| == 6
    ensures forall i :: 0 <= i < 3 ==> (leds[i] <==> i == mode.Index())
    ensures leds[3] <==> dryWetMix > 2000
    ensures !leds[4] && !leds[5]
  {
    [mode == Third, mode == Fifth, mode == Octave, dryWetMix > 2000, false, false]
  }

  /** What one call sends to the hardware: the same sample on both audio
      outputs, the debug LED it lights and, on a refresh call, the LED
      pattern that replaces all six LEDs after it. */
  datatype HarmonizerOutput = HarmonizerOutput(left: int, right: int, debugLed: Option<int>,
                                               refresh: Option<seq<bool>>)

  /** The LED counter after one call. */
  function LedTick(counter: int): (r: int)
    ensures 0 <= counter ==> (r == 0 <==> counter + 1 >= LedPeriod)
    ensures 0 <= counter < LedPeriod ==> 0 <= r < LedPeriod && r == (counter + 1) % LedPeriod
  {
    if counter + 1 >= LedPeriod then 0 else counter + 1
  }

  /** The counter after `n` calls. */
  function LedTicks(counter: int, n: nat): int
  {
    if n == 0 then counter else LedTick(LedTicks(counter, n - 1))
  }

  /** From a counter in range, `n` calls leave it at `(counter + n) mod
      12000`: a refresh happens exactly once every 12000 calls. */
  lemma {:induction false} LedTicksPeriod(counter: int, n: nat)
    requires 0 <= counter < LedPeriod
    ensures LedTicks(counter, n) == (counter + n) % LedPeriod
  {
    if n > 0 {
      LedTicksPeriod(counter, n - 1);
    }
  }

  // ---------------------------------------------------------------------
  // The card

  class SimplePitchShifter {
    const delayBuffer: array<int>
    var writeIndex: int

    var currentMode: HarmonicMode
    /** Declared and initialised, never used. */
    var zSwitchPressed: bool
    var lastZSwitchState: bool

    var pitchOffset: int
    var dryWetMix: int

    var ledCounter: int

    /** Every input written so far, oldest first. */
    ghost var history: seq<int>

    /** The buffer holds, in every slot, the last input written there; the
        cursor is the position of the next input; the offset, the mix and
        the LED counter are in range. */
    ghost predicate Valid()
      reads this, delayBuffer
    {
      && Recording()
      && 0 < pitchOffset < BufferSize
      && 0 <= dryWetMix <= 4095
      && 0 <= ledCounter < LedPeriod
    }

    /** The buffer and its cursor follow the history: every slot holds the
        last input written there, the cursor is the next input's slot. */
    ghost predicate Recording()
      reads this, delayBuffer
    {
      && delayBuffer.Length == BufferSize
      && writeIndex == |history| % BufferSize
      && (forall j :: 0 <= j < BufferSize ==> delayBuffer[j] == LastWritten(history, j))
    }

    /** The initial state: a cleared buffer, offset 100, half mix, mode
        THIRD. */
    constructor ()
      ensures Valid()
      ensures fresh(delayBuffer)
      ensures forall j :: 0 <= j < BufferSize ==> delayBuffer[j] == 0
      ensures writeIndex == 0 && history == []
      ensures pitchOffset == 100 && dryWetMix == 2048
      ensures currentMode == Third && !zSwitchPressed && !lastZSwitchState
      ensures ledCounter == 0
    {
      delayBuffer := new int[BufferSize];
      writeIndex, pitchOffset, dryWetMix := 0, 100, 2048;
      currentMode, zSwitchPressed, lastZSwitchState := Third, false, false;
      ledCounter := 0;
      history := [];
      new;
      var i := 0;
      while i < BufferSize
        invariant 0 <= i <= BufferSize
        invariant forall j :: 0 <= j < i ==> delayBuffer[j] == 0
        modifies delayBuffer
      {
        delayBuffer[i] := 0;
        i := i + 1;
      }
    }

    /** `updateLEDs`: counts calls and refreshes the LEDs when the count
        reaches 12000. */
    method UpdateLeds() returns (refresh: Option<seq<bool>>)
      requires 0 <= ledCounter < LedPeriod
      modifies this`ledCounter
      ensures ledCounter == LedTick(old(ledCounter)) == (old(ledCounter) + 1) % LedPeriod
      ensures refresh.Some? <==> old(ledCounter) == LedPeriod - 1
      ensures refresh.Some? ==> refresh.value == StatusLeds(currentMode, dryWetMix)
    {
      refresh := None;
      ledCounter := ledCounter + 1;
      if ledCounter >= LedPeriod {
        ledCounter := 0;
        refresh := Some(StatusLeds(currentMode, dryWetMix));
      }
    }

    /** Mode cycling on the rising edge of switch Down and the offset of
        the resulting mode. */
    method SelectMode(switchDown: bool)
      modifies this`currentMode, this`lastZSwitchState, this`pitchOffset
      ensures currentMode == ModeAfter(old(currentMode), old(lastZSwitchState), switchDown)
      ensures lastZSwitchState == switchDown
      ensures pitchOffset == PitchOffset(currentMode)
    {
      if switchDown && !lastZSwitchState {
        currentMode := currentMode.Next();
      }
      lastZSwitchState := switchDown;
      pitchOffset := PitchOffset(currentMode);
    }

    /** Writes the input at the cursor, then reads `pitchOffset` slots
        behind it and advances the cursor: the sample read is the input of
        exactly `pitchOffset` calls earlier. */
    method WriteAndRead(audioIn: int) returns (wetSample: int)
      requires Recording() && 0 < pitchOffset < BufferSize
      modifies delayBuffer, this`history, this`writeIndex
      ensures Recording()
      ensures history == old(history) + [audioIn]
      ensures delayBuffer[..] == old(delayBuffer[..])[old(writeIndex) := audioIn]
      ensures writeIndex == (old(writeIndex) + 1) % BufferSize
      ensures wetSample == InputAgo(history, pitchOffset)
    {
      ghost var before := history;
      delayBuffer[writeIndex] := audioIn;
      history := history + [audioIn];
      forall j | 0 <= j < BufferSize
        ensures delayBuffer[j] == LastWritten(history, j)
      {
        LastWrittenAppend(before, audioIn, j);
      }

      var readIndex := writeIndex - pitchOffset;
      if readIndex < 0 {
        readIndex := readIndex + BufferSize;
      }
      ReadIsDelayed(history, pitchOffset);
      wetSample := delayBuffer[readIndex];

      writeIndex := (writeIndex + 1) % BufferSize;
      CursorFollows(|before|);
    }

    /** One audio sample. The hardware reads are the parameters: audio
        input 1, the switch and the Main knob. */
    method ProcessSample(audioIn: int, switchPos: Switch, knobMain: int) returns (out: HarmonizerOutput)
      requires Valid()
      requires -2048 <= audioIn <= 2047 && 0 <= knobMain <= 4095
      modifies this, delayBuffer
      ensures Valid()
      ensures currentMode == ModeAfter(old(currentMode), old(lastZSwitchState), switchPos == Down)
      ensures lastZSwitchState == (switchPos == Down)
      ensures zSwitchPressed == old(zSwitchPressed)
      ensures pitchOffset == PitchOffset(currentMode) && dryWetMix == knobMain
      ensures history == old(history) + [audioIn]
      ensures delayBuffer[..] == old(delayBuffer[..])[old(writeIndex) := audioIn]
      ensures writeIndex == (old(writeIndex) + 1) % BufferSize
      ensures ledCounter == LedTick(old(ledCounter)) == (old(ledCounter) + 1) % LedPeriod
      ensures var output := Mix(audioIn, InputAgo(history, pitchOffset), knobMain);
              out == HarmonizerOutput(output, output, DebugLed(knobMain),
                                      if old(ledCounter) == LedPeriod - 1
                                      then Some(StatusLeds(currentMode, knobMain)) else None)
    {
      SelectMode(switchPos == Down);
      dryWetMix := knobMain;
      var debugLed := DebugLed(knobMain);

      var wetSample := WriteAndRead(audioIn);
      var output := Mix(audioIn, wetSample, dryWetMix);

      var refresh := UpdateLeds();
      out := HarmonizerOutput(output, output, debugLed, refresh);
    }
  }
}
