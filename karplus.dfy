/** The Karplus-Strong string shared by the two string cards (resonator and
    resonating-strings): a 1920-slot circular delay line with a one-pole
    damping lowpass, a slow DC tracker and a clipped write-back, plus the
    noise-burst pluck both cards use on pulse input 1.

    Both firmware files spell these stages out separately with identical
    code; they are defined once here and each card's `processString` is
    modelled in its own module on top of them. */
module KarplusStrong {
  import opened Fixed

  /** `MAX_DELAY_SIZE`: the slots of one string's delay line. */
  const LineSize: int := 1920

  // ---------------------------------------------------------------------
  // Filters

  /** `dampingFilter`: the state moves `(input - state) * coeff / 65536`
      toward the input, rounded; the new state is also the output. */
  function DampingStep(state: int, input: int, coeff: int): (r: int)
    ensures input == state ==> r == state
    ensures 0 <= coeff <= 65536 && state <= input ==> state <= r <= input
    ensures 0 <= coeff <= 65536 && input <= state ==> input <= r <= state
  {
    MulBetween(input - state, coeff, 65536);
    state + ((input - state) * coeff + 32768) / 65536
  }

  /** A damping step never carries the state out of a range that holds both
      the state and the input. */
  lemma DampingStaysInRange(state: int, input: int, coeff: int, bound: int)
    requires 0 <= coeff <= 65536
    requires -bound <= state <= bound && -bound <= input <= bound
    ensures -bound <= DampingStep(state, input, coeff) <= bound
  {
  }

  /** With the coefficient at 65536 the filter passes its input through. */
  lemma DampingFullCoefficient(state: int, input: int)
    ensures DampingStep(state, input, 65536) == input
  {
  }

  /** The DC tracker: `dcState += (damped - dcState) >> 8`. */
  function DcStep(dcState: int, damped: int): (r: int)
    ensures damped == dcState ==> r == dcState
    ensures dcState <= damped ==> dcState <= r <= damped
    ensures damped <= dcState ==> damped <= r <= dcState
  {
    dcState + (damped - dcState) / 256
  }

  /** The single conditional wrap of a read position behind the cursor
      (`if (readIndex < 0) readIndex += MAX_DELAY_SIZE`): for positions at
      most one line behind it is the residue modulo the line size. */
  function WrapBack(index: int): (r: int)
    ensures -LineSize <= index < LineSize ==> 0 <= r < LineSize && r == index % LineSize
  {
    if index < 0 then index + LineSize else index
  }

  // ---------------------------------------------------------------------
  // One string

  /** The by-reference state `processString` works on: the delay line, its
      write cursor and the damping and DC-tracker states. */
  datatype StringState = StringState(line: seq<int>, writeIndex: int, filterState: int, dcState: int)
  {
    /** What both cards keep: the cursor in the line and every sample and
        filter state within the clip range. */
    ghost predicate Valid()
    {
      && |line| == LineSize
      && 0 <= writeIndex < LineSize
      && (forall i :: 0 <= i < LineSize ==> -2047 <= line[i] <= 2047)
      && -2047 <= filterState <= 2047
      && -2047 <= dcState <= 2047
    }
  }

  /** What `processString` returns, and the string's state after it. */
  datatype Processed = Processed(delayed: int, next: StringState)

  /** The tail both cards' `processString` share, given the delayed sample:
      damp it, remove the tracked DC, add the excitation, clip, write it at
      the cursor and advance the cursor. */
  function Feed(s: StringState, delayed: int, excitation: int, coeff: int): (r: StringState)
    requires |s.line| == LineSize && 0 <= s.writeIndex < LineSize
    ensures |r.line| == LineSize
    ensures r.writeIndex == (s.writeIndex + 1) % LineSize
    ensures forall i :: 0 <= i < LineSize && i != s.writeIndex ==> r.line[i] == s.line[i]
    ensures -2047 <= r.line[s.writeIndex] <= 2047
    ensures delayed == s.filterState ==> r.filterState == s.filterState
    ensures s.Valid() && -2047 <= delayed <= 2047 && 0 <= coeff <= 65536 ==> r.Valid()
  {
    var damped := DampingStep(s.filterState, delayed, coeff);
    var dc := DcStep(s.dcState, damped);
    var newSample := Clip(damped - dc + excitation);
    StringState(s.line[s.writeIndex := newSample], (s.writeIndex + 1) % LineSize, damped, dc)
  }

  /** One string's storage and filter states, updated in place. */
  class KarplusString {
    const line: array<int>
    var writeIndex: int
    var filterState: int
    var dcState: int

    function State(): StringState
      reads this, line
    {
      StringState(line[..], writeIndex, filterState, dcState)
    }

    /** A fresh line (its contents are cleared by the card's constructor)
        with the cursor and both filter states at 0. */
    constructor ()
      ensures fresh(line) && line.Length == LineSize
      ensures writeIndex == 0 && filterState == 0 && dcState == 0
    {
      line := new int[LineSize];
      writeIndex, filterState, dcState := 0, 0, 0;
    }
  }

  /** The constructors' loop: every slot of the four lines set to 0. */
  method ClearLines(line1: array<int>, line2: array<int>, line3: array<int>, line4: array<int>)
    requires line1.Length == LineSize && line2.Length == LineSize
    requires line3.Length == LineSize && line4.Length == LineSize
    modifies line1, line2, line3, line4
    ensures forall i :: 0 <= i < LineSize ==>
              line1[i] == 0 && line2[i] == 0 && line3[i] == 0 && line4[i] == 0
  {
    var i := 0;
    while i < LineSize
      invariant 0 <= i <= LineSize
      invariant forall j :: 0 <= j < i ==>
                  line1[j] == 0 && line2[j] == 0 && line3[j] == 0 && line4[j] == 0
    {
      line1[i] := 0;
      line2[i] := 0;
      line3[i] := 0;
      line4[i] := 0;
      i := i + 1;
    }
  }

  // ---------------------------------------------------------------------
  // The pluck burst

  /** The burst generator's state after one call, and the scaled noise
      sample it adds to the excitations (0 while the burst is over). */
  datatype Pluck = Pluck(envelope: int, noiseState: int, scaledNoise: int)

  /** The `uint32_t` linear congruential step
      `noiseState * 1103515245 + 12345`. */
  function NextNoise(state: int): (r: int)
    ensures 0 <= r < U32
  {
    Wrap32(state * 1103515245 + 12345)
  }

  /** `((noiseState >> 16) & 0xFFF) - 2048`: twelve bits of the generator
      state, centred. */
  function NoiseSample(state: int): (r: int)
    requires 0 <= state
    ensures -2048 <= r <= 2047
    ensures r + 2048 == (state / 65536) % 4096
  {
    (state / 65536) % 4096 - 2048
  }

  /** The pluck: a rising edge on pulse 1 restarts the envelope at 2048;
      while it is above 10 it draws one noise sample, scales it by the
      envelope (`>> 11`) and decays by 250/256. */
  function PluckStep(envelope: int, noiseState: int, risingEdge: bool): (r: Pluck)
    requires 0 <= envelope <= 2048 && 0 <= noiseState < U32
    ensures 0 <= r.envelope <= 2048 && 0 <= r.noiseState < U32
    ensures -2048 <= r.scaledNoise <= 2047
    ensures risingEdge ==> r.envelope == 2000 && r.noiseState == NextNoise(noiseState)
    ensures !risingEdge ==> r.envelope <= envelope
    ensures !risingEdge && envelope > 10 ==> r.envelope < envelope && r.noiseState == NextNoise(noiseState)
    ensures !risingEdge && envelope <= 10 ==> r == Pluck(envelope, noiseState, 0)
  {
    var env := if risingEdge then 2048 else envelope;
    if env > 10 then
      var state := NextNoise(noiseState);
      var noise := NoiseSample(state);
      MulBetween(noise, env, 2048);
      Pluck(env * 250 / 256, state, noise * env / 2048)
    else
      Pluck(env, noiseState, 0)
  }

  /** Without new edges the burst dies out: after enough calls the envelope
      is at most 10 and no more noise is drawn. */
  function PluckIdle(envelope: int, noiseState: int, n: nat): (r: Pluck)
    requires 0 <= envelope <= 2048 && 0 <= noiseState < U32
    ensures 0 <= r.envelope <= envelope && 0 <= r.noiseState < U32
  {
    if n == 0 then Pluck(envelope, noiseState, 0)
    else
      var p := PluckStep(envelope, noiseState, false);
      PluckIdle(p.envelope, p.noiseState, n - 1)
  }

  /** Each idle call with the burst active lowers the envelope by at least
      one, so 2048 calls end any burst. */
  lemma {:induction false} PluckDiesOut(envelope: int, noiseState: int, n: nat)
    requires 0 <= envelope <= 2048 && 0 <= noiseState < U32
    requires envelope <= n + 10
    ensures PluckIdle(envelope, noiseState, n).envelope <= 10
  {
    if n > 0 {
      var p := PluckStep(envelope, noiseState, false);
      PluckDiesOut(p.envelope, p.noiseState, n - 1);
    }
  }

  /** One value per string. The firmware keeps four separately named
      variables for each per-string quantity (`delayLength1` …
      `delayLength4`, `num1`/`den1` …); this is that quadruple. */
  datatype Quad<T> = Quad(s1: T, s2: T, s3: T, s4: T)
  {
    /** The value of string `k + 1`. */
    function At(k: int): T
      requires 0 <= k < 4
    {
      if k == 0 then s1 else if k == 1 then s2 else if k == 2 then s3 else s4
    }
  }

  /** The excitation of the four strings: the input scaled by 1/4, 1/16,
      1/16 and 1/8, plus the burst noise in full on string 1 and halved on
      the others. */
  function Excitations(audioIn: int, scaledNoise: int): (e: Quad<int>)
    ensures e.s1 - scaledNoise == audioIn / 4
    ensures e.s2 == e.s3 && e.s2 - scaledNoise / 2 == audioIn / 16
    ensures e.s4 - scaledNoise / 2 == audioIn / 8
    ensures -2048 <= audioIn <= 2047 && -2048 <= scaledNoise <= 2047 ==>
              forall k :: 0 <= k < 4 ==> -2560 <= e.At(k) <= 2559
  {
    Quad(audioIn / 4 + scaledNoise,
         audioIn / 16 + scaledNoise / 2,
         audioIn / 16 + scaledNoise / 2,
         audioIn / 8 + scaledNoise / 2)
  }

  /** A chord ratio `num:den` of one string against the fundamental. */
  datatype Ratio = Ratio(num: int, den: int)

  /** Every ratio of both cards' tables: at least unison (`num >= den`),
      so no string is tuned below the fundamental. */
  predicate AtOrAbove(r: Ratio)
  {
    r.num >= r.den >= 1
  }
}
