/** Integer helpers shared by the four cards.

    The firmware works on `int16_t`/`int32_t`/`uint32_t` values; the model
    works on unbounded `int` and writes out every place where C++ integer
    semantics differ from mathematics:
    - `x >> k` on a signed value is an arithmetic shift, i.e. floor division
      by 2^k.  Dafny's `/` by a positive constant already floors, so the
      model writes `x / 128` for `x >> 7`.
    - C++ `/` and `%` truncate toward zero: `TruncDiv` and `CRem` below.
    - `uint32_t` arithmetic wraps modulo 2^32: `Wrap32` below. */
module Fixed {

  const U32: int := 0x1_0000_0000

  /** A `uint32_t` result: the value reduced modulo 2^32. */
  function Wrap32(x: int): (r: int)
    ensures 0 <= r < U32
    ensures 0 <= x < U32 ==> r == x
    ensures (x - r) % U32 == 0
  {
    x % U32
  }

  /** The saturating clamp the firmware writes as two `if` statements. */
  function Clamp(x: int, lo: int, hi: int): (r: int)
    requires lo <= hi
    ensures lo <= r <= hi
    ensures lo <= x <= hi ==> r == x
    ensures x < lo ==> r == lo
    ensures hi < x ==> r == hi
  {
    if x < lo then lo else if x > hi then hi else x
  }

  /** The audio clip to the symmetric range [-2047, 2047] used by every
      card before it stores or outputs a sample. */
  function Clip(x: int): (r: int)
    ensures -2047 <= r <= 2047
    ensures -2047 <= x <= 2047 ==> r == x
  {
    Clamp(x, -2047, 2047)
  }

  /** C++ signed division: the quotient is rounded toward zero. */
  function TruncDiv(a: int, b: int): (q: int)
    requires b > 0
    ensures 0 <= a ==> 0 <= a - q * b < b
    ensures a < 0 ==> -b < a - q * b <= 0
  {
    if a >= 0 then a / b else -((-a) / b)
  }

  /** C++ signed remainder: it takes the sign of the dividend. */
  function CRem(a: int, b: int): (r: int)
    requires b > 0
    ensures 0 <= a ==> r == a % b
    ensures a < 0 ==> -b < r <= 0
  {
    a - TruncDiv(a, b) * b
  }

  /** Multiplying by a factor in [0, k] lands between 0 and `d * k`. */
  lemma MulBetween(d: int, f: int, k: int)
    ensures 0 <= f <= k && 0 <= d ==> 0 <= d * f <= d * k
    ensures 0 <= f <= k && d < 0 ==> d * k <= d * f <= 0
  {
    if 0 <= f <= k {
      if 0 <= d {
        assert d * f <= d * k;
      } else {
        assert (-d) * f <= (-d) * k;
      }
    }
  }

  datatype Option<T> = None | Some(value: T)

  /** The hardware's three-position Z switch. */
  datatype Switch = Up | Middle | Down

  /** Mono input of a stereo card: `(in1 + in2 + 1) >> 1`. */
  function MixInputs(in1: int, in2: int): (r: int)
    requires -2048 <= in1 <= 2047 && -2048 <= in2 <= 2047
    ensures -2048 <= r <= 2047
    ensures in1 == in2 ==> r == in1
    ensures in1 <= r <= in2 || in2 <= r <= in1
  {
    (in1 + in2 + 1) / 2
  }

  /** A knob plus a CV, clamped to the knob range [0, 4095]: the delay's
      `combinedControl` and feedback amount and the resonating strings'
      `combinedFreq`. */
  function CombineControl(knob: int, cv: int): (r: int)
    ensures 0 <= r <= 4095
    ensures 0 <= knob + cv <= 4095 ==> r == knob + cv
  {
    Clamp(knob + cv, 0, 4095)
  }

  /** The dry/wet crossfade of the delay and the two string cards:
      `(dry * (4095 - mix) + wet * mix + 2048) >> 12`. */
  function Crossmix(dry: int, wet: int, mix: int): (r: int)
    ensures -2048 <= dry <= 2047 && -2048 <= wet <= 2047 && 0 <= mix <= 4095 ==> -2048 <= r <= 2047
  {
    MulBetween(4095 - mix, dry + 2048, 4095);
    MulBetween(mix, wet + 2048, 4095);
    (dry * (4095 - mix) + wet * mix + 2048) / 4096
  }

  /** With the mix knob at 0 the crossfade returns the dry sample itself for
      every sample strictly above -2048 (and -2047 for -2048), so the clipped
      output is the clipped input. */
  lemma CrossmixAllDry(dry: int, wet: int)
    requires -2048 <= dry <= 2047
    ensures -2048 < dry ==> Crossmix(dry, wet, 0) == dry
    ensures Clip(Crossmix(dry, wet, 0)) == Clip(dry)
  {
    assert dry * (4095 - 0) + wet * 0 + 2048 == dry * 4096 + (2048 - dry);
  }

  /** With the mix knob at 4095 the crossfade returns the wet sample, in the
      same sense. */
  lemma CrossmixAllWet(dry: int, wet: int)
    requires -2048 <= wet <= 2047
    ensures -2048 < wet ==> Crossmix(dry, wet, 4095) == wet
    ensures Clip(Crossmix(dry, wet, 4095)) == Clip(wet)
  {
    assert dry * (4095 - 4095) + wet * 4095 + 2048 == wet * 4096 + (2048 - wet);
  }
}
