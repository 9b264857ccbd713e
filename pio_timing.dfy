/** `convert_to_pio_timing`: a 12-bit amplitude becomes a pulse of `high`
    ticks followed by `low` ticks out of a 64-tick period, packed as
    `(high << 16) | low` into the word the state machine consumes. All
    arithmetic is on `uint32_t`: products and differences wrap modulo 2^32,
    and the bitwise OR is written out bit by bit. */
module PioTiming {
  import opened MachineInts

  /** The base timing period in ticks. */
  const BasePeriod: uint32 := 64

  /** The amplitude full scale plus one (the divisor of the duty cycle). */
  const AmplitudeSpan: uint32 := 4096

  /** 2 to the power n. */
  function Pow2(n: nat): (r: nat)
    ensures r >= 1
  {
    if n == 0 then 1 else 2 * Pow2(n - 1)
  }

  /** Bitwise OR of two naturals, from the least significant bit up. */
  function BitOr(x: nat, y: nat): nat
    decreases x + y
  {
    if x == 0 then y
    else if y == 0 then x
    else 2 * BitOr(x / 2, y / 2) + (if x % 2 == 1 || y % 2 == 1 then 1 else 0)
  }

  /** The unclamped high count `amplitude * 64 / 4096`, the product wrapping
      modulo 2^32. */
  function Share(amplitude: uint32): uint32
  {
    ToUint32(amplitude * BasePeriod) / AmplitudeSpan
  }

  /** The high tick count: the amplitude's share of the period, at least 1. */
  function HighTicks(amplitude: uint32): uint32
  {
    var high := Share(amplitude);
    if high < 1 then 1 else high
  }

  /** The low tick count: what the unclamped high count leaves of the period
      (modulo 2^32), at least 1. */
  function LowTicks(amplitude: uint32): uint32
  {
    var low := ToUint32(BasePeriod - Share(amplitude));
    if low < 1 then 1 else low
  }

  /** The packed timing word `(high << 16) | low`. For every 12-bit amplitude
      the upper half holds the high count and the lower half the low count;
      both are at least 1, high is at most 63 and low at most 64; their sum
      is the 64-tick period, except below amplitude 64, where the high count
      is raised from 0 to 1 and the period grows to 65 ticks. */
  function ConvertToPioTiming(amplitude: uint32): (word: uint32)
    ensures amplitude <= 4095 ==>
      && word / TWO_TO_THE_16 == HighTicks(amplitude)
      && word % TWO_TO_THE_16 == LowTicks(amplitude)
      && 1 <= HighTicks(amplitude) <= 63
      && 1 <= LowTicks(amplitude) <= 64
      && (amplitude >= 64 ==> HighTicks(amplitude) + LowTicks(amplitude) == 64)
      && (amplitude < 64 ==> HighTicks(amplitude) == 1 && LowTicks(amplitude) == 64)
  {
    var shifted := ToUint32(HighTicks(amplitude) * TWO_TO_THE_16);
    var low := LowTicks(amplitude);
    TwoToThe32();
    BitOrBelow(shifted, low, 32);
    if amplitude <= 4095 then
      ShareOfPeriod(amplitude);
      NarrowShift(HighTicks(amplitude));
      TwoToThe16();
      BitOrDisjoint(HighTicks(amplitude), low, 16);
      PackedHalves(HighTicks(amplitude), low);
      BitOr(shifted, low)
    else
      BitOr(shifted, low)
  }

  /** A word whose high half holds 1..63 ticks and whose low half 1..64. */
  predicate WellFormedWord(word: uint32)
  {
    1 <= word / TWO_TO_THE_16 <= 63 && 1 <= word % TWO_TO_THE_16 <= 64
  }

  /** Every word of a slot is well formed. */
  predicate AllWellFormed(words: seq<uint32>)
  {
    forall i :: 0 <= i < |words| ==> WellFormedWord(words[i])
  }

  /** Every amplitude of a slot fits in 12 bits. */
  predicate TwelveBit(amplitudes: seq<uint32>)
  {
    forall i :: 0 <= i < |amplitudes| ==> amplitudes[i] <= 4095
  }

  /** Appending a 12-bit amplitude keeps a slot within 12 bits. */
  lemma TwelveBitExtend(amplitudes: seq<uint32>, amplitude: uint32)
    requires TwelveBit(amplitudes) && amplitude <= 4095
    ensures TwelveBit(amplitudes + [amplitude])
  {
    assert forall i :: 0 <= i < |amplitudes| ==> (amplitudes + [amplitude])[i] == amplitudes[i];
  }

  /** The words of a slot, one per amplitude, in order. */
  function TimingWords(amplitudes: seq<uint32>): (words: seq<uint32>)
    ensures |words| == |amplitudes|
  {
    if amplitudes == [] then []
    else TimingWords(amplitudes[..|amplitudes| - 1]) + [ConvertToPioTiming(amplitudes[|amplitudes| - 1])]
  }

  /** Appending an amplitude appends its timing word. */
  lemma TimingWordsExtend(amplitudes: seq<uint32>, amplitude: uint32)
    ensures TimingWords(amplitudes + [amplitude]) == TimingWords(amplitudes) + [ConvertToPioTiming(amplitude)]
  {
    assert (amplitudes + [amplitude])[..|amplitudes|] == amplitudes;
  }

  /** Word i of a slot is the timing word of amplitude i. */
  lemma {:induction false} TimingWordAt(amplitudes: seq<uint32>, i: nat)
    requires i < |amplitudes|
    ensures TimingWords(amplitudes)[i] == ConvertToPioTiming(amplitudes[i])
  {
    if i < |amplitudes| - 1 {
      TimingWordAt(amplitudes[..|amplitudes| - 1], i);
    }
  }

  /** Amplitudes within 12 bits give a slot of well-formed words. */
  lemma TimingWordsWellFormed(amplitudes: seq<uint32>)
    requires TwelveBit(amplitudes)
    ensures AllWellFormed(TimingWords(amplitudes))
  {
    forall i | 0 <= i < |amplitudes|
      ensures WellFormedWord(TimingWords(amplitudes)[i])
    {
      TimingWordAt(amplitudes, i);
    }
  }

  /** A larger amplitude never gives a shorter high time, nor a longer low time. */
  lemma TimingMonotone(quiet: uint32, loud: uint32)
    requires quiet <= loud <= 4095
    ensures HighTicks(quiet) <= HighTicks(loud)
    ensures LowTicks(loud) <= LowTicks(quiet)
  {
    ShareOfPeriod(quiet);
    ShareOfPeriod(loud);
    assert quiet / 64 <= loud / 64;
  }

  /** Below 4096 the product with the period cannot wrap: the share of the
      period is the amplitude divided by 64. */
  lemma ShareOfPeriod(amplitude: uint32)
    requires amplitude <= 4095
    ensures Share(amplitude) == amplitude / 64 <= 63
    ensures HighTicks(amplitude) == if amplitude / 64 == 0 then 1 else amplitude / 64
    ensures LowTicks(amplitude) == 64 - amplitude / 64
  {
    assert amplitude * BasePeriod < TWO_TO_THE_32;
  }

  /** Silence gives (1, 64); full scale gives (63, 1). */
  lemma TimingExtremes()
    ensures ConvertToPioTiming(0) == 1 * TWO_TO_THE_16 + 64
    ensures ConvertToPioTiming(4095) == 63 * TWO_TO_THE_16 + 1
  {
    var silent := ConvertToPioTiming(0);
    var full := ConvertToPioTiming(4095);
    assert silent == silent / TWO_TO_THE_16 * TWO_TO_THE_16 + silent % TWO_TO_THE_16;
    assert full == full / TWO_TO_THE_16 * TWO_TO_THE_16 + full % TWO_TO_THE_16;
  }

  /** OR-ing a value shifted left by n bits with a value of fewer than n bits
      is adding them: the two occupy disjoint bits. */
  lemma {:induction false} BitOrDisjoint(x: nat, y: nat, n: nat)
    requires y < Pow2(n)
    ensures BitOr(x * Pow2(n), y) == x * Pow2(n) + y
  {
    if n > 0 && x != 0 && y != 0 {
      var half := x * Pow2(n - 1);
      assert x * Pow2(n) == 2 * half;
      assert (2 * half) / 2 == half && (2 * half) % 2 == 0;
      BitOrDisjoint(x, y / 2, n - 1);
    } else if n == 0 {
      assert y == 0;
    }
  }

  /** The OR of two n-bit values is an n-bit value. */
  lemma {:induction false} BitOrBelow(x: nat, y: nat, n: nat)
    requires x < Pow2(n) && y < Pow2(n)
    ensures BitOr(x, y) < Pow2(n)
  {
    if n > 0 && x != 0 && y != 0 {
      BitOrBelow(x / 2, y / 2, n - 1);
    } else if n == 0 {
      assert x == 0;
    }
  }

  /** A count of at most 63 shifted into the upper half does not wrap. */
  lemma NarrowShift(high: nat)
    requires high <= 63
    ensures ToUint32(high * TWO_TO_THE_16) == high * TWO_TO_THE_16
  {
  }

  /** The upper and lower halves of a packed word are its two parts. */
  lemma PackedHalves(high: nat, low: nat)
    requires low < TWO_TO_THE_16
    ensures (high * TWO_TO_THE_16 + low) / TWO_TO_THE_16 == high
    ensures (high * TWO_TO_THE_16 + low) % TWO_TO_THE_16 == low
  {
  }

  lemma {:induction false} Pow2Sum(a: nat, b: nat)
    ensures Pow2(a + b) == Pow2(a) * Pow2(b)
  {
    if a > 0 {
      Pow2Sum(a - 1, b);
    }
  }

  lemma TwoToThe16()
    ensures Pow2(16) == TWO_TO_THE_16
  {
    assert Pow2(2) == 4;
    Pow2Sum(2, 2);
    Pow2Sum(4, 4);
    Pow2Sum(8, 8);
  }

  lemma TwoToThe32()
    ensures Pow2(32) == TWO_TO_THE_32
  {
    TwoToThe16();
    Pow2Sum(16, 16);
  }
}
