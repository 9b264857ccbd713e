/** The filter bank: the biquad sections of the IIR bandpass
    (`filter_sections`, `num_filter_sections`), the FIR kernel
    (`fir_coefficients`, `fir_length`) and the FIR delay line that
    `process_fir_filter` keeps in static storage. Sample values are reals;
    the transcendental coefficient formulas are supplied by the caller. */
module Filters {
  import opened MachineInts

  const MaxSections: nat := 4
  const MaxTaps: nat := 256

  /** `biquad_section_t`: numerator, denominator, input and output histories. */
  datatype Biquad = Biquad(b: seq<real>, a: seq<real>, x: seq<real>, y: seq<real>)

  predicate WellFormed(s: Biquad)
  {
    |s.b| == 3 && |s.a| == 3 && |s.x| == 3 && |s.y| == 3
  }

  const Zeros3: seq<real> := [0.0, 0.0, 0.0]

  /** A zero-initialised static section. */
  const ClearedSection: Biquad := Biquad(Zeros3, Zeros3, Zeros3, Zeros3)

  /** The values `alpha / norm`, `-2 cos(wc) / norm` and `(1 - alpha) / norm`
      computed by the bandpass design; their formulas are not modelled. */
  datatype BandpassCoefficients = BandpassCoefficients(b0: real, a1: real, a2: real)

  /** The section the bandpass design writes: numerator (b0, 0, -b0), leading
      denominator 1, cleared histories. Its numerator sums to zero, so it has no
      gain at DC. */
  function DesignedSection(k: BandpassCoefficients): (s: Biquad)
    ensures WellFormed(s)
    ensures s.x == Zeros3 && s.y == Zeros3
    ensures s.b[1] == 0.0 && s.a[0] == 1.0
    ensures s.b[0] + s.b[1] + s.b[2] == 0.0
  {
    Biquad([k.b0, 0.0, -k.b0], [1.0, k.a1, k.a2], Zeros3, Zeros3)
  }

  /** The value `process_biquad` computes from a section before its update. */
  function BiquadOutput(s: Biquad, input: real): real
    requires WellFormed(s)
  {
    s.b[0] * input + s.b[1] * s.x[0] + s.b[2] * s.x[1] - s.a[1] * s.y[0] - s.a[2] * s.y[1]
  }

  /** The section after one sample: both histories shifted by one place. */
  function Shifted(s: Biquad, input: real, output: real): Biquad
    requires WellFormed(s)
  {
    Biquad(s.b, s.a, [input, s.x[0], s.x[1]], [output, s.y[0], s.y[1]])
  }

  /** A designed section fed the same value it received two samples earlier
      cancels its feed-forward part: only the feedback terms remain. */
  lemma DesignedSectionRejectsDc(k: BandpassCoefficients, s: Biquad, level: real)
    requires WellFormed(s) && s.b == DesignedSection(k).b && s.a == DesignedSection(k).a
    requires s.x[1] == level
    ensures BiquadOutput(s, level) == -k.a1 * s.y[0] - k.a2 * s.y[1]
  {
  }

  /** `num_filter_sections = (filter_order + 1) / 2`, capped at 4. */
  function SectionCount(order: uint8): (n: uint8)
    ensures n <= MaxSections
    ensures n == MaxSections <==> order >= 7
    ensures n < MaxSections ==> order <= 2 * n <= order + 1
  {
    var n := (order + 1) / 2;
    if n > MaxSections then MaxSections else n
  }

  /** Filter orders 1..16 give between one and four sections. */
  lemma SectionCountForValidOrders(order: uint8)
    requires 1 <= order <= 16
    ensures 1 <= SectionCount(order) <= MaxSections
  {
  }

  /** `fir_length = filter_order * 8`, stored into a `uint8_t`. (The source's
      following clamp to 256 can never fire on a `uint8_t` and is not modelled.) */
  function FirLength(order: uint8): (n: uint8)
    ensures n == 8 * (order % 32)
    ensures order < 32 ==> n == 8 * order
  {
    FirLengthWraps(order);
    (order * 8) % TWO_TO_THE_8
  }

  lemma FirLengthWraps(order: uint8)
    ensures (order * 8) % TWO_TO_THE_8 == 8 * (order % 32)
  {
    var q := order / 32;
    var r := order % 32;
    assert order * 8 == 8 * r + q * TWO_TO_THE_8;
  }

  /** For the validated orders the FIR has between 8 and 128 taps. */
  lemma FirLengthForValidOrders(order: uint8)
    requires 1 <= order <= 16
    ensures 8 <= FirLength(order) <= 128 && FirLength(order) % 2 == 0
  {
  }

  /** `n = i - fir_length / 2`: the offset from the centre at which tap i samples
      the ideal bandpass response. */
  function TapOffset(i: nat, length: nat): int
  {
    i - length / 2
  }

  /** With an even tap count, tap i and its mirror tap `length - 1 - i` sample
      the response at offsets n and -n-1, not at n and -n. */
  lemma TapOffsetsNotMirrored(i: nat, length: nat)
    requires length % 2 == 0 && i < length
    ensures TapOffset(length - 1 - i, length) == -TapOffset(i, length) - 1
  {
  }

  /** Coefficient i of an FIR of `length` taps: ideal response at the tap's
      offset times the window value of the tap. */
  function FirTap(ideal: int -> real, window: (nat, nat) -> real, i: nat, length: nat): real
  {
    ideal(TapOffset(i, length)) * window(i, length)
  }

  /** The first n products of the FIR output loop, reading the delay line
      circularly from `start`. */
  function FirSum(delay: seq<real>, coefficients: seq<real>, start: nat, length: nat, n: nat): real
    requires 0 < length <= |delay| && n <= length <= |coefficients|
  {
    if n == 0 then 0.0
    else FirSum(delay, coefficients, start, length, n - 1) + delay[(start + n - 1) % length] * coefficients[n - 1]
  }

  /** The value fed to stage i of a cascade: the input, or the previous stage's newest output. */
  function Feed(stages: seq<Biquad>, i: nat, input: real): real
    requires i <= |stages|
    requires forall k :: 0 <= k < |stages| ==> WellFormed(stages[k])
  {
    if i == 0 then input else assert WellFormed(stages[i - 1]); stages[i - 1].y[0]
  }

  /** Stage i of `current` is stage i of `original` after one sample of its feed. */
  predicate StageProcessed(current: seq<Biquad>, original: seq<Biquad>, i: nat, input: real)
    requires i < |current| && i < |original|
    requires forall k :: 0 <= k < |current| ==> WellFormed(current[k])
    requires WellFormed(original[i])
  {
    var feed := Feed(current, i, input);
    current[i] == Shifted(original[i], feed, BiquadOutput(original[i], feed))
  }

  /** The first `count` stages of `current` have each processed one sample of
      their feed, and the later stages are as they were. */
  predicate CascadeStepped(current: seq<Biquad>, original: seq<Biquad>, count: nat, input: real)
    requires count <= |current| == |original|
    requires forall k :: 0 <= k < |current| ==> WellFormed(current[k]) && WellFormed(original[k])
  {
    && (forall j :: 0 <= j < count ==> StageProcessed(current, original, j, input))
    && (forall j :: count <= j < |current| ==> current[j] == original[j])
  }

  /** The write index after a push, and where the newest sample then sits. */
  lemma NextIndex(index: nat, length: nat)
    requires index < length
    ensures (index + 1) % length == if index + 1 < length then index + 1 else 0
    ensures ((index + 1) % length + length - 1) % length == index
  {
    if index + 1 < length {
      ModOfSmall(index + 1, length);
      ModOfSecondBand(index + length, length);
    } else {
      ModOfSecondBand(length, length);
      ModOfSmall(length - 1, length);
    }
  }

  /** A value already below the modulus is its own remainder. */
  lemma ModOfSmall(x: nat, m: nat)
    requires x < m
    ensures x % m == x
  {
  }

  /** A value between one and two moduli has lost exactly one modulus. */
  lemma ModOfSecondBand(x: nat, m: nat)
    requires m <= x < 2 * m
    ensures x % m == x - m
  {
  }

  class FilterBank {
    const sections: array<Biquad>
    var numSections: uint8
    const firCoefficients: array<real>
    var firLength: uint8
    const delayLine: array<real>
    var delayIndex: uint8

    ghost predicate Valid()
      reads this, sections
    {
      && sections.Length == MaxSections
      && firCoefficients.Length == MaxTaps
      && delayLine.Length == MaxTaps
      && firCoefficients != delayLine
      && numSections <= MaxSections
      && forall i :: 0 <= i < MaxSections ==> WellFormed(sections[i])
    }

    /** The zero-initialised static storage. */
    constructor ()
      ensures Valid() && fresh(sections) && fresh(firCoefficients) && fresh(delayLine)
      ensures numSections == 0 && firLength == 0 && delayIndex == 0
      ensures forall i :: 0 <= i < MaxSections ==> sections[i] == ClearedSection
      ensures forall i :: 0 <= i < MaxTaps ==> firCoefficients[i] == 0.0 && delayLine[i] == 0.0
    {
      sections := new Biquad[MaxSections](_ => ClearedSection);
      firCoefficients := new real[MaxTaps](_ => 0.0);
      delayLine := new real[MaxTaps](_ => 0.0);
      numSections, firLength, delayIndex := 0, 0, 0;
    }

    /** `design_butterworth_bandpass`: min(4, (order+1)/2) identical sections
        with cleared histories; the other sections are left as they were. */
    method DesignButterworthBandpass(order: uint8, k: BandpassCoefficients)
      requires Valid()
      modifies this`numSections, sections
      ensures Valid()
      ensures numSections == SectionCount(order)
      ensures forall i :: 0 <= i < numSections ==> sections[i] == DesignedSection(k)
      ensures forall i :: numSections <= i < MaxSections ==> sections[i] == old(sections[i])
    {
      numSections := SectionCount(order);
      var i := 0;
      while i < numSections
        invariant 0 <= i <= numSections
        invariant numSections == SectionCount(order) && Valid()
        invariant forall j :: 0 <= j < i ==> sections[j] == DesignedSection(k)
        invariant forall j :: i <= j < MaxSections ==> sections[j] == old(sections[j])
      {
        sections[i] := DesignedSection(k);
        i := i + 1;
      }
    }

    /** The structural part of `design_fir_bandpass`: the tap count and one
        coefficient per tap; taps beyond the count are left as they were. */
    method DesignFirBandpass(order: uint8, ideal: int -> real, window: (nat, nat) -> real)
      requires Valid()
      modifies this`firLength, firCoefficients
      ensures Valid()
      ensures firLength == FirLength(order)
      ensures forall i :: 0 <= i < firLength ==> firCoefficients[i] == FirTap(ideal, window, i, firLength)
      ensures forall i :: firLength <= i < MaxTaps ==> firCoefficients[i] == old(firCoefficients[i])
    {
      firLength := FirLength(order);
      var i := 0;
      while i < firLength
        invariant 0 <= i <= firLength
        invariant firLength == FirLength(order) && Valid()
        invariant forall j :: 0 <= j < i ==> firCoefficients[j] == FirTap(ideal, window, j, firLength)
        invariant forall j :: i <= j < MaxTaps ==> firCoefficients[j] == old(firCoefficients[j])
      {
        var n := i - firLength / 2;
        firCoefficients[i] := ideal(n) * window(i, firLength);
        i := i + 1;
      }
    }

    /** `process_biquad` on section j: both histories shift, the coefficients
        and every other section stay as they were. */
    method ProcessBiquad(j: nat, input: real) returns (output: real)
      requires Valid() && j < MaxSections
      modifies sections
      ensures Valid()
      ensures output == BiquadOutput(old(sections[j]), input)
      ensures sections[j] == Shifted(old(sections[j]), input, output)
      ensures sections[j].b == old(sections[j].b) && sections[j].a == old(sections[j].a)
      ensures forall i :: 0 <= i < MaxSections && i != j ==> sections[i] == old(sections[i])
    {
      var s := sections[j];
      var x := [input, s.x[0], s.x[1]];
      var y := [s.y[0], s.y[0], s.y[1]];
      output := s.b[0] * x[0] + s.b[1] * x[1] + s.b[2] * x[2] - s.a[1] * y[1] - s.a[2] * y[2];
      sections[j] := Biquad(s.b, s.a, x, y[0 := output]);
    }

    /** The per-sample IIR cascade of the consumer loop: each designed section
        is fed the previous section's output, in order. */
    method FilterCascade(input: real) returns (output: real)
      requires Valid()
      modifies sections
      ensures Valid()
      ensures numSections == 0 ==> output == input
      ensures numSections > 0 ==> output == sections[numSections - 1].y[0]
      ensures CascadeStepped(sections[..], old(sections[..]), numSections as nat, input)
    {
      output := input;
      var j := 0;
      while j < numSections
        invariant 0 <= j <= numSections
        invariant Valid()
        invariant output == Feed(sections[..], j, input)
        invariant forall i :: 0 <= i < j ==> StageProcessed(sections[..], old(sections[..]), i, input)
        invariant forall i :: j <= i < MaxSections ==> sections[i] == old(sections[i])
      {
        ghost var before := sections[..];
        output := ProcessBiquad(j, output);
        forall i | 0 <= i < j + 1
          ensures StageProcessed(sections[..], old(sections[..]), i, input)
        {
          assert Feed(sections[..], i, input) == Feed(before, i, input);
          if i < j {
            assert StageProcessed(before, old(sections[..]), i, input);
          }
        }
        j := j + 1;
      }
    }

    /** `process_fir_filter`: the input goes into the delay line at the write
        index and nowhere else, the index advances modulo the tap count, and the
        output is the circular convolution with the coefficients, the newest
        input meeting the last coefficient. The tap count must not be 0: the
        source reduces the index modulo it. */
    method ProcessFir(input: real) returns (output: real)
      requires Valid() && firLength > 0
      modifies this`delayIndex, delayLine
      ensures Valid()
      ensures delayLine[..] == old(delayLine[..])[old(delayIndex) as int := input]
      ensures delayIndex as int == (old(delayIndex) as int + 1) % firLength as int
      ensures delayIndex < firLength
      ensures output == FirSum(delayLine[..], firCoefficients[..], delayIndex, firLength, firLength)
      ensures old(delayIndex) < firLength ==> delayLine[(delayIndex + firLength - 1) % firLength] == input
    {
      if delayIndex < firLength {
        NextIndex(delayIndex as nat, firLength as nat);
      }
      delayLine[delayIndex] := input;
      delayIndex := (delayIndex + 1) % firLength;
      ghost var line := delayLine[..];
      ghost var taps := firCoefficients[..];
      output := 0.0;
      var i := 0;
      while i < firLength
        invariant 0 <= i <= firLength
        invariant output == FirSum(line, taps, delayIndex as nat, firLength as nat, i as nat)
      {
        var sampleIndex := (delayIndex + i) % firLength;
        assert line[sampleIndex] == delayLine[sampleIndex] && taps[i] == firCoefficients[i];
        output := output + delayLine[sampleIndex] * firCoefficients[i];
        i := i + 1;
      }
    }
  }
}
