/** The per-sample carrier generator `generate_am_signal`: a 32-bit phase
    accumulator indexing a 4096-entry waveform table, the amplitude envelope,
    and the five output branches (sine, square, sigma-delta, pre-distorted,
    oversampled with FIR filtering), followed by the phase advance and the
    12-bit output clamp. C `float` arithmetic is modelled by exact reals. */
module Modulation {
  import opened MachineInts
  import opened Config
  import opened Dds
  import opened Filters

  /** Full scale of the 12-bit output. */
  const MaxLevel: int := 4095

  /** Decision threshold of the sigma-delta quantiser. */
  const SigmaThreshold: int := 2048

  /** Phase values with bit 31 set are the upper half of the 32-bit range. */
  const HalfTurn: int := 0x8000_0000

  /** A C conversion `(uint32_t)x` of a float (C11 section 6.3.1.4): defined
      when x lies in (-1, 2^32), where it truncates toward zero, so a value
      in (-1, 0) gives 0; outside that range C leaves the result undefined
      and `platform` stands for whatever the target produces. */
  function ToUint32Cast(x: real, platform: real -> uint32): (r: uint32)
    ensures 0.0 <= x < TWO_TO_THE_32 as real ==> r as real <= x < r as real + 1.0
    ensures -1.0 < x < 0.0 ==> r == 0
    ensures !(-1.0 < x < TWO_TO_THE_32 as real) ==> r == platform(x)
  {
    if -1.0 < x < TWO_TO_THE_32 as real then (if x < 0.0 then 0 else x.Floor) else platform(x)
  }

  /** `1 + (depth / 100) * (sample / 32768)`, clamped to [0.1, 1.9]. */
  function ModulationFactor(sample: int16, depth: uint8): (m: real)
    ensures 0.1 <= m <= 1.9
    ensures depth == 0 || sample == 0 ==> m == 1.0
  {
    var raw := 1.0 + (depth as real / 100.0) * (sample as real / 32768.0);
    if raw < 0.1 then 0.1 else if raw > 1.9 then 1.9 else raw
  }

  /** `apply_predistortion`: the polynomial x - 0.1 x^3 + 0.05 x^5. */
  function Predistort(x: real): real
  {
    x - 0.1 * x * x * x + 0.05 * x * x * x * x * x
  }

  /** Products of non-negative reals respect upper bounds. */
  lemma ProductAtMost(a: real, b: real, boundA: real, boundB: real)
    requires 0.0 <= a <= boundA && 0.0 <= b <= boundB
    ensures 0.0 <= a * b <= boundA * boundB
  {
    assert a * b <= boundA * b;
    assert boundA * b <= boundA * boundB;
  }

  /** On the envelope's deviation range the polynomial stays within (-1, 1.1). */
  lemma PredistortBounds(x: real)
    requires -0.9 <= x <= 0.9
    ensures -1.0 < Predistort(x) < 1.1
  {
    var magnitude := if x < 0.0 then -x else x;
    var s := magnitude * magnitude;
    assert x * x == s;
    ProductAtMost(magnitude, magnitude, 0.9, 0.9);
    var c := magnitude * s;
    ProductAtMost(magnitude, s, 0.9, 0.81);
    var f := c * s;
    ProductAtMost(c, s, 0.729, 0.81);
    if x >= 0.0 {
      assert Predistort(x) == x - 0.1 * c + 0.05 * f;
      assert c <= x by {
        ProductAtMost(magnitude, s, magnitude, 1.0);
      }
    } else {
      assert Predistort(x) == x + 0.1 * c - 0.05 * f;
    }
  }

  /** The pre-distorted envelope `apply_predistortion(m - 1) + 1`: positive
      and below 2.1, so scaling a table level by it needs no undefined cast. */
  function PredistortedFactor(m: real): (p: real)
    requires 0.1 <= m <= 1.9
    ensures 0.0 < p < 2.1
  {
    PredistortBounds(m - 1.0);
    Predistort(m - 1.0) + 1.0
  }

  /** `(uint32_t)(level * factor)` for a table level and a non-negative
      factor below 2.1: the product is in range, so the cast truncates it. */
  function Scaled(level: nat, factor: real): (r: nat)
    requires level <= MaxLevel && 0.0 <= factor < 2.1
    ensures r as real <= level as real * factor < r as real + 1.0
    ensures r < 8600
  {
    ProductBound(level, factor);
    (level as real * factor).Floor
  }

  lemma ProductBound(level: nat, factor: real)
    requires level <= MaxLevel && 0.0 <= factor < 2.1
    ensures 0.0 <= level as real * factor < 8600.0
  {
    assert level as real * factor <= 4095.0 * factor;
  }

  /** A larger level never scales to a smaller output. */
  lemma ScaledMonotone(low: nat, high: nat, factor: real)
    requires low <= high <= MaxLevel && 0.0 <= factor < 2.1
    ensures Scaled(low, factor) <= Scaled(high, factor)
  {
    assert low as real * factor <= high as real * factor;
  }

  /** The final `if (output > 4095) output = 4095`. */
  function Clamp(x: uint32): (r: uint32)
    ensures r <= MaxLevel
    ensures x <= MaxLevel ==> r == x
    ensures x > MaxLevel ==> r == MaxLevel
  {
    if x > MaxLevel then MaxLevel else x
  }

  /** An output sample and the sigma-delta error register after it. */
  datatype Step = Step(output: uint32, error: int)

  /** One step of the sigma-delta quantiser with a signed error register:
      the output is 0 or full scale, and what it misses of the corrected value
      is carried into the next step. From a bounded register and an in-range
      product the register stays bounded. */
  function SigmaDeltaStep(product: int, error: int): (r: Step)
    ensures r.output == 0 || r.output == MaxLevel
    ensures r.output == MaxLevel <==> product + error > SigmaThreshold
    ensures r.output + r.error == product + error
    ensures 0 <= product <= MaxLevel && -2047 <= error <= 2048 ==> -2047 <= r.error <= 2048
  {
    var corrected := product + error;
    var output := if corrected > SigmaThreshold then MaxLevel else 0;
    Step(output, corrected - output)
  }

  /** The sigma-delta step as written: the error register is a `uint32_t`, so
      a negative residue is stored as a large positive number and the
      comparison with 2048 is unsigned. */
  datatype RegisterStep = RegisterStep(output: uint32, error: uint32)

  function SigmaDeltaStepAsWritten(product: uint32, error: uint32): (r: RegisterStep)
    ensures r.output == 0 || r.output == MaxLevel
    ensures r.output == MaxLevel <==> (product + error) % TWO_TO_THE_32 > SigmaThreshold
    ensures (r.output + r.error) % TWO_TO_THE_32 == (product + error) % TWO_TO_THE_32
  {
    var corrected := (product + error) % TWO_TO_THE_32;
    var output := if corrected > SigmaThreshold then MaxLevel else 0;
    RegisterStep(output, (corrected - output) % TWO_TO_THE_32)
  }

  /** Whenever the corrected value lies strictly between 2048 and 4095, the
      register as written wraps to at least 2^32 - 2046, and the following
      step then outputs full scale even for a zero product. */
  lemma SigmaDeltaRegisterWraps(product: uint32, error: uint32)
    requires SigmaThreshold < (product + error) % TWO_TO_THE_32 < MaxLevel
    ensures SigmaDeltaStepAsWritten(product, error).error >= TWO_TO_THE_32 - 2046
    ensures SigmaDeltaStepAsWritten(0, SigmaDeltaStepAsWritten(product, error).error).output == MaxLevel
  {
  }

  /** A product of 3000 followed by a silent sample: as written both outputs
      are full scale; with a signed register the second output is 0, since
      the first step already overshot by 1095. */
  lemma SigmaDeltaSilenceAfterOvershoot()
    ensures SigmaDeltaStepAsWritten(3000, 0).output == MaxLevel
    ensures SigmaDeltaStepAsWritten(0, SigmaDeltaStepAsWritten(3000, 0).error).output == MaxLevel
    ensures SigmaDeltaStep(3000, 0) == Step(MaxLevel, -1095)
    ensures SigmaDeltaStep(0, SigmaDeltaStep(3000, 0).error).output == 0
  {
  }

  /** The outputs of consecutive sigma-delta steps and the final register. */
  datatype Run = Run(outputs: seq<int>, error: int)

  function SigmaDeltaRun(products: seq<int>, error: int): (r: Run)
    ensures |r.outputs| == |products|
    ensures forall i :: 0 <= i < |r.outputs| ==> r.outputs[i] == 0 || r.outputs[i] == MaxLevel
    decreases |products|
  {
    if |products| == 0 then Run([], error)
    else
      var first := SigmaDeltaStep(products[0], error);
      var rest := SigmaDeltaRun(products[1..], first.error);
      Run([first.output] + rest.outputs, rest.error)
  }

  function Sum(xs: seq<int>): int
    decreases |xs|
  {
    if |xs| == 0 then 0 else xs[0] + Sum(xs[1..])
  }

  /** Nothing is lost: the outputs plus the final register add up to the
      products plus the initial register. */
  lemma {:induction false} SigmaDeltaRunConserves(products: seq<int>, error: int)
    ensures Sum(SigmaDeltaRun(products, error).outputs) + SigmaDeltaRun(products, error).error
         == Sum(products) + error
    decreases |products|
  {
    if |products| > 0 {
      var first := SigmaDeltaStep(products[0], error);
      SigmaDeltaRunConserves(products[1..], first.error);
    }
  }

  /** With in-range products the register never leaves [-2047, 2048]. */
  lemma {:induction false} SigmaDeltaRunBounded(products: seq<int>, error: int)
    requires forall i :: 0 <= i < |products| ==> 0 <= products[i] <= MaxLevel
    requires -2047 <= error <= 2048
    ensures -2047 <= SigmaDeltaRun(products, error).error <= 2048
    decreases |products|
  {
    if |products| > 0 {
      var first := SigmaDeltaStep(products[0], error);
      SigmaDeltaRunBounded(products[1..], first.error);
    }
  }

  /** Starting from a cleared register, the total output of any run of
      in-range products is within 2048 of the total input: the quantiser
      tracks the input on average. */
  lemma SigmaDeltaTracksInput(products: seq<int>)
    requires forall i :: 0 <= i < |products| ==> 0 <= products[i] <= MaxLevel
    ensures -2048 <= Sum(SigmaDeltaRun(products, 0).outputs) - Sum(products) <= 2047
  {
    SigmaDeltaRunConserves(products, 0);
    SigmaDeltaRunBounded(products, 0);
  }

  /** `waveform_lut[i] / 4095.0f * modulated`, the value the oversampled
      branch passes to the FIR. */
  function Normalised(level: nat, m: real): real
  {
    level as real / 4095.0 * m
  }

  /** Whether the oversampled branch runs the FIR: as written, whenever any
      filter mode is selected. */
  predicate FirCalledAsWritten(mode: SignalMode, filterMode: FilterMode)
  {
    mode == Oversampled && filterMode != NoFilter
  }

  /** A corrected guard: the FIR is also skipped while it has no taps, since
      `process_fir_filter` reduces its index modulo the tap count. */
  predicate FirCalled(mode: SignalMode, filterMode: FilterMode, firLength: uint8)
  {
    FirCalledAsWritten(mode, filterMode) && firLength > 0
  }

  /** One sample of `generate_am_signal` before the phase advance. `level` is
      the table entry at the pre-advance phase, `m` the envelope factor,
      `error` the `uint32_t` sigma-delta register and `filtered` the value the
      oversampled branch converts to 12 bits. */
  function Modulate(mode: SignalMode, phase: uint32, level: nat, m: real, error: uint32,
                    filtered: real, platform: real -> uint32): (r: RegisterStep)
    requires level <= MaxLevel && 0.1 <= m <= 1.9
    ensures r.output <= MaxLevel
    ensures mode != SigmaDelta ==> r.error == error
    ensures mode == SigmaDelta ==> r == SigmaDeltaStepAsWritten(Scaled(level, m), error)
    ensures mode == Square && phase < HalfTurn ==> r.output == 0
    ensures (mode == Simple || mode == SineWave) ==> r.output == Clamp(Scaled(level, m))
    ensures mode == Predistortion ==> r.output == Clamp(Scaled(level, PredistortedFactor(m)))
    ensures mode == Oversampled ==> r.output == Clamp(ToUint32Cast(filtered * 4095.0, platform))
  {
    match mode
    case Simple => RegisterStep(Clamp(Scaled(level, m)), error)
    case SineWave => RegisterStep(Clamp(Scaled(level, m)), error)
    case Square => RegisterStep(if phase >= HalfTurn then Clamp(Scaled(MaxLevel, m)) else 0, error)
    case SigmaDelta =>
      var s := SigmaDeltaStepAsWritten(Scaled(level, m), error);
      RegisterStep(Clamp(s.output), s.error)
    case Predistortion => RegisterStep(Clamp(Scaled(level, PredistortedFactor(m))), error)
    case Oversampled => RegisterStep(Clamp(ToUint32Cast(filtered * 4095.0, platform)), error)
  }

  /** The value the oversampled branch converts to 12 bits, as a function of
      the FIR state before the sample: the normalised level itself, or, when
      the FIR runs, its output once the level has been pushed into the delay
      line at `index` and the index has advanced modulo the tap count. */
  function OversampledValue(fir: bool, x: real, line: seq<real>, taps: seq<real>, index: nat, length: nat): real
    requires fir ==> 0 < length <= |taps| && length <= |line| && index < |line|
  {
    if fir then FirSum(line[index := x], taps, (index + 1) % length, length, length) else x
  }

  /** A table of 4096 levels, none above full scale. */
  predicate LevelTable(table: seq<uint32>)
  {
    |table| == TableSize && forall i :: 0 <= i < |table| ==> table[i] <= MaxLevel
  }

  /** Everything `generate_am_signal` computes for one audio sample from the
      state before the call: the table entry at the phase's top 12 bits, the
      envelope, the FIR when the oversampled branch calls it, and the mode's
      branch, giving the output and the new sigma-delta register. */
  function CarrierSample(config: TransmitterConfig, table: seq<uint32>, phase: uint32, error: uint32,
                         sample: int16, line: seq<real>, taps: seq<real>, index: nat, length: nat,
                         platform: real -> uint32): (r: RegisterStep)
    requires LevelTable(table)
    requires FirCalledAsWritten(config.signalMode, config.filterMode) ==>
               0 < length <= |taps| && length <= |line| && index < |line|
    ensures r.output <= MaxLevel
    ensures config.signalMode != SigmaDelta ==> r.error == error
  {
    var level := table[TableIndex(phase)];
    var m := ModulationFactor(sample, config.modulationDepth);
    var filtered := OversampledValue(FirCalledAsWritten(config.signalMode, config.filterMode),
                                     Normalised(level, m), line, taps, index, length);
    Modulate(config.signalMode, phase, level, m, error, filtered, platform)
  }

  /** Without filtering, the oversampled branch produces exactly what the
      plain sine branch produces: the division by 4095 and the
      multiplication by 4095 cancel. */
  lemma UnfilteredOversampledIsSine(phase: uint32, level: nat, m: real, error: uint32, platform: real -> uint32)
    requires level <= MaxLevel && 0.1 <= m <= 1.9
    ensures Modulate(Oversampled, phase, level, m, error, Normalised(level, m), platform)
         == Modulate(SineWave, phase, level, m, error, Normalised(level, m), platform)
  {
    assert Normalised(level, m) * 4095.0 == level as real * m;
  }

  /** At zero modulation depth the sine branch reproduces the table. */
  lemma UnmodulatedSineIsTable(phase: uint32, level: nat, error: uint32, filtered: real, platform: real -> uint32)
    requires level <= MaxLevel
    ensures Modulate(SineWave, phase, level, ModulationFactor(0, 0), error, filtered, platform).output == level
  {
  }

  /** In the square branch the upper half of every carrier period is the
      full-scale level scaled by the envelope (clamped), the lower half 0. */
  lemma SquareFollowsTopBit(phase: uint32, level: nat, m: real, error: uint32, filtered: real, platform: real -> uint32)
    requires level <= MaxLevel && 0.1 <= m <= 1.9
    ensures Modulate(Square, phase, level, m, error, filtered, platform).output > 0 <==> phase >= HalfTurn
  {
    if phase >= HalfTurn {
      assert MaxLevel as real * m >= 409.5;
    }
  }

  /** The generator's state: `waveform_lut`, `phase_accumulator`,
      `phase_increment` and the sigma-delta error register. */
  class Modulator {
    const table: array<uint32>
    var phase: uint32
    var increment: uint32
    var sigmaError: uint32

    ghost predicate Valid()
      reads this, table
    {
      LevelTable(table[..])
    }

    /** The zero-initialised static storage. */
    constructor ()
      ensures Valid() && fresh(table)
      ensures phase == 0 && increment == 0 && sigmaError == 0
      ensures forall i :: 0 <= i < TableSize ==> table[i] == 0
    {
      table := new uint32[TableSize](_ => 0);
      phase, increment, sigmaError := 0, 0, 0;
    }

    /** `generate_sine_lut`: entry i is the truncated level `levels(i)` of the
        sine at angle 2 pi i / 4096, limited to 4095. */
    method GenerateSineLut(levels: nat -> uint32)
      requires Valid()
      modifies table
      ensures Valid()
      ensures forall i :: 0 <= i < TableSize ==> table[i] == Min(levels(i), MaxLevel)
    {
      var i := 0;
      while i < TableSize
        invariant 0 <= i <= TableSize
        invariant forall j :: 0 <= j < i ==> table[j] == Min(levels(j), MaxLevel)
        invariant forall j :: i <= j < TableSize ==> table[j] == old(table[j])
      {
        var amplitude := levels(i);
        if amplitude > MaxLevel {
          amplitude := MaxLevel;
        }
        table[i] := amplitude;
        i := i + 1;
      }
    }

    /** The phase-increment computation of `setup_pio_transmitter`. The tick
        rate is the divisor, so it must not be 0. */
    method SetupPhaseIncrement(config: TransmitterConfig)
      requires TickRate(config.audioSampleRate, config.oversamplingRate) != 0
      modifies this`increment
      ensures increment == PhaseIncrement(config.carrierFrequency, config.audioSampleRate, config.oversamplingRate)
    {
      var lutSize := TableSize;
      var product := (config.carrierFrequency * lutSize * TWO_TO_THE_32) % TWO_TO_THE_64;
      var divisor := (config.audioSampleRate * config.oversamplingRate) % TWO_TO_THE_32;
      increment := (product / divisor) % TWO_TO_THE_32;
    }

    /** `generate_am_signal`: the output and the new sigma-delta register are
        the carrier sample of the state before the call, the phase advances
        by the increment modulo 2^32, and the FIR delay line takes the
        normalised level exactly when the oversampled branch calls the
        filter. The source reduces the FIR index modulo the tap count, so
        that call needs a designed FIR. */
    method GenerateAmSignal(sample: int16, config: TransmitterConfig, bank: FilterBank,
                            platform: real -> uint32) returns (output: uint32)
      requires Valid() && bank.Valid()
      requires FirCalledAsWritten(config.signalMode, config.filterMode) ==> bank.firLength > 0
      modifies this`phase, this`sigmaError, bank`delayIndex, bank.delayLine
      ensures bank.Valid()
      ensures output <= MaxLevel
      ensures phase == Advance(old(phase), increment)
      ensures RegisterStep(output, sigmaError)
           == CarrierSample(config, table[..], old(phase), old(sigmaError), sample, old(bank.delayLine[..]),
                            bank.firCoefficients[..], old(bank.delayIndex) as nat, bank.firLength as nat, platform)
      ensures FirCalledAsWritten(config.signalMode, config.filterMode) ==>
        && bank.delayLine[..] == old(bank.delayLine[..])[old(bank.delayIndex) as int :=
             Normalised(table[TableIndex(old(phase))], ModulationFactor(sample, config.modulationDepth))]
        && bank.delayIndex as int == (old(bank.delayIndex) as int + 1) % bank.firLength as int
      ensures !FirCalledAsWritten(config.signalMode, config.filterMode) ==>
        bank.delayLine[..] == old(bank.delayLine[..]) && bank.delayIndex == old(bank.delayIndex)
    {
      var modulated := ModulationFactor(sample, config.modulationDepth);
      var level := table[TableIndex(phase)];
      var filtered := Normalised(level, modulated);
      if FirCalledAsWritten(config.signalMode, config.filterMode) {
        filtered := bank.ProcessFir(filtered);
      }
      var step := Modulate(config.signalMode, phase, level, modulated, sigmaError, filtered, platform);
      output, sigmaError := step.output, step.error;
      phase := Advance(phase, increment);
    }
  }
}
