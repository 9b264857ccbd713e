/** Start-up of the signal chain (the table, the filter selected by the
    configuration and the phase increment) and the consumer's per-sample
    path: carrier generation, the optional IIR cascade and the conversion to
    a PIO timing word, over one audio slot. */
module Transmitter {
  import opened MachineInts
  import opened Config
  import opened Dds
  import opened Filters
  import opened Modulation
  import opened PioTiming

  /** Slot size of the consumer loop. */
  const SlotSamples: nat := 2048

  /** The FIR tap count after start-up: only the bp-fir filter mode designs
      the FIR; otherwise `fir_length` keeps its initial 0. */
  function FirLengthAfterSetup(config: TransmitterConfig): uint8
  {
    if config.filterMode == BandpassFir then FirLength(config.filterOrder) else 0
  }

  /** The section count after start-up: the bp-iir and elliptic modes both run
      the Butterworth design; otherwise `num_filter_sections` keeps its 0. */
  function SectionsAfterSetup(config: TransmitterConfig): uint8
  {
    if config.filterMode == BandpassIir || config.filterMode == BandpassElliptic
    then SectionCount(config.filterOrder) else 0
  }

  /** The signal-processing part of `main`: build the table, design the
      filter the configuration selects, and compute the phase increment. */
  method InitializeSignalProcessing(config: TransmitterConfig, levels: nat -> uint32,
                                    k: BandpassCoefficients, ideal: int -> real,
                                    window: (nat, nat) -> real)
    returns (modulator: Modulator, bank: FilterBank)
    requires TickRate(config.audioSampleRate, config.oversamplingRate) != 0
    ensures fresh(modulator) && fresh(modulator.table) && modulator.Valid()
    ensures fresh(bank) && fresh(bank.sections) && fresh(bank.firCoefficients) && fresh(bank.delayLine) && bank.Valid()
    ensures modulator.phase == 0 && modulator.sigmaError == 0
    ensures modulator.increment == PhaseIncrement(config.carrierFrequency, config.audioSampleRate, config.oversamplingRate)
    ensures forall i :: 0 <= i < TableSize ==> modulator.table[i] == Min(levels(i), MaxLevel)
    ensures bank.numSections == SectionsAfterSetup(config)
    ensures forall i :: 0 <= i < bank.numSections ==> bank.sections[i] == DesignedSection(k)
    ensures bank.firLength == FirLengthAfterSetup(config)
    ensures forall i :: 0 <= i < bank.firLength ==> bank.firCoefficients[i] == FirTap(ideal, window, i, bank.firLength)
    ensures bank.delayIndex == 0
  {
    modulator := new Modulator();
    modulator.GenerateSineLut(levels);
    bank := new FilterBank();
    if config.filterMode == BandpassIir || config.filterMode == BandpassElliptic {
      bank.DesignButterworthBandpass(config.filterOrder, k);
    } else if config.filterMode == BandpassFir {
      bank.DesignFirBandpass(config.filterOrder, ideal, window);
    }
    modulator.SetupPhaseIncrement(config);
  }

  /** As written, the best-quality preset selects the oversampled mode with
      the elliptic filter: the oversampled branch calls the FIR, yet no FIR
      was designed, so its index is reduced modulo a tap count of 0. */
  lemma BestQualityFirHasNoTaps(config: TransmitterConfig)
    ensures FirCalledAsWritten(ApplyBestQuality(config).signalMode, ApplyBestQuality(config).filterMode)
    ensures FirLengthAfterSetup(ApplyBestQuality(config)) == 0
  {
  }

  /** With the corrected guard, a valid configuration filters the
      oversampled carrier exactly when it selects the bp-fir filter, and then
      with 8 to 128 taps. The guard only removes the division by zero: the
      best-quality preset then skips the FIR, and no code path gives it the
      elliptic filtering of the oversampled signal its usage text announces. */
  lemma FirCalledOnlyWhenDesigned(config: TransmitterConfig)
    requires ValidConfig(config)
    ensures FirCalled(config.signalMode, config.filterMode, FirLengthAfterSetup(config))
        <==> config.signalMode == Oversampled && config.filterMode == BandpassFir
    ensures config.filterMode == BandpassFir ==> 8 <= FirLengthAfterSetup(config) <= 128
    ensures !FirCalled(ApplyBestQuality(config).signalMode, ApplyBestQuality(config).filterMode,
                       FirLengthAfterSetup(ApplyBestQuality(config)))
  {
    FirLengthForValidOrders(config.filterOrder);
  }

  /** The configurations whose samples depend only on the phase and the audio
      sample: no sigma-delta register, no FIR call and no IIR cascade. */
  predicate Memoryless(config: TransmitterConfig)
  {
    && config.signalMode != SigmaDelta
    && !FirCalledAsWritten(config.signalMode, config.filterMode)
    && config.filterMode != BandpassIir
  }

  /** The 12-bit sample of one audio sample at a given phase, for a
      memoryless configuration. */
  function MemorylessAmplitude(config: TransmitterConfig, table: seq<uint32>, phase: uint32, sample: int16,
                               platform: real -> uint32): uint32
    requires LevelTable(table) && Memoryless(config)
  {
    CarrierSample(config, table, phase, 0, sample, [], [], 0, 0, platform).output
  }

  /** The samples of the first `count` audio samples of a run from phase
      `start`, for a memoryless configuration: sample k is taken at the phase
      after k advances. */
  function MemorylessRun(config: TransmitterConfig, table: seq<uint32>, start: uint32, increment: uint32,
                         samples: seq<int16>, count: nat, platform: real -> uint32): (r: seq<uint32>)
    requires LevelTable(table) && Memoryless(config) && count <= |samples|
    ensures |r| == count
  {
    if count == 0 then []
    else
      MemorylessRun(config, table, start, increment, samples, count - 1, platform)
        + [MemorylessAmplitude(config, table, PhaseAfter(start, increment, count - 1), samples[count - 1], platform)]
  }

  /** Entry k of a memoryless run is the sample of audio sample k at the
      phase after k advances. */
  lemma {:induction false} MemorylessRunAt(config: TransmitterConfig, table: seq<uint32>, start: uint32,
                                           increment: uint32, samples: seq<int16>, count: nat,
                                           platform: real -> uint32, k: nat)
    requires LevelTable(table) && Memoryless(config) && k < count <= |samples|
    ensures MemorylessRun(config, table, start, increment, samples, count, platform)[k]
         == MemorylessAmplitude(config, table, PhaseAfter(start, increment, k), samples[k], platform)
  {
    if k < count - 1 {
      MemorylessRunAt(config, table, start, increment, samples, count - 1, platform, k);
    }
  }

  /** Without the sigma-delta branch and without a FIR call, the carrier
      sample ignores the register and the FIR state. */
  lemma CarrierSampleIgnoresState(config: TransmitterConfig, table: seq<uint32>, phase: uint32, error: uint32,
                                  sample: int16, line: seq<real>, taps: seq<real>, index: nat, length: nat,
                                  platform: real -> uint32)
    requires LevelTable(table)
    requires config.signalMode != SigmaDelta && !FirCalledAsWritten(config.signalMode, config.filterMode)
    ensures CarrierSample(config, table, phase, error, sample, line, taps, index, length, platform).output
         == CarrierSample(config, table, phase, 0, sample, [], [], 0, 0, platform).output
  {
  }

  /** The amplitude after the IIR cascade: the last designed section's new
      output (the input itself without sections) scaled back to 12 bits. */
  function CascadeAmplitude(sections: seq<Biquad>, count: uint8, generated: uint32,
                            platform: real -> uint32): uint32
    requires count as nat <= |sections|
    requires forall k :: 0 <= k < |sections| ==> WellFormed(sections[k])
  {
    ToUint32Cast(Feed(sections, count as nat, generated as real / 4095.0) * 4095.0, platform)
  }

  /** The bp-iir step of the consumer loop: the generated sample, normalised,
      runs through every designed section in order and the result is
      converted back to a 12-bit amplitude. Without sections the amplitude is
      the generated sample. */
  method ApplyIirFilter(generated: uint32, bank: FilterBank, platform: real -> uint32) returns (amplitude: uint32)
    requires bank.Valid()
    modifies bank.sections
    ensures bank.Valid()
    ensures amplitude == CascadeAmplitude(bank.sections[..], bank.numSections, generated, platform)
    ensures CascadeStepped(bank.sections[..], old(bank.sections[..]), bank.numSections as nat, generated as real / 4095.0)
    ensures bank.numSections == 0 ==> amplitude == generated
  {
    var level := generated as real / 4095.0;
    var filtered := bank.FilterCascade(level);
    amplitude := ToUint32Cast(filtered * 4095.0, platform);
    if bank.numSections == 0 {
      assert filtered * 4095.0 == generated as real;
    }
  }

  /** What the signal chain carries from one audio sample to the next: the
      sigma-delta register, the FIR delay line and its write index, and the
      IIR sections with their histories. */
  datatype ChainState = ChainState(error: uint32, line: seq<real>, index: nat, sections: seq<Biquad>)

  /** The chain state held by the generator and the filter bank. */
  function ChainOf(modulator: Modulator, bank: FilterBank): ChainState
    reads modulator, bank, bank.delayLine, bank.sections
  {
    ChainState(modulator.sigmaError, bank.delayLine[..], bank.delayIndex as nat, bank.sections[..])
  }

  /** Audio sample `sample`, taken at `phase`, carries the chain from
      `before` to `after`, generating `generated` and yielding `amplitude`:
      the generated sample and the new register are the carrier sample of
      `before`; the delay line takes the normalised level and the index
      advances exactly when the oversampled branch calls the FIR; in bp-iir
      mode every designed section is stepped once, in order, and the
      amplitude is the cascade output, otherwise the amplitude is the
      generated sample and the sections are untouched. */
  predicate ConsumerStep(config: TransmitterConfig, table: seq<uint32>, taps: seq<real>, firLength: nat,
                         numSections: uint8, platform: real -> uint32, phase: uint32, sample: int16,
                         before: ChainState, after: ChainState, generated: uint32, amplitude: uint32)
  {
    && LevelTable(table)
    && (FirCalledAsWritten(config.signalMode, config.filterMode) ==>
          0 < firLength <= |taps| && firLength <= |before.line| && before.index < |before.line|)
    && RegisterStep(generated, after.error)
       == CarrierSample(config, table, phase, before.error, sample, before.line, taps, before.index, firLength, platform)
    && (FirCalledAsWritten(config.signalMode, config.filterMode) ==>
          && after.line == before.line[before.index := Normalised(table[TableIndex(phase)],
                                                                  ModulationFactor(sample, config.modulationDepth))]
          && after.index == (before.index + 1) % firLength)
    && (!FirCalledAsWritten(config.signalMode, config.filterMode) ==>
          after.line == before.line && after.index == before.index)
    && (config.filterMode == BandpassIir ==>
          && numSections as nat <= |after.sections| == |before.sections|
          && (forall k :: 0 <= k < |after.sections| ==> WellFormed(after.sections[k]) && WellFormed(before.sections[k]))
          && amplitude == CascadeAmplitude(after.sections, numSections, generated, platform)
          && CascadeStepped(after.sections, before.sections, numSections as nat, generated as real / 4095.0))
    && (config.filterMode != BandpassIir ==> amplitude == generated && after.sections == before.sections)
  }

  /** One iteration of the consumer loop: generate the carrier sample, run it
      through the IIR cascade in bp-iir mode, and convert the amplitude into a
      timing word. The sample carries the chain state one step: the
      generated sample is the carrier sample of the state before the call;
      in bp-iir mode the amplitude is the cascade's output scaled back to 12
      bits, otherwise the generated sample itself, at most 4095, so the word
      is a well-formed pulse. */
  method ProcessSample(sample: int16, config: TransmitterConfig, modulator: Modulator,
                       bank: FilterBank, platform: real -> uint32)
    returns (generated: uint32, amplitude: uint32, word: uint32)
    requires modulator.Valid() && bank.Valid()
    requires FirCalledAsWritten(config.signalMode, config.filterMode) ==> bank.firLength > 0
    modifies modulator`phase, modulator`sigmaError, bank`delayIndex, bank.delayLine, bank.sections
    ensures modulator.Valid() && bank.Valid()
    ensures modulator.phase == Advance(old(modulator.phase), modulator.increment)
    ensures ConsumerStep(config, modulator.table[..], bank.firCoefficients[..], bank.firLength as nat,
                         bank.numSections, platform, old(modulator.phase), sample,
                         old(ChainOf(modulator, bank)), ChainOf(modulator, bank), generated, amplitude)
    ensures generated <= MaxLevel
    ensures bank.numSections == 0 ==> amplitude == generated
    ensures word == ConvertToPioTiming(amplitude)
    ensures config.filterMode != BandpassIir ==> WellFormedWord(word)
    ensures Memoryless(config) ==> amplitude == MemorylessAmplitude(config, modulator.table[..], old(modulator.phase), sample, platform)
  {
    ghost var before := ChainOf(modulator, bank);
    generated := modulator.GenerateAmSignal(sample, config, bank, platform);
    ghost var generatedState := ChainOf(modulator, bank);
    amplitude := generated;
    if config.filterMode == BandpassIir {
      amplitude := ApplyIirFilter(generated, bank, platform);
    }
    word := ConvertToPioTiming(amplitude);
    ghost var after := ChainOf(modulator, bank);
    assert after.error == generatedState.error && after.line == generatedState.line
        && after.index == generatedState.index;
    assert generatedState.sections == before.sections;
    if Memoryless(config) {
      CarrierSampleIgnoresState(config, modulator.table[..], old(modulator.phase), old(modulator.sigmaError), sample,
                                old(bank.delayLine[..]), bank.firCoefficients[..], old(bank.delayIndex) as nat,
                                bank.firLength as nat, platform);
    }
  }

  /** The first |generated| audio samples of a slot, sample j taken at the
      phase after j advances from `start`, carry the chain from `states[j]`
      to `states[j + 1]`, generating `generated[j]` and yielding
      `amplitudes[j]`. */
  predicate SlotSteps(config: TransmitterConfig, table: seq<uint32>, taps: seq<real>, firLength: nat,
                      numSections: uint8, platform: real -> uint32, start: uint32, increment: uint32,
                      samples: seq<int16>, states: seq<ChainState>, generated: seq<uint32>, amplitudes: seq<uint32>)
    decreases |generated|
  {
    && |states| == |generated| + 1 && |amplitudes| == |generated| <= |samples|
    && (|generated| > 0 ==>
          var n := |generated| - 1;
          && SlotSteps(config, table, taps, firLength, numSections, platform, start, increment, samples,
                       states[..n + 1], generated[..n], amplitudes[..n])
          && ConsumerStep(config, table, taps, firLength, numSections, platform, PhaseAfter(start, increment, n),
                          samples[n], states[n], states[n + 1], generated[n], amplitudes[n]))
  }

  /** One more step, taken at the phase after |generated| advances on the
      next audio sample from the last state of the run, extends the run. */
  lemma SlotStepsExtend(config: TransmitterConfig, table: seq<uint32>, taps: seq<real>, firLength: nat,
                        numSections: uint8, platform: real -> uint32, start: uint32, increment: uint32,
                        samples: seq<int16>, states: seq<ChainState>, generated: seq<uint32>,
                        amplitudes: seq<uint32>, phase: uint32, sample: int16, before: ChainState,
                        next: ChainState, g: uint32, a: uint32)
    requires SlotSteps(config, table, taps, firLength, numSections, platform, start, increment, samples,
                       states, generated, amplitudes)
    requires |generated| < |samples|
    requires phase == PhaseAfter(start, increment, |generated|)
    requires sample == samples[|generated|] && before == states[|generated|]
    requires ConsumerStep(config, table, taps, firLength, numSections, platform, phase, sample, before, next, g, a)
    ensures SlotSteps(config, table, taps, firLength, numSections, platform, start, increment, samples,
                      states + [next], generated + [g], amplitudes + [a])
  {
    var n := |generated|;
    var states', generated', amplitudes' := states + [next], generated + [g], amplitudes + [a];
    assert states'[..n + 1] == states && generated'[..n] == generated && amplitudes'[..n] == amplitudes;
    assert states'[n] == states[n] && states'[n + 1] == next && generated'[n] == g && amplitudes'[n] == a;
  }

  /** Step j of a run: sample j carries the chain from state j to state
      j + 1. */
  lemma {:induction false} SlotStepAt(config: TransmitterConfig, table: seq<uint32>, taps: seq<real>, firLength: nat,
                                      numSections: uint8, platform: real -> uint32, start: uint32, increment: uint32,
                                      samples: seq<int16>, states: seq<ChainState>, generated: seq<uint32>,
                                      amplitudes: seq<uint32>, j: nat)
    requires SlotSteps(config, table, taps, firLength, numSections, platform, start, increment, samples,
                       states, generated, amplitudes)
    requires j < |generated|
    ensures ConsumerStep(config, table, taps, firLength, numSections, platform, PhaseAfter(start, increment, j),
                         samples[j], states[j], states[j + 1], generated[j], amplitudes[j])
  {
    var n := |generated| - 1;
    if j < n {
      var states', generated', amplitudes' := states[..n + 1], generated[..n], amplitudes[..n];
      SlotStepAt(config, table, taps, firLength, numSections, platform, start, increment, samples,
                 states', generated', amplitudes', j);
      assert states'[j] == states[j] && states'[j + 1] == states[j + 1];
      assert generated'[j] == generated[j] && amplitudes'[j] == amplitudes[j];
    }
  }

  /** Outside bp-iir mode every amplitude of a run is a generated sample,
      so it fits in 12 bits. */
  lemma {:induction false} SlotStepsTwelveBit(config: TransmitterConfig, table: seq<uint32>, taps: seq<real>,
                                              firLength: nat, numSections: uint8, platform: real -> uint32,
                                              start: uint32, increment: uint32, samples: seq<int16>,
                                              states: seq<ChainState>, generated: seq<uint32>, amplitudes: seq<uint32>)
    requires SlotSteps(config, table, taps, firLength, numSections, platform, start, increment, samples,
                       states, generated, amplitudes)
    requires config.filterMode != BandpassIir
    ensures TwelveBit(amplitudes)
    decreases |generated|
  {
    if |generated| > 0 {
      var n := |generated| - 1;
      SlotStepsTwelveBit(config, table, taps, firLength, numSections, platform, start, increment, samples,
                         states[..n + 1], generated[..n], amplitudes[..n]);
      assert amplitudes == amplitudes[..n] + [amplitudes[n]];
      TwelveBitExtend(amplitudes[..n], amplitudes[n]);
    }
  }

  /** For a memoryless configuration a run's amplitudes are the memoryless
      run of its audio samples: sample j at the phase after j advances,
      whatever the register and filter state. */
  lemma {:induction false} SlotStepsMemoryless(config: TransmitterConfig, table: seq<uint32>, taps: seq<real>,
                                               firLength: nat, numSections: uint8, platform: real -> uint32,
                                               start: uint32, increment: uint32, samples: seq<int16>,
                                               states: seq<ChainState>, generated: seq<uint32>,
                                               amplitudes: seq<uint32>)
    requires SlotSteps(config, table, taps, firLength, numSections, platform, start, increment, samples,
                       states, generated, amplitudes)
    requires LevelTable(table) && Memoryless(config)
    ensures amplitudes == MemorylessRun(config, table, start, increment, samples, |amplitudes|, platform)
    decreases |generated|
  {
    if |generated| > 0 {
      var n := |generated| - 1;
      SlotStepsMemoryless(config, table, taps, firLength, numSections, platform, start, increment, samples,
                          states[..n + 1], generated[..n], amplitudes[..n]);
      var phase := PhaseAfter(start, increment, n);
      CarrierSampleIgnoresState(config, table, phase, states[n].error, samples[n], states[n].line, taps,
                                states[n].index, firLength, platform);
      assert amplitudes == amplitudes[..n] + [amplitudes[n]];
    }
  }

  /** One pass of the processing loop's body: process audio sample i, which
      carries the chain state one step, and store its timing word at
      position i of the word buffer, leaving the other words as they were. */
  method EmitSample(audio: array<int16>, words: array<uint32>, i: nat, config: TransmitterConfig,
                    modulator: Modulator, bank: FilterBank, platform: real -> uint32)
    returns (generated: uint32, amplitude: uint32)
    requires i < audio.Length && i < words.Length
    requires words != modulator.table
    requires modulator.Valid() && bank.Valid()
    requires FirCalledAsWritten(config.signalMode, config.filterMode) ==> bank.firLength > 0
    modifies words, modulator`phase, modulator`sigmaError, bank`delayIndex, bank.delayLine, bank.sections
    ensures modulator.Valid() && bank.Valid()
    ensures modulator.phase == Advance(old(modulator.phase), modulator.increment)
    ensures ConsumerStep(config, modulator.table[..], bank.firCoefficients[..], bank.firLength as nat,
                         bank.numSections, platform, old(modulator.phase), audio[i],
                         old(ChainOf(modulator, bank)), ChainOf(modulator, bank), generated, amplitude)
    ensures words[..] == old(words[..])[i := ConvertToPioTiming(amplitude)]
    ensures words[..i + 1] == old(words[..i]) + [ConvertToPioTiming(amplitude)]
    ensures config.filterMode != BandpassIir ==> amplitude <= MaxLevel
    ensures Memoryless(config) ==>
      amplitude == MemorylessAmplitude(config, modulator.table[..], old(modulator.phase), audio[i], platform)
  {
    var word;
    generated, amplitude, word := ProcessSample(audio[i], config, modulator, bank, platform);
    words[i] := word;
    assert words[..i + 1] == words[..i] + [word];
  }

  /** One pass of the processing loop with its record so far: sample i
      extends the run of chain states, generated samples and amplitudes by
      one step, and the words written so far stay the timing words of the
      amplitudes. The ghost parameters name the parts of the state the loop
      does not change. */
  method AdvanceSlot(audio: array<int16>, words: array<uint32>, i: nat, config: TransmitterConfig,
                     modulator: Modulator, bank: FilterBank, platform: real -> uint32,
                     ghost table: seq<uint32>, ghost taps: seq<real>, ghost firLength: nat, ghost numSections: uint8,
                     ghost start: uint32, ghost increment: uint32, ghost samples: seq<int16>,
                     ghost states: seq<ChainState>, ghost generated: seq<uint32>, ghost amplitudes: seq<uint32>)
    returns (ghost states': seq<ChainState>, ghost generated': seq<uint32>, ghost amplitudes': seq<uint32>)
    requires i < audio.Length && i < words.Length
    requires words != modulator.table
    requires modulator.Valid() && bank.Valid()
    requires FirCalledAsWritten(config.signalMode, config.filterMode) ==> bank.firLength > 0
    requires modulator.table[..] == table && bank.firCoefficients[..] == taps && audio[..] == samples
    requires bank.firLength as nat == firLength && bank.numSections == numSections && modulator.increment == increment
    requires |generated| == i && modulator.phase == PhaseAfter(start, increment, i)
    requires SlotSteps(config, table, taps, firLength, numSections, platform, start, increment, samples,
                       states, generated, amplitudes)
    requires states[i] == ChainOf(modulator, bank)
    requires words[..i] == TimingWords(amplitudes)
    modifies words, modulator`phase, modulator`sigmaError, bank`delayIndex, bank.delayLine, bank.sections
    ensures modulator.Valid() && bank.Valid()
    ensures modulator.phase == PhaseAfter(start, increment, i + 1)
    ensures |generated'| == i + 1
    ensures SlotSteps(config, table, taps, firLength, numSections, platform, start, increment, samples,
                      states', generated', amplitudes')
    ensures states'[0] == states[0] && states'[i + 1] == ChainOf(modulator, bank)
    ensures words[..i + 1] == TimingWords(amplitudes')
  {
    ghost var phase := modulator.phase;
    ghost var before := ChainOf(modulator, bank);
    var sampleGenerated, amplitude := EmitSample(audio, words, i, config, modulator, bank, platform);
    ghost var after := ChainOf(modulator, bank);
    SlotStepsExtend(config, table, taps, firLength, numSections, platform, start, increment, samples,
                    states, generated, amplitudes, phase, audio[i], before, after, sampleGenerated, amplitude);
    TimingWordsExtend(amplitudes, amplitude);
    states', generated', amplitudes' := states + [after], generated + [sampleGenerated], amplitudes + [amplitude];
  }

  /** The processing loop itself, over the parts of the state it does not
      change, named by the ghost parameters: a run of 2048 steps from the
      chain state before the call to the one after it, with word i the
      timing word of amplitude i. */
  method SlotLoop(audio: array<int16>, words: array<uint32>, config: TransmitterConfig,
                  modulator: Modulator, bank: FilterBank, platform: real -> uint32,
                  ghost table: seq<uint32>, ghost taps: seq<real>, ghost firLength: nat, ghost numSections: uint8,
                  ghost increment: uint32, ghost samples: seq<int16>)
    returns (ghost states: seq<ChainState>, ghost generated: seq<uint32>, ghost amplitudes: seq<uint32>)
    requires audio.Length == SlotSamples && words.Length == SlotSamples
    requires words != modulator.table
    requires modulator.Valid() && bank.Valid()
    requires FirCalledAsWritten(config.signalMode, config.filterMode) ==> bank.firLength > 0
    requires modulator.table[..] == table && bank.firCoefficients[..] == taps && audio[..] == samples
    requires bank.firLength as nat == firLength && bank.numSections == numSections && modulator.increment == increment
    modifies words, modulator`phase, modulator`sigmaError, bank`delayIndex, bank.delayLine, bank.sections
    ensures modulator.Valid() && bank.Valid()
    ensures modulator.phase == PhaseAfter(old(modulator.phase), increment, SlotSamples)
    ensures |generated| == SlotSamples
    ensures SlotSteps(config, table, taps, firLength, numSections, platform, old(modulator.phase), increment, samples,
                      states, generated, amplitudes)
    ensures states[0] == old(ChainOf(modulator, bank)) && states[SlotSamples] == ChainOf(modulator, bank)
    ensures words[..] == TimingWords(amplitudes)
  {
    ghost var start := modulator.phase;
    amplitudes, generated, states := [], [], [ChainOf(modulator, bank)];
    var i := 0;
    while i < SlotSamples
      invariant 0 <= i <= SlotSamples && |amplitudes| == |generated| == i && |states| == i + 1
      invariant modulator.Valid() && bank.Valid()
      invariant modulator.increment == increment && modulator.table[..] == table
      invariant bank.firCoefficients[..] == taps
      invariant bank.firLength as nat == firLength && bank.numSections == numSections
      invariant modulator.phase == PhaseAfter(start, increment, i)
      invariant states[0] == old(ChainOf(modulator, bank)) && states[i] == ChainOf(modulator, bank)
      invariant SlotSteps(config, table, taps, firLength, numSections, platform, start, increment, samples,
                          states, generated, amplitudes)
      invariant words[..i] == TimingWords(amplitudes)
    {
      states, generated, amplitudes := AdvanceSlot(audio, words, i, config, modulator, bank, platform, table, taps,
                                                   firLength, numSections, start, increment, samples,
                                                   states, generated, amplitudes);
      i := i + 1;
    }
    assert words[..] == words[..SlotSamples];
  }

  /** The processing loop over one audio slot. Audio sample i, taken at the
      phase after i advances, carries the chain from state i to state i + 1,
      starting from the state before the call and ending in the state after
      it; word i is the timing word of amplitude i. Outside bp-iir mode
      every amplitude is at most 4095, so every word holds a high time of
      1..63 ticks and a low time of 1..64 ticks. For a memoryless
      configuration amplitude i is the sample of audio sample i at the i-th
      phase. The word buffer and the carrier table are separate static arrays
      in the firmware; with both typed `uint32` here, that is stated. */
  method ProcessSlot(audio: array<int16>, words: array<uint32>, config: TransmitterConfig,
                     modulator: Modulator, bank: FilterBank, platform: real -> uint32)
    returns (ghost amplitudes: seq<uint32>, ghost generated: seq<uint32>, ghost states: seq<ChainState>)
    requires audio.Length == SlotSamples && words.Length == SlotSamples
    requires words != modulator.table
    requires modulator.Valid() && bank.Valid()
    requires FirCalledAsWritten(config.signalMode, config.filterMode) ==> bank.firLength > 0
    modifies words, modulator`phase, modulator`sigmaError, bank`delayIndex, bank.delayLine, bank.sections
    ensures modulator.Valid() && bank.Valid()
    ensures modulator.phase == PhaseAfter(old(modulator.phase), modulator.increment, SlotSamples)
    ensures |generated| == SlotSamples
    ensures SlotSteps(config, modulator.table[..], bank.firCoefficients[..], bank.firLength as nat, bank.numSections,
                      platform, old(modulator.phase), modulator.increment, audio[..], states, generated, amplitudes)
    ensures states[0] == old(ChainOf(modulator, bank)) && states[SlotSamples] == ChainOf(modulator, bank)
    ensures words[..] == TimingWords(amplitudes)
    ensures config.filterMode != BandpassIir ==>
      TwelveBit(amplitudes) && AllWellFormed(words[..])
    ensures Memoryless(config) ==>
      amplitudes == MemorylessRun(config, modulator.table[..], old(modulator.phase), modulator.increment, audio[..],
                                  SlotSamples, platform)
  {
    ghost var start := modulator.phase;
    ghost var table, taps, samples := modulator.table[..], bank.firCoefficients[..], audio[..];
    states, generated, amplitudes := SlotLoop(audio, words, config, modulator, bank, platform, table, taps,
                                              bank.firLength as nat, bank.numSections, modulator.increment, samples);
    if config.filterMode != BandpassIir {
      SlotStepsTwelveBit(config, table, taps, bank.firLength as nat, bank.numSections, platform, start,
                         modulator.increment, samples, states, generated, amplitudes);
      TimingWordsWellFormed(amplitudes);
    }
    if Memoryless(config) {
      SlotStepsMemoryless(config, table, taps, bank.firLength as nat, bank.numSections, platform, start,
                          modulator.increment, samples, states, generated, amplitudes);
    }
  }
}
