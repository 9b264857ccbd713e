/** The transmitter configuration (`transmitter_config_t`), its defaults, the
    best-quality preset and the predicate that recognises that preset. */
module Config {
  import opened MachineInts

  datatype SignalMode = Simple | Square | SigmaDelta | SineWave | Predistortion | Oversampled

  datatype FilterMode = NoFilter | Lowpass | BandpassIir | BandpassFir | BandpassElliptic | Multiband

  /** Every field of `transmitter_config_t`; C `float` fields are reals. */
  datatype TransmitterConfig = TransmitterConfig(
    carrierFrequency: uint32,
    audioSampleRate: uint32,
    modulationDepth: uint8,
    wavFilename: string,
    signalMode: SignalMode,
    filterMode: FilterMode,
    oversamplingRate: uint8,
    enablePredistortion: bool,
    educationalMode: bool,
    verboseAnalysis: bool,
    spectrumAnalysis: bool,
    harmonicAnalysis: bool,
    dummyLoadCheck: bool,
    enableSafetyLimits: bool,
    maxPowerMw: uint32,
    transmissionTimeLimit: uint32,
    filterBandwidth: real,
    filterOrder: uint8,
    filterRippleDb: real,
    filterStopbandDb: real)

  const MinCarrierFrequency: int := 10000
  const MaxCarrierFrequency: int := 30000000

  /** The static initialiser of `config`. */
  const DefaultConfig: TransmitterConfig := TransmitterConfig(
    carrierFrequency := 774000,
    audioSampleRate := 44100,
    modulationDepth := 80,
    wavFilename := "audio.wav",
    signalMode := Simple,
    filterMode := NoFilter,
    oversamplingRate := 8,
    enablePredistortion := false,
    educationalMode := true,
    verboseAnalysis := false,
    spectrumAnalysis := false,
    harmonicAnalysis := false,
    dummyLoadCheck := true,
    enableSafetyLimits := true,
    maxPowerMw := 1,
    transmissionTimeLimit := 300,
    filterBandwidth := 20000.0,
    filterOrder := 6,
    filterRippleDb := 0.5,
    filterStopbandDb := 60.0)

  /** The ranges the option parser enforces on the fields it range-checks. */
  predicate ValidConfig(c: TransmitterConfig)
  {
    && MinCarrierFrequency <= c.carrierFrequency <= MaxCarrierFrequency
    && c.modulationDepth <= 100
    && 1 <= c.oversamplingRate <= 32
    && 1 <= c.filterOrder <= 16
  }

  /** The check made when the startup banner decides whether best-quality mode is active. */
  predicate IsBestQuality(c: TransmitterConfig)
  {
    && c.signalMode == Oversampled
    && c.filterMode == BandpassElliptic
    && c.enablePredistortion
    && c.oversamplingRate >= 16
    && c.verboseAnalysis
    && c.spectrumAnalysis
    && c.harmonicAnalysis
  }

  /** The `--best-quality` / `--max-quality` preset: it is recognised by
      IsBestQuality and keeps a valid configuration valid. */
  function ApplyBestQuality(c: TransmitterConfig): (r: TransmitterConfig)
    ensures IsBestQuality(r)
    ensures ValidConfig(c) ==> ValidConfig(r)
    ensures r.carrierFrequency == c.carrierFrequency && r.wavFilename == c.wavFilename
  {
    c.(signalMode := Oversampled,
       filterMode := BandpassElliptic,
       enablePredistortion := true,
       oversamplingRate := 16,
       verboseAnalysis := true,
       spectrumAnalysis := true,
       harmonicAnalysis := true,
       filterBandwidth := 15000.0,
       filterOrder := 8,
       modulationDepth := 85)
  }

  lemma DefaultConfigValid()
    ensures ValidConfig(DefaultConfig) && !IsBestQuality(DefaultConfig)
  {
  }
}
