/** The option loop of `parse_command_line`. Option arguments arrive already
    converted (`atoi` / `atof` results); each numeric value is first stored into
    its fixed-width field and the range check is made on the stored value. */
module CommandLine {
  import opened MachineInts
  import opened Config
  import opened Stations

  datatype CliOption =
    | Frequency(arg: int32)          // -f, --frequency
    | StationName(callsign: string)  // -s, --station
    | Mode(name: string)             // -m, --mode
    | Depth(arg: int32)              // -d, --depth
    | Educational                    // -e
    | Verbose                        // -v
    | Help                           // -h
    | ListStations                   // --list-stations
    | Oversample(arg: int32)         // --oversample
    | EnablePredistortion            // --predistortion
    | Filter(name: string)           // --filter
    | Bandwidth(hz: real)            // --bandwidth
    | Order(arg: int32)              // --order
    | Spectrum                       // --spectrum
    | Harmonics                      // --harmonics
    | NoSafety                       // --no-safety
    | DummyLoadCheck                 // --dummy-load-check
    | MaxPower(arg: int32)           // --max-power
    | TimeLimit(arg: int32)          // --time-limit
    | BestQuality                    // --best-quality, --max-quality
    | Unrecognized                   // anything getopt_long reports as unknown

  /** What one option does: go on with a new configuration, stop after printing
      information (return 1), or stop with an error (return -1). */
  datatype OptionStep = Continue(config: TransmitterConfig) | ShowInfo | Reject

  /** The outcome of the whole parse, as `main` sees it. */
  datatype ParseResult = Parsed(config: TransmitterConfig) | InfoShown | Rejected

  function SignalModeNamed(name: string): (r: Option<SignalMode>)
  {
    if name == "simple" then Some(Simple)
    else if name == "square" then Some(Square)
    else if name == "sigma" then Some(SigmaDelta)
    else if name == "sine" then Some(SineWave)
    else if name == "predist" then Some(Predistortion)
    else if name == "oversample" then Some(Oversampled)
    else None
  }

  function FilterModeNamed(name: string): (r: Option<FilterMode>)
  {
    if name == "none" then Some(NoFilter)
    else if name == "lowpass" then Some(Lowpass)
    else if name == "bp-iir" then Some(BandpassIir)
    else if name == "bp-fir" then Some(BandpassFir)
    else if name == "bp-ellip" then Some(BandpassElliptic)
    else if name == "multiband" then Some(Multiband)
    else None
  }

  datatype Option<T> = None | Some(value: T)

  /** One iteration of the `switch` in the option loop. */
  function ApplyOption(c: TransmitterConfig, opt: CliOption): OptionStep
  {
    match opt
    case Frequency(v) =>
      var f := ToUint32(v);
      if f < MinCarrierFrequency || f > MaxCarrierFrequency then Reject
      else Continue(c.(carrierFrequency := f))
    case StationName(callsign) =>
      var f := StationFrequency(callsign);
      if f == 0 then Reject else Continue(c.(carrierFrequency := f))
    case Mode(name) =>
      (match SignalModeNamed(name)
       case Some(m) => Continue(c.(signalMode := m))
       case None => Reject)
    case Depth(v) =>
      var d := ToUint8(v);
      if d > 100 then Reject else Continue(c.(modulationDepth := d))
    case Educational => Continue(c.(educationalMode := true))
    case Verbose => Continue(c.(verboseAnalysis := true))
    case Help => ShowInfo
    case ListStations => ShowInfo
    case Oversample(v) =>
      var o := ToUint8(v);
      if o < 1 || o > 32 then Reject else Continue(c.(oversamplingRate := o))
    case EnablePredistortion => Continue(c.(enablePredistortion := true))
    case Filter(name) =>
      (match FilterModeNamed(name)
       case Some(m) => Continue(c.(filterMode := m))
       case None => Reject)
    case Bandwidth(hz) => Continue(c.(filterBandwidth := hz))
    case Order(v) =>
      var o := ToUint8(v);
      if o < 1 || o > 16 then Reject else Continue(c.(filterOrder := o))
    case Spectrum => Continue(c.(spectrumAnalysis := true))
    case Harmonics => Continue(c.(harmonicAnalysis := true))
    case NoSafety => Continue(c.(enableSafetyLimits := false))
    case DummyLoadCheck => Continue(c.(dummyLoadCheck := true))
    case MaxPower(v) => Continue(c.(maxPowerMw := ToUint32(v)))
    case TimeLimit(v) => Continue(c.(transmissionTimeLimit := ToUint32(v)))
    case BestQuality => Continue(ApplyBestQuality(c))
    case Unrecognized => Reject
  }

  /** The options applied left to right, stopping at the first that stops the parse. */
  function ApplyOptions(c: TransmitterConfig, options: seq<CliOption>): OptionStep
    decreases |options|
  {
    if options == [] then Continue(c)
    else match ApplyOption(c, options[0])
      case Continue(next) => ApplyOptions(next, options[1..])
      case ShowInfo => ShowInfo
      case Reject => Reject
  }

  /** The full parse: the options, then the first operand (if any) names the WAV file. */
  function CommandLineOutcome(options: seq<CliOption>, operands: seq<string>, c: TransmitterConfig): ParseResult
  {
    match ApplyOptions(c, options)
    case Continue(next) => Parsed(if operands != [] then next.(wavFilename := operands[0]) else next)
    case ShowInfo => InfoShown
    case Reject => Rejected
  }

  /** An accepted option never leaves a range-checked field out of range. */
  lemma ApplyOptionKeepsValid(c: TransmitterConfig, opt: CliOption)
    requires ValidConfig(c)
    ensures ApplyOption(c, opt).Continue? ==> ValidConfig(ApplyOption(c, opt).config)
  {
    if opt.StationName? {
      FoundStationInRange(opt.callsign);
    }
  }

  /** A parse that gets through every option leaves a valid configuration valid. */
  lemma {:induction false} ApplyOptionsKeepValid(c: TransmitterConfig, options: seq<CliOption>)
    requires ValidConfig(c)
    ensures ApplyOptions(c, options).Continue? ==> ValidConfig(ApplyOptions(c, options).config)
    decreases |options|
  {
    if options != [] {
      ApplyOptionKeepsValid(c, options[0]);
      if ApplyOption(c, options[0]).Continue? {
        ApplyOptionsKeepValid(ApplyOption(c, options[0]).config, options[1..]);
      }
    }
  }

  /** The range checks run after truncation to `uint8_t`: a depth is accepted exactly
      when its low byte is at most 100, so `--depth 356` is accepted and stores 100. */
  lemma DepthCheckedAfterTruncation(c: TransmitterConfig, v: int32)
    ensures ApplyOption(c, Depth(v)).Continue? <==> v % 256 <= 100
    ensures ApplyOption(c, Depth(356)) == Continue(c.(modulationDepth := 100))
    ensures ApplyOption(c, Depth(-156)) == Continue(c.(modulationDepth := 100))
  {
  }

  /** Likewise for the oversampling rate and the filter order. */
  lemma ByteOptionsCheckedAfterTruncation(c: TransmitterConfig, v: int32)
    ensures ApplyOption(c, Oversample(v)).Continue? <==> 1 <= v % 256 <= 32
    ensures ApplyOption(c, Order(v)).Continue? <==> 1 <= v % 256 <= 16
    ensures ApplyOption(c, Order(262)) == Continue(c.(filterOrder := 6))
  {
  }

  /** `--best-quality` given on its own yields a configuration the banner recognises. */
  lemma BestQualityOptionRecognised(operands: seq<string>)
    ensures CommandLineOutcome([BestQuality], operands, DefaultConfig).Parsed?
    ensures IsBestQuality(CommandLineOutcome([BestQuality], operands, DefaultConfig).config)
  {
    assert ApplyOptions(DefaultConfig, [BestQuality]) == ApplyOptions(ApplyBestQuality(DefaultConfig), []);
  }

  /** The `getopt_long` loop of `parse_command_line`, over the already decoded options. */
  method ParseCommandLine(options: seq<CliOption>, operands: seq<string>, initial: TransmitterConfig)
    returns (result: ParseResult)
    ensures result == CommandLineOutcome(options, operands, initial)
    ensures ValidConfig(initial) && result.Parsed? ==> ValidConfig(result.config)
  {
    var config := initial;
    var i := 0;
    while i < |options|
      invariant 0 <= i <= |options|
      invariant ApplyOptions(config, options[i..]) == ApplyOptions(initial, options)
      invariant ValidConfig(initial) ==> ValidConfig(config)
    {
      if ValidConfig(config) {
        ApplyOptionKeepsValid(config, options[i]);
      }
      assert options[i..][1..] == options[i + 1..];
      match ApplyOption(config, options[i]) {
        case Continue(next) =>
          config := next;
        case ShowInfo =>
          return InfoShown;
        case Reject =>
          return Rejected;
      }
      i := i + 1;
    }
    if |operands| > 0 {
      config := config.(wavFilename := operands[0]);
    }
    return Parsed(config);
  }
}
