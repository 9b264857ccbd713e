# AM transmitter core, modelled in Dafny

This project models the signal core of `comprehensive_am_transmitter.c`, an
educational AM transmitter for the Raspberry Pi Pico. The transmitter reads a
WAV file from an SD card and turns each audio sample into one pulse on a GPIO
pin. The pulse is driven by a PIO state machine. The modules follow the
program's stages:

- `MachineInts` (`machine_ints.dfy`): the C fixed-width integer types.
  Unsigned wrap-around is written out as reduction modulo 2^n.
- `Config` (`config.dfy`): `transmitter_config_t`, its static defaults, the
  best-quality preset and the `is_best_quality` check made by the banner.
- `Stations` (`stations.dfy`): the Melbourne station table and the
  case-insensitive callsign search `find_station_frequency`.
- `CommandLine` (`command_line.dfy`): the option loop of `parse_command_line`.
  Each numeric argument is stored in its fixed-width field first; the range
  check then runs on the stored value.
- `Dds` (`dds.dfy`): the 32-bit phase accumulator, the 12-bit table index
  taken from its top bits, and the phase increment of
  `setup_pio_transmitter`, including its 64-bit wrap.
- `Filters` (`filters.dfy`): the filter bank.
  - The biquad sections and their history shift in `process_biquad`.
  - The IIR cascade of the consumer loop.
  - The structural part of both filter designs.
  - The FIR ring buffer of `process_fir_filter`.
- `Modulation` (`modulation.dfy`): `generate_am_signal`.
  - The amplitude envelope.
  - The sine, square, sigma-delta, pre-distorted and oversampled branches.
  - The phase advance and the 12-bit clamp.
  - The waveform table built by `generate_sine_lut`.
- `PioTiming` (`pio_timing.dfy`): `convert_to_pio_timing` on `uint32_t`.
  Products and differences wrap modulo 2^32, and the bitwise OR of the
  packing is written out bit by bit.
- `Producer` (`producer.dfy`): the producer half of `transmit_wav_file`.
  - The chunk size.
  - The in-place stereo downmix.
  - The copy into the free audio slot with zero padding.
  - The ready flag, the slot toggle and the `samples_read` count.
- `Session` (`session.dfy`): the transmission start time, the active flag and
  the safety cutoff of `monitor_transmission`.
- `Transmitter` (`transmitter.dfy`): start-up of the signal chain in `main`,
  and the per-sample path of the consumer core over one audio slot.
  - `ChainState` is what the chain carries from one sample to the next: the
    sigma-delta register, the FIR delay line and its write index, and the IIR
    sections. `ChainOf` reads it from the modulator and the filter bank.
  - `ConsumerStep` states one sample's step: the generated sample, the
    amplitude and the new chain state, as functions of the phase, the audio
    sample and the old chain state.
  - `SlotSteps` chains 2048 such steps into the run of one slot.

Some values are modelled rather than computed:

- C `float` values are exact `real`s.
- Values computed by `sinf`, `cosf`, `sinhf` and `logf` are parameters:
  - the truncated sine levels of the table;
  - the three bandpass coefficients;
  - the ideal response and the window of the FIR taps.
- A `float` to `uint32_t` cast truncates toward zero when the value lies in
  (-1, 2^32), as section 6.3.1.4 of the C11 standard defines it, so a value
  in (-1, 0) gives 0. Outside that range C leaves the result undefined, and a
  `platform` parameter stands for it.

## Model

| member | source | states |
|---|---|---|
| Config.ApplyBestQuality | comprehensive_am_transmitter.c:465-476 | the preset is recognised by `is_best_quality`, keeps a configuration that passed the range checks inside those ranges, and keeps the carrier and the WAV file name |
| Config.IsBestQuality | comprehensive_am_transmitter.c:1199-1205 | the banner's test: oversampled signal, elliptic filter mode, pre-distortion on, oversampling at least 16, verbose analysis on, spectrum analysis on and harmonic analysis on (`Config.ApplyBestQuality` and `CommandLine.BestQualityOptionRecognised` prove the preset passes it) |
| Config.DefaultConfigValid | comprehensive_am_transmitter.c:154-175 | the static defaults satisfy every range check and are not the best-quality preset |
| Stations.FirstMatch | comprehensive_am_transmitter.c:295-302 | the table walked front to back, returning the first case-insensitive callsign match's frequency and 0 past the end (characterised by `Stations.FirstMatchSpec`) |
| Stations.FirstMatchSpec | comprehensive_am_transmitter.c:295-302 | with non-zero table frequencies the search returns 0 exactly when no callsign matches case-insensitively, and otherwise the frequency of the first matching station |
| Stations.StationFrequenciesInRange | comprehensive_am_transmitter.c:52-68 | every station frequency lies in the accepted 10 kHz - 30 MHz carrier range, so none collides with the 0 answer |
| Stations.FoundStationInRange | comprehensive_am_transmitter.c:295-302 | any frequency the lookup returns other than 0 lies in the carrier range the `-f` option accepts |
| Stations.SearchTable | comprehensive_am_transmitter.c:295-302 | the search loop returns the first-match frequency; 0 exactly when no callsign matches, otherwise the frequency of a matching station |
| Stations.FindStationFrequency | comprehensive_am_transmitter.c:295-302 | the lookup over the Melbourne table: 0 iff no station matches, otherwise a matching station's frequency |
| Stations.LookupIgnoresCase | comprehensive_am_transmitter.c:297 | "3aw" finds 3AW's 693 kHz and "xyz" finds nothing |
| CommandLine.ApplyOption | comprehensive_am_transmitter.c:334-488 | one case of the option switch: store the converted value in its fixed-width field and range-check the stored value, rejecting out-of-range values and unknown mode, filter or station names, stopping on help or the station list, and applying the preset for `--best-quality` (`CommandLine.ApplyOptionKeepsValid` proves what it keeps) |
| CommandLine.ApplyOptionKeepsValid | comprehensive_am_transmitter.c:335-477 | an accepted option leaves frequency in 10000..30000000, depth at most 100, oversampling in 1..32 and order in 1..16 |
| CommandLine.ApplyOptionsKeepValid | comprehensive_am_transmitter.c:333-489 | the same holds after any sequence of options the loop gets through |
| CommandLine.DepthCheckedAfterTruncation | comprehensive_am_transmitter.c:373-379 | the depth is accepted iff its low byte is at most 100, so 356 and -156 are accepted and store 100 |
| CommandLine.ByteOptionsCheckedAfterTruncation | comprehensive_am_transmitter.c:397-403 | oversampling and order are checked on their low byte, so order 262 is accepted as 6 (also lines 432-438) |
| CommandLine.BestQualityOptionRecognised | comprehensive_am_transmitter.c:465-476 | `--best-quality` alone parses to a configuration the banner check of lines 1199-1205 recognises |
| CommandLine.ParseCommandLine | comprehensive_am_transmitter.c:304-497 | the loop's result is the left-to-right fold of the options (stopping at help or an error), with the first operand as the WAV file, and a valid start stays valid |
| Dds.TableIndex | comprehensive_am_transmitter.c:660 | the index is below 4096 and selects the 2^20-wide phase band the accumulator lies in |
| Dds.Advance | comprehensive_am_transmitter.c:706 | the accumulator moves by the increment, or by the increment less 2^32 exactly when the sum overflows |
| Dds.PhaseAfterClosedForm | comprehensive_am_transmitter.c:706 | after k samples the accumulator equals (p0 + k * increment) mod 2^32 |
| Dds.PhaseIncrement | comprehensive_am_transmitter.c:757-759 | carrier * 4096 * 2^32 taken modulo 2^64, divided by the tick rate and stored in 32 bits (its wrap is characterised by the three lemmas below) |
| Dds.PhaseIncrementExactBelowTwoPow20 | comprehensive_am_transmitter.c:757-759 | below 2^20 Hz the 64-bit product is exact and the increment is the truncated quotient |
| Dds.PhaseIncrementWrapsModTwoPow20 | comprehensive_am_transmitter.c:757-759 | the increment depends only on the carrier modulo 2^20 Hz: the 64-bit product wraps |
| Dds.CarrierAtTwoPow20GetsZeroIncrement | comprehensive_am_transmitter.c:757-759 | a 1048576 Hz carrier, inside the accepted range, gets increment 0 and the accumulator never moves |
| Filters.DesignedSection | comprehensive_am_transmitter.c:549-559 | a designed section has b[1] = 0, a[0] = 1, cleared histories and a numerator summing to 0 |
| Filters.DesignedSectionRejectsDc | comprehensive_am_transmitter.c:549-554 | when a section's input repeats after two samples, the feed-forward part cancels and only feedback remains |
| Filters.SectionCount | comprehensive_am_transmitter.c:536-537 | the count is at most 4, equals 4 iff the order is at least 7, and otherwise is the order halved, rounded up |
| Filters.SectionCountForValidOrders | comprehensive_am_transmitter.c:536-537 | orders 1..16 give 1 to 4 sections |
| Filters.FirLength | comprehensive_am_transmitter.c:570-571 | `order * 8` stored in a `uint8_t` is 8 * (order mod 32) |
| Filters.FirLengthForValidOrders | comprehensive_am_transmitter.c:570-571 | orders 1..16 give an even tap count from 8 to 128 |
| Filters.TapOffsetsNotMirrored | comprehensive_am_transmitter.c:581-582 | with an even tap count, tap i and its mirror sample offsets n and -n-1, so the taps are not symmetric |
| Filters.FilterBank.constructor | comprehensive_am_transmitter.c:191-194 | sections, coefficients and delay line start zeroed, with no sections and no taps |
| Filters.FilterBank.DesignButterworthBandpass | comprehensive_am_transmitter.c:524-566 | exactly the counted sections become the designed section, and the remaining sections are untouched |
| Filters.FilterBank.DesignFirBandpass | comprehensive_am_transmitter.c:569-597 | the tap count is set and each tap is the ideal response at its offset times its window value; later taps are untouched |
| Filters.FilterBank.ProcessBiquad | comprehensive_am_transmitter.c:600-618 | x becomes [input, old x0, old x1], y becomes [output, old y0, old y1], the coefficients and the other sections are unchanged |
| Filters.FilterBank.FilterCascade | comprehensive_am_transmitter.c:938-942 | every designed section is stepped once, fed the previous section's new output, and the result is the last section's output; without sections the input passes through |
| Filters.FilterBank.ProcessFir | comprehensive_am_transmitter.c:621-634 | the input replaces exactly the cell at the old index, the index advances modulo the tap count and stays below it, the newest sample sits just behind the new index, and the output is the circular convolution with the coefficients |
| Modulation.ModulationFactor | comprehensive_am_transmitter.c:647-652 | the envelope factor lies in [0.1, 1.9] and is 1 for zero depth or a silent sample |
| Modulation.Predistort | comprehensive_am_transmitter.c:638-642 | the polynomial x - 0.1 x^3 + 0.05 x^5 (bounded by `Modulation.PredistortBounds`) |
| Modulation.PredistortBounds | comprehensive_am_transmitter.c:638-642 | on the envelope's deviation range the pre-distortion polynomial stays in (-1, 1.1) |
| Modulation.PredistortedFactor | comprehensive_am_transmitter.c:686 | the pre-distorted envelope is positive and below 2.1, so its product with a table level casts without undefined behaviour |
| Modulation.Scaled | comprehensive_am_transmitter.c:662-663 | a level times a factor below 2.1 truncates to a value at most 8599 and within 1 below the exact product |
| Modulation.ScaledMonotone | comprehensive_am_transmitter.c:662-663 | a larger table level never scales to a smaller output |
| Modulation.Clamp | comprehensive_am_transmitter.c:709 | the result is at most 4095 and differs from its input only by cutting it to 4095 |
| Modulation.SigmaDeltaStep | comprehensive_am_transmitter.c:672-680 | the corrected step: with a signed register the output is 0 or 4095, 4095 iff the corrected value exceeds 2048; the output plus the new register equals the corrected value, and in-range products keep the register within [-2047, 2048] |
| Modulation.SigmaDeltaStepAsWritten | comprehensive_am_transmitter.c:672-680 | with the `uint32_t` register the output is 4095 iff (product + register) mod 2^32 exceeds 2048, and output plus register is preserved modulo 2^32 |
| Modulation.SigmaDeltaRegisterWraps | comprehensive_am_transmitter.c:676-679 | a corrected value strictly between 2048 and 4095 leaves the unsigned register at or above 2^32 - 2046, after which even a zero product outputs 4095 |
| Modulation.SigmaDeltaSilenceAfterOvershoot | comprehensive_am_transmitter.c:676-679 | products 3000 then 0 give 4095, 4095 as written and 4095, 0 with the signed register |
| Modulation.SigmaDeltaRun | comprehensive_am_transmitter.c:672-680 | corrected step (signed register): a run of steps yields one output per product, each 0 or 4095 |
| Modulation.SigmaDeltaRunConserves | comprehensive_am_transmitter.c:672-680 | corrected step (signed register): over any run the outputs plus the final register equal the products plus the initial register |
| Modulation.SigmaDeltaRunBounded | comprehensive_am_transmitter.c:672-680 | corrected step (signed register): with products in 0..4095 the register never leaves [-2047, 2048] |
| Modulation.SigmaDeltaTracksInput | comprehensive_am_transmitter.c:672-680 | corrected step (signed register): from a cleared register the total output stays within 2048 of the total input |
| Modulation.Modulate | comprehensive_am_transmitter.c:657-709 | the output is at most 4095; square outputs 0 while bit 31 of the phase is clear; only sigma-delta touches the register, as one step of the `uint32_t` quantiser as written; sine and simple output the clamped scaled level, pre-distortion the clamped pre-distorted level, oversampled the clamped cast of the filtered value |
| Modulation.CarrierSample | comprehensive_am_transmitter.c:645-712 | one call of the generator from the state before it, through the envelope, the FIR when the oversampled branch calls it and the mode's branch: the output is at most 4095 and only the sigma-delta branch changes the register |
| Modulation.UnfilteredOversampledIsSine | comprehensive_am_transmitter.c:692-700 | unfiltered, the oversampled branch outputs exactly what the sine branch outputs |
| Modulation.UnmodulatedSineIsTable | comprehensive_am_transmitter.c:657-663 | at zero depth the sine branch outputs the table entry itself |
| Modulation.SquareFollowsTopBit | comprehensive_am_transmitter.c:666-670 | the square output is non-zero iff bit 31 of the phase is set |
| Modulation.Modulator.constructor | comprehensive_am_transmitter.c:188-190 | the table, the accumulator and the sigma-delta register start at 0 |
| Modulation.Modulator.GenerateSineLut | comprehensive_am_transmitter.c:504-521 | entry i is the truncated sine level limited to 4095, so every entry is at most 4095 |
| Modulation.Modulator.SetupPhaseIncrement | comprehensive_am_transmitter.c:756-759 | the increment is the wrapped 64-bit quotient of the increment formula |
| Modulation.Modulator.GenerateAmSignal | comprehensive_am_transmitter.c:645-712 | the output and the new `uint32_t` register are the carrier sample of the state before the call: the table entry at the pre-advance phase, the envelope, the FIR whenever oversampled mode has any filter mode, and the mode's branch; the output is at most 4095; the phase advances by the increment modulo 2^32; exactly when the FIR runs, the delay line takes the normalised level at the old index and the index advances modulo the tap count |
| PioTiming.ConvertToPioTiming | comprehensive_am_transmitter.c:971-980 | for amplitudes up to 4095 the word's upper half is the high count and its lower 16 bits the low count; high is in 1..63 and low in 1..64; the sum is 64 from amplitude 64 on, and (1, 64) below it |
| PioTiming.BitOrDisjoint | comprehensive_am_transmitter.c:979 | OR-ing a value shifted left by n bits with a value below 2^n is adding them |
| PioTiming.BitOrBelow | comprehensive_am_transmitter.c:979 | the OR of two n-bit values is an n-bit value, so the packed word fits a `uint32_t` |
| PioTiming.TimingWordAt | comprehensive_am_transmitter.c:946-948 | word i of a slot's words is the timing word of amplitude i |
| PioTiming.TimingWordsWellFormed | comprehensive_am_transmitter.c:971-980 | a slot of amplitudes within 12 bits gives only words with 1..63 high and 1..64 low ticks |
| PioTiming.TimingMonotone | comprehensive_am_transmitter.c:973-977 | a louder amplitude never shortens the high time nor lengthens the low time |
| PioTiming.TimingExtremes | comprehensive_am_transmitter.c:971-980 | amplitude 0 gives (1, 64), a 65-tick period, and 4095 gives (63, 1) |
| Producer.BytesToReadAsWritten | comprehensive_am_transmitter.c:1026-1027 | the request as written: the whole 8192-byte file buffer for mono, half of it for stereo (its consequences in `Producer.ChunkSizeAsWrittenMismatch`) |
| Producer.BytesToRead | comprehensive_am_transmitter.c:1026-1027 | the corrected request is one slot of mono samples: 4096 bytes for mono, 8192 for stereo, never more than the file buffer |
| Producer.ChunkSizeAsWrittenMismatch | comprehensive_am_transmitter.c:1026-1051 | as written a full mono read yields 4096 samples of which 2048 are copied, and a full stereo read fills only half a slot |
| Producer.ChunkFitsSlot | comprehensive_am_transmitter.c:1032-1051 | with the corrected request nothing read is dropped, and a full read fills exactly one slot |
| Producer.Average | comprehensive_am_transmitter.c:1037 | the downmixed sample lies between the two channel samples and is their mean rounded toward zero |
| Producer.Slot | comprehensive_am_transmitter.c:1051-1066 | a filled slot has 2048 samples: the chunk's samples first (at most 2048), zeros after them |
| Producer.DownmixStereo | comprehensive_am_transmitter.c:1035-1040 | positions below n/2 hold the averaged frames of the original buffer, positions from n/2 on are unchanged |
| Producer.BufferExchange.constructor | comprehensive_am_transmitter.c:178-184 | slot A is current and neither slot is ready |
| Producer.BufferExchange.Fill | comprehensive_am_transmitter.c:1051-1069 | the current slot gets the padded chunk and its ready flag; the other slot and its flag are unchanged; the current slot toggles |
| Producer.BufferExchange.PrepareChunk | comprehensive_am_transmitter.c:1032-1070 | after a read of at most the file buffer, the current slot holds the padded mono chunk (downmixed when stereo, cut to 2048 samples when longer), the other slot and its flag are unchanged, the slot toggles, and `samples_read` grows by the chunk's sample count modulo 2^32; after a read of at most the corrected request the chunk fits the slot |
| Session.ElapsedSeconds | comprehensive_am_transmitter.c:834 | the `uint32_t` difference of the millisecond clock and the start time, in whole seconds (`Session.ElapsedAcrossClockWrap` proves it exact across a wrap) |
| Session.SafetyCutoff | comprehensive_am_transmitter.c:847 | limits enabled and the elapsed seconds at least the time limit (`Session.CutoffIffLimitReached` restates it in milliseconds) |
| Session.ElapsedAcrossClockWrap | comprehensive_am_transmitter.c:833-834 | the unsigned subtraction gives the true elapsed whole seconds across a wrap of the millisecond clock |
| Session.CutoffIffLimitReached | comprehensive_am_transmitter.c:846-850 | the cutoff fires iff limits are enabled and at least 1000 * limit ms have passed |
| Session.TransmissionSession.constructor | comprehensive_am_transmitter.c:185 | the session starts inactive |
| Session.TransmissionSession.Start | comprehensive_am_transmitter.c:1013-1014 | the session is active from the current time |
| Session.TransmissionSession.Monitor | comprehensive_am_transmitter.c:832-852 | the session stays active iff it was active and the cutoff does not fire |
| Transmitter.InitializeSignalProcessing | comprehensive_am_transmitter.c:1254-1263 | the table is built; bp-iir and elliptic design the sections; bp-fir designs the taps; every other mode leaves 0 sections and 0 taps; the increment is set |
| Transmitter.BestQualityFirHasNoTaps | comprehensive_am_transmitter.c:697-698 | as written the best-quality configuration calls the FIR while it has 0 taps (preset at lines 465-476, start-up at 1256-1261) |
| Transmitter.FirCalledOnlyWhenDesigned | comprehensive_am_transmitter.c:1256-1261 | with the corrected guard a valid configuration calls the FIR iff it is oversampled with bp-fir, then with 8..128 taps; the best-quality preset then skips the FIR, which avoids the division by 0 but not the missing elliptic filtering |
| Transmitter.MemorylessRunAt | comprehensive_am_transmitter.c:934-935 | for a configuration without register, FIR call or IIR cascade, sample k of a run is the carrier sample of audio sample k at the phase after k advances |
| Transmitter.ApplyIirFilter | comprehensive_am_transmitter.c:937-943 | every designed section is stepped once, in order, on the normalised sample, and the amplitude is the last output scaled back to 12 bits; without sections it is the generated sample |
| Transmitter.ProcessSample | comprehensive_am_transmitter.c:935-948 | the sample carries the chain state (register, delay line and index, sections) one `ConsumerStep`: the generated sample and the new register are the carrier sample of the old state; exactly when the FIR runs, the delay line takes the normalised level at the old index and the index advances modulo the tap count; in bp-iir every designed section is stepped once, in order, and the amplitude is the cascade output, otherwise the amplitude is the generated sample (at most 4095, so the word is well formed) and the sections are unchanged; the word is the timing word of the amplitude; without register, FIR or cascade the amplitude depends only on the phase and the audio sample |
| Transmitter.EmitSample | comprehensive_am_transmitter.c:935-948 | audio sample i carries the chain state one `ConsumerStep` from the old state to the new one, returning the generated sample and the amplitude; word i becomes the timing word of the amplitude and the other words keep their values; the accumulator advances once |
| Transmitter.SlotStepsExtend | comprehensive_am_transmitter.c:934-949 | a step on the next audio sample, at the next phase and from the run's last state, extends the run by one |
| Transmitter.SlotStepAt | comprehensive_am_transmitter.c:934-949 | in a run, audio sample j at the phase after j advances carries the chain from state j to state j + 1, generating sample j and amplitude j |
| Transmitter.SlotStepsTwelveBit | comprehensive_am_transmitter.c:934-949 | outside bp-iir every amplitude of a run is a generated sample, so within 12 bits |
| Transmitter.SlotStepsMemoryless | comprehensive_am_transmitter.c:934-949 | without register, FIR call or cascade, amplitude j of a run is the carrier sample of audio sample j at the phase after j advances, whatever the chain states |
| Transmitter.AdvanceSlot | comprehensive_am_transmitter.c:934-949 | one pass of the loop extends the run by sample i's step and keeps the words written so far the timing words of the amplitudes |
| Transmitter.SlotLoop | comprehensive_am_transmitter.c:934-949 | the loop makes a run of 2048 steps from the chain state before it to the one after it, at phases advancing from the starting accumulator, and word i is the timing word of amplitude i |
| Transmitter.ProcessSlot | comprehensive_am_transmitter.c:934-949 | the slot is a run of 2048 steps: audio sample i, at the phase after i advances, carries the chain from state i to state i + 1, state 0 being the register, delay line, index and sections before the call and state 2048 those after it; word i is the timing word of amplitude i; the accumulator advances 2048 times; outside bp-iir every amplitude fits 12 bits and every word has 1..63 high and 1..64 low ticks; without register, FIR or cascade amplitude i is the carrier sample of audio sample i at the phase after i advances |

## Left out

- Floating point: samples are exact reals, so `float` rounding is not modelled.
  - The clamps and bounds proved hold for the exact values.
- Transcendental values are parameters, so nothing is claimed about the
  shape of the sine table or the filter responses. These are the values of
  `sinf` in `generate_sine_lut`, the `cosf`/`sinf`/`sinhf`/`logf`
  coefficient formulas of the bandpass design, and the windowed-sinc tap
  values.
- FIR coefficient symmetry is not claimed. With an even tap count the code
  does not produce symmetric taps (see `Filters.TapOffsetsNotMirrored`).
- Undefined `float` to `uint32_t` casts of filter outputs at or below -1
  (lines 700 and 943) are a `platform` parameter. No bound is claimed for
  the bp-iir path.
- Modulation.SigmaDeltaStep: the corrected register is an unbounded integer.
  Products above 4095 (an envelope above 1 at a table peak) make it grow
  without bound, where an `int32_t` register would eventually overflow.
- The two-core handoff is not modelled:
  - `core1_signal_processing`'s wait and slot selection;
  - the producer's wait loop (lines 1043-1046);
  - `volatile` flags and concurrency in general.
  `Producer.BufferExchange.Fill` is the sequential step after the wait.
- Hardware and SDK calls are not modelled:
  - PIO program and state-machine setup, including the clock divider;
  - GPIO and LEDs, DMA, the FIFO-full polling and `pio_sm_put`;
  - `sleep_*` and the clock. The clock reading is a parameter of
    `Session.TransmissionSession.Monitor` and `Start`.
- File I/O is not modelled: SD mount, `f_open`/`f_read`, and
  `read_wav_header`. The number of bytes read is a parameter of
  `PrepareChunk`.
- Text output and glue are not modelled:
  - `print_usage`, `list_melbourne_stations`, `display_startup_info`,
    `analyze_signal_quality` and all progress printing;
  - the `safety_check` prompt;
  - `getopt_long`, `atoi` and `atof`. Options arrive decoded as
    `CliOption` values carrying the converted integers.
- The `samples_processed` counter of the consumer is not modelled.
- The elliptic mode runs the Butterworth design, but the consumer cascades
  sections only in bp-iir mode. The model reproduces this: elliptic
  sections are designed and never used.
- The clamp `if (fir_length > 256)` on a `uint8_t` can never fire and is
  not modelled. The wrap it was meant to catch is in `Filters.FirLength`.
- Modulation.Modulator.GenerateAmSignal: requires a designed FIR whenever
  the oversampled branch calls it. As written, the best-quality preset
  reaches `% fir_length` with 0 taps, a division by zero in C, so that
  configuration is outside the contract of the generator and of
  `Transmitter.ProcessSample`, `EmitSample` and `ProcessSlot` (see Findings).
- The elliptic filtering of the oversampled signal that the best-quality
  usage text announces (lines 224 and 479) exists in no code path and is not
  modelled.
- Transmitter.ProcessSlot: with the sigma-delta register, a FIR call or the
  IIR cascade, amplitude i is tied to audio sample i through the chain
  states the slot returns, one step per sample, not by a closed form over
  the slot's audio.

## Findings

| source | as written | input that shows it | evidently intended | confidence | as-written member | corrected member |
|---|---|---|---|---|---|---|
| comprehensive_am_transmitter.c:676-679 | the sigma-delta error register is `uint32_t`: a negative residue is stored as a value near 2^32 and compared unsigned with 2048 | products 3000 then 0 from a cleared register: outputs 4095, 4095 | a signed error register, so the second output is 0 and the average output tracks the input | high (not executed) | Modulation.SigmaDeltaRegisterWraps | Modulation.SigmaDeltaTracksInput |
| comprehensive_am_transmitter.c:697-698 | the oversampled branch calls `process_fir_filter` for every filter mode but none, while `fir_length` is set only by the bp-fir design; `% fir_length` then divides by 0 | `--best-quality` (oversampled mode, elliptic filter, no FIR designed) | filter the oversampled signal with the filter the configuration designed, the elliptic filtering the usage text promises at lines 224 and 479; the corrected guard in the model only avoids the division by 0 | high (not executed) | Transmitter.BestQualityFirHasNoTaps | Transmitter.FirCalledOnlyWhenDesigned |
| comprehensive_am_transmitter.c:1026-1027 | the read size is halved for stereo instead of doubled: a mono read fills 4096 samples of which 2048 are copied (while `samples_read` counts 4096), and a stereo read fills half a slot | any mono file: every full read drops 2048 samples | request one slot of mono samples: 4096 bytes for mono, 8192 bytes for stereo | high (not executed) | Producer.ChunkSizeAsWrittenMismatch | Producer.ChunkFitsSlot |
