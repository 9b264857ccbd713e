/** The transmission session: its start time and active flag, and the safety
    time limit that `monitor_transmission` enforces from a free-running
    32-bit millisecond clock. */
module Session {
  import opened MachineInts
  import opened Config

  const MillisecondsPerSecond: nat := 1000

  /** `(current_time - transmission_start_time) / 1000` on `uint32_t`. */
  function ElapsedSeconds(now: uint32, start: uint32): uint32
  {
    ((now - start) % TWO_TO_THE_32) / MillisecondsPerSecond
  }

  /** Whether the monitor stops the transmission. */
  predicate SafetyCutoff(config: TransmitterConfig, now: uint32, start: uint32)
  {
    config.enableSafetyLimits && ElapsedSeconds(now, start) >= config.transmissionTimeLimit
  }

  /** The unsigned subtraction survives a wrap of the millisecond clock: if
      fewer than 2^32 ms have passed since the start, the elapsed seconds
      are the true elapsed time in whole seconds. */
  lemma ElapsedAcrossClockWrap(start: uint32, elapsedMs: nat)
    requires elapsedMs < TWO_TO_THE_32
    ensures ElapsedSeconds((start + elapsedMs) % TWO_TO_THE_32, start) == elapsedMs / MillisecondsPerSecond
  {
    var now := (start + elapsedMs) % TWO_TO_THE_32;
    if start + elapsedMs < TWO_TO_THE_32 {
      assert now - start == elapsedMs;
    } else {
      assert now == start + elapsedMs - TWO_TO_THE_32;
      assert (now - start) % TWO_TO_THE_32 == elapsedMs;
    }
  }

  /** The cutoff fires exactly when limits are enabled and at least
      `limit` whole seconds, i.e. `1000 * limit` ms, have passed (for any
      elapsed time below 2^32 ms, about 49.7 days). */
  lemma CutoffIffLimitReached(config: TransmitterConfig, start: uint32, elapsedMs: nat)
    requires elapsedMs < TWO_TO_THE_32
    ensures SafetyCutoff(config, (start + elapsedMs) % TWO_TO_THE_32, start)
        <==> config.enableSafetyLimits && elapsedMs >= MillisecondsPerSecond * config.transmissionTimeLimit
  {
    ElapsedAcrossClockWrap(start, elapsedMs);
  }

  /** `transmission_active` and `transmission_start_time`. */
  class TransmissionSession {
    var active: bool
    var startTime: uint32

    constructor ()
      ensures !active && startTime == 0
    {
      active, startTime := false, 0;
    }

    /** The start of `transmit_wav_file`: active from the current time. */
    method Start(now: uint32)
      modifies this
      ensures active && startTime == now
    {
      active := true;
      startTime := now;
    }

    /** The safety part of `monitor_transmission`: stop when the cutoff fires,
        otherwise leave the session as it was. */
    method Monitor(config: TransmitterConfig, now: uint32)
      modifies this`active
      ensures active == (old(active) && !SafetyCutoff(config, now, startTime))
    {
      var elapsedSeconds := ((now - startTime) % TWO_TO_THE_32) / MillisecondsPerSecond;
      if config.enableSafetyLimits && elapsedSeconds >= config.transmissionTimeLimit {
        active := false;
      }
    }
  }
}
