/** Direct digital synthesis arithmetic: the 32-bit phase accumulator, the
    12-bit table index taken from its top bits, and the phase increment
    computed in `setup_pio_transmitter`. */
module Dds {
  import opened MachineInts

  /** Number of entries of `waveform_lut`. */
  const TableSize: nat := 4096

  /** `(phase_accumulator >> 20) & 0xFFF`: the table entry the accumulator points at. */
  function TableIndex(phase: uint32): (i: nat)
    ensures i < TableSize
    ensures i * 0x10_0000 <= phase < (i + 1) * 0x10_0000
  {
    (phase / 0x10_0000) % 0x1000
  }

  /** `phase_accumulator += phase_increment` on a `uint32_t`. */
  function Advance(phase: uint32, increment: uint32): (next: uint32)
    ensures next == phase + increment || next == phase + increment - TWO_TO_THE_32
    ensures next < phase <==> phase + increment >= TWO_TO_THE_32
  {
    (phase + increment) % TWO_TO_THE_32
  }

  /** The accumulator after `ticks` calls of the signal generator. */
  function PhaseAfter(start: uint32, increment: uint32, ticks: nat): uint32
  {
    if ticks == 0 then start else Advance(PhaseAfter(start, increment, ticks - 1), increment)
  }

  /** Adding a multiple of 2^32 does not change a value modulo 2^32. */
  lemma ModMultiple32(x: int, q: int)
    ensures (x + q * TWO_TO_THE_32) % TWO_TO_THE_32 == x % TWO_TO_THE_32
  {
  }

  lemma ModMultiple64(x: int, q: int)
    ensures (x + q * TWO_TO_THE_64) % TWO_TO_THE_64 == x % TWO_TO_THE_64
  {
  }

  lemma ModAdd32(a: int, b: int)
    ensures (a % TWO_TO_THE_32 + b) % TWO_TO_THE_32 == (a + b) % TWO_TO_THE_32
  {
    ModMultiple32(a % TWO_TO_THE_32 + b, a / TWO_TO_THE_32);
  }

  /** After k ticks the accumulator is (p0 + k * increment) mod 2^32: unsigned
      overflow is exactly the periodic wrap of the carrier phase. */
  lemma {:induction false} PhaseAfterClosedForm(start: uint32, increment: uint32, ticks: nat)
    ensures PhaseAfter(start, increment, ticks) == (start + ticks * increment) % TWO_TO_THE_32
  {
    if ticks > 0 {
      PhaseAfterClosedForm(start, increment, ticks - 1);
      OneMoreTick(start, ticks, increment);
      ClosedFormStep(PhaseAfter(start, increment, ticks - 1), start + (ticks - 1) * increment,
                     start + ticks * increment, increment);
    }
  }

  /** One more tick keeps the closed form: if the accumulator is `before` mod
      2^32, advancing it gives `before + increment` mod 2^32. */
  lemma ClosedFormStep(previous: uint32, before: int, after: int, increment: uint32)
    requires previous == before % TWO_TO_THE_32
    requires after == before + increment
    ensures Advance(previous, increment) == after % TWO_TO_THE_32
  {
    ModAdd32(before, increment);
  }

  lemma OneMoreTick(start: int, ticks: nat, increment: int)
    requires ticks > 0
    ensures start + ticks * increment == start + (ticks - 1) * increment + increment
  {
  }

  /** The divisor `audio_sample_rate * oversampling_rate`, a `uint32_t` product. */
  function TickRate(sampleRate: uint32, oversampling: uint8): uint32
  {
    (sampleRate * oversampling) % TWO_TO_THE_32
  }

  /** `(uint64_t)carrier * lut_size * (1ULL << 32) / (rate * oversampling)`, stored
      into the `uint32_t` `phase_increment`: the product wraps modulo 2^64 and
      the quotient is truncated to its low 32 bits. */
  function PhaseIncrement(carrier: uint32, sampleRate: uint32, oversampling: uint8): uint32
    requires TickRate(sampleRate, oversampling) != 0
  {
    var product := (carrier * TableSize * TWO_TO_THE_32) % TWO_TO_THE_64;
    ((product / TickRate(sampleRate, oversampling)) % TWO_TO_THE_32)
  }

  /** Below 2^20 Hz the 64-bit product is exact. */
  lemma PhaseIncrementExactBelowTwoPow20(carrier: uint32, sampleRate: uint32, oversampling: uint8)
    requires TickRate(sampleRate, oversampling) != 0
    requires carrier < 0x10_0000
    ensures PhaseIncrement(carrier, sampleRate, oversampling)
            == (carrier * TableSize * TWO_TO_THE_32 / TickRate(sampleRate, oversampling)) % TWO_TO_THE_32
  {
    var product := carrier * 0x1000_0000_0000;
    assert carrier * TableSize * TWO_TO_THE_32 == product;
    assert product < TWO_TO_THE_64;
    BelowModulus64(product);
  }

  lemma BelowModulus64(x: nat)
    requires x < TWO_TO_THE_64
    ensures x % TWO_TO_THE_64 == x
  {
  }

  /** The 64-bit product wraps for every carrier of 2^20 Hz or more: the increment
      only depends on the carrier modulo 2^20 Hz (1048576 Hz), inside the
      accepted 10 kHz - 30 MHz range. */
  lemma {:induction false} PhaseIncrementWrapsModTwoPow20(carrier: uint32, sampleRate: uint32, oversampling: uint8)
    requires TickRate(sampleRate, oversampling) != 0
    ensures PhaseIncrement(carrier, sampleRate, oversampling)
            == PhaseIncrement(carrier % 0x10_0000, sampleRate, oversampling)
  {
    var q := carrier / 0x10_0000;
    var r := carrier % 0x10_0000;
    assert carrier * TableSize * TWO_TO_THE_32 == r * TableSize * TWO_TO_THE_32 + q * TWO_TO_THE_64;
    ModMultiple64(r * TableSize * TWO_TO_THE_32, q);
  }

  /** A 1048576 Hz carrier gets increment 0: the accumulator never moves and the
      "carrier" is a constant level. */
  lemma CarrierAtTwoPow20GetsZeroIncrement(sampleRate: uint32, oversampling: uint8, ticks: nat)
    requires TickRate(sampleRate, oversampling) != 0
    ensures PhaseIncrement(0x10_0000, sampleRate, oversampling) == 0
    ensures PhaseAfter(0, PhaseIncrement(0x10_0000, sampleRate, oversampling), ticks) == 0
  {
    assert 0x10_0000 * TableSize * TWO_TO_THE_32 == TWO_TO_THE_64;
    PhaseAfterClosedForm(0, 0, ticks);
  }
}
