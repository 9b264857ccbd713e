/** The producer side of the transmission loop in `transmit_wav_file`: the
    chunk size requested from the file, the in-place stereo-to-mono downmix,
    the copy of a chunk into the free audio slot with zero padding, the ready
    flag, the slot toggle and the `samples_read` count. The file read itself,
    the wait for a free slot and the consumer core are not part of this model. */
module Producer {
  import opened MachineInts

  /** `BUFFER_SIZE`: samples per audio slot. */
  const BufferSize: nat := 2048

  /** `sizeof(file_buffer)`: 2 * BUFFER_SIZE samples of 2 bytes. */
  const FileBufferBytes: nat := 8192

  const SampleBytes: nat := 2

  const Stereo: int := 2

  /** The request size as written: the whole file buffer for mono, half of
      it for stereo. */
  function BytesToReadAsWritten(channels: uint16): nat
  {
    if channels == Stereo then FileBufferBytes / 2 else FileBufferBytes
  }

  /** The request size the rest of the model uses: one slot of mono samples,
      i.e. 2048 samples for mono and 2048 frames of two samples for stereo. */
  function BytesToRead(channels: uint16): (n: nat)
    ensures n <= FileBufferBytes
    ensures n == SampleBytes * BufferSize * (if channels == Stereo then 2 else 1)
  {
    if channels == Stereo then FileBufferBytes else FileBufferBytes / 2
  }

  /** `samples_in_chunk` after the optional downmix: the number of mono
      samples a read of `bytesRead` bytes yields. */
  function MonoSampleCount(bytesRead: nat, channels: uint16): nat
  {
    var samples := bytesRead / SampleBytes;
    if channels == Stereo then samples / 2 else samples
  }

  /** `samples_to_copy`: at most one slot. */
  function SamplesToCopy(samples: nat): nat
  {
    Min(samples, BufferSize)
  }

  /** As written, a full mono read yields 4096 samples of which only 2048 are
      copied, while a full stereo read yields 1024 samples and leaves half of
      the slot zero-padded. */
  lemma ChunkSizeAsWrittenMismatch()
    ensures MonoSampleCount(BytesToReadAsWritten(1), 1) == 4096
    ensures SamplesToCopy(MonoSampleCount(BytesToReadAsWritten(1), 1)) == 2048
    ensures MonoSampleCount(BytesToReadAsWritten(Stereo), Stereo) == 1024
    ensures SamplesToCopy(MonoSampleCount(BytesToReadAsWritten(Stereo), Stereo)) == BufferSize / 2
  {
  }

  /** With the corrected request size no read ever yields more samples than a
      slot holds, so none are dropped, and a full read fills the slot exactly,
      whatever the channel count. */
  lemma ChunkFitsSlot(bytesRead: nat, channels: uint16)
    requires bytesRead <= BytesToRead(channels)
    ensures SamplesToCopy(MonoSampleCount(bytesRead, channels)) == MonoSampleCount(bytesRead, channels)
    ensures bytesRead == BytesToRead(channels) ==> MonoSampleCount(bytesRead, channels) == BufferSize
  {
  }

  /** C's `/ 2` on an `int`: the quotient truncated toward zero. */
  function HalfTowardZero(x: int): int
  {
    if x >= 0 then x / 2 else -((-x) / 2)
  }

  /** `(a + b) / 2` computed in `int` and stored back into an `int16_t`: the
      mean of the two samples rounded toward zero, which lies between them and
      so always fits. */
  function Average(a: int16, b: int16): (r: int16)
    ensures Min(a, b) <= r <= if a <= b then b else a
    ensures 2 * r == a + b || (a + b > 0 && 2 * r == a + b - 1) || (a + b < 0 && 2 * r == a + b + 1)
  {
    HalfTowardZero(a + b)
  }

  /** The first `frames` mono samples of an interleaved stereo buffer. */
  function Downmixed(interleaved: seq<int16>, frames: nat): (mono: seq<int16>)
    requires 2 * frames <= |interleaved|
    ensures |mono| == frames
  {
    seq(frames, i requires 0 <= i < frames => Average(interleaved[2 * i], interleaved[2 * i + 1]))
  }

  /** The content of a slot after a fill with `content`: its first samples (at
      most a slot's worth), then zeros up to the slot size. */
  function Slot(content: seq<int16>): (s: seq<int16>)
    ensures |s| == BufferSize
    ensures |content| <= BufferSize ==> s[..|content|] == content
    ensures forall i :: |content| <= i < BufferSize ==> s[i] == 0
    ensures |content| >= BufferSize ==> s == content[..BufferSize]
  {
    var k := SamplesToCopy(|content|);
    content[..k] + seq(BufferSize - k, _ => 0)
  }

  /** The stereo branch of the loop: frame i, read from positions 2i and
      2i+1, is averaged into position i; positions from `samples / 2` on are
      left as they were. Reading ahead of the write position makes the
      in-place update safe. */
  method DownmixStereo(buffer: array<int16>, samples: nat) returns (frames: nat)
    requires samples <= buffer.Length
    modifies buffer
    ensures frames == samples / 2
    ensures buffer[..frames] == Downmixed(old(buffer[..]), frames)
    ensures buffer[frames..] == old(buffer[frames..])
  {
    frames := samples / 2;
    ghost var original := buffer[..];
    var i := 0;
    while i < frames
      invariant 0 <= i <= frames
      invariant forall j :: 0 <= j < i ==> buffer[j] == Average(original[2 * j], original[2 * j + 1])
      invariant forall j :: i <= j < buffer.Length ==> buffer[j] == original[j]
    {
      buffer[i] := Average(buffer[i * 2], buffer[i * 2 + 1]);
      i := i + 1;
    }
  }

  /** The double buffer between the cores, as the producer sees it: the two
      audio slots, their ready flags, the slot to fill next, the file buffer
      and the count of samples read. */
  class BufferExchange {
    const audioA: array<int16>
    const audioB: array<int16>
    const fileBuffer: array<int16>
    var readyA: bool
    var readyB: bool
    var useA: bool
    var samplesRead: uint32

    ghost predicate Valid()
      reads this
    {
      && audioA.Length == BufferSize
      && audioB.Length == BufferSize
      && fileBuffer.Length == 2 * BufferSize
      && audioA != audioB && audioA != fileBuffer && audioB != fileBuffer
    }

    /** The static initial state: slot A next, nothing ready, nothing read. */
    constructor ()
      ensures Valid() && fresh(audioA) && fresh(audioB) && fresh(fileBuffer)
      ensures useA && !readyA && !readyB && samplesRead == 0
    {
      audioA := new int16[BufferSize](_ => 0);
      audioB := new int16[BufferSize](_ => 0);
      fileBuffer := new int16[2 * BufferSize](_ => 0);
      readyA, readyB, useA := false, false, true;
      samplesRead := 0;
    }

    /** The fill step: the current slot receives the first `count` samples of
        the file buffer (at most a slot's worth) followed by zeros, its ready
        flag is set and the other slot becomes current. The other slot and its
        flag are untouched. */
    method Fill(count: nat)
      requires Valid() && count <= fileBuffer.Length
      modifies audioA, audioB, this`readyA, this`readyB, this`useA
      ensures Valid()
      ensures useA == !old(useA)
      ensures old(useA) ==> audioA[..] == Slot(fileBuffer[..count]) && readyA
                            && audioB[..] == old(audioB[..]) && readyB == old(readyB)
      ensures !old(useA) ==> audioB[..] == Slot(fileBuffer[..count]) && readyB
                             && audioA[..] == old(audioA[..]) && readyA == old(readyA)
    {
      var toCopy := if count > BufferSize then BufferSize else count;
      var slot := if useA then audioA else audioB;
      forall i | 0 <= i < toCopy {
        slot[i] := fileBuffer[i];
      }
      forall i | toCopy <= i < BufferSize {
        slot[i] := 0;
      }
      assert slot[..] == Slot(fileBuffer[..count]);
      if useA {
        readyA := true;
      } else {
        readyB := true;
      }
      useA := !useA;
    }

    /** One pass of the producer loop after a read of `bytesRead` bytes into
        the file buffer (at least one byte, since the loop ends on an empty
        read, and never more than the buffer holds): downmix if stereo,
        fill the current slot and add the number of mono samples in the chunk
        to `samples_read`, modulo 2^32. A mono read larger than a slot's worth,
        which the request size as written allows, has its surplus dropped by
        the fill yet still counted; with the corrected request size the chunk
        fits the slot, so the count is also the number copied. */
    method PrepareChunk(bytesRead: nat, channels: uint16)
      requires Valid() && 0 < bytesRead <= FileBufferBytes
      modifies fileBuffer, audioA, audioB, this`readyA, this`readyB, this`useA, this`samplesRead
      ensures Valid()
      ensures bytesRead <= BytesToRead(channels) ==> MonoSampleCount(bytesRead, channels) <= BufferSize
      ensures useA == !old(useA)
      ensures samplesRead == (old(samplesRead) + MonoSampleCount(bytesRead, channels)) % TWO_TO_THE_32
      ensures var content := if channels == Stereo
                             then Downmixed(old(fileBuffer[..]), MonoSampleCount(bytesRead, channels))
                             else old(fileBuffer[..MonoSampleCount(bytesRead, channels)]);
              && (old(useA) ==> audioA[..] == Slot(content) && readyA
                                && audioB[..] == old(audioB[..]) && readyB == old(readyB))
              && (!old(useA) ==> audioB[..] == Slot(content) && readyB
                                 && audioA[..] == old(audioA[..]) && readyA == old(readyA))
    {
      if bytesRead <= BytesToRead(channels) {
        ChunkFitsSlot(bytesRead, channels);
      }
      var samplesInChunk := bytesRead / SampleBytes;
      if channels == Stereo {
        samplesInChunk := DownmixStereo(fileBuffer, samplesInChunk);
      }
      Fill(samplesInChunk);
      samplesRead := (samplesRead + samplesInChunk) % TWO_TO_THE_32;
    }
  }
}
