/**
 * The WAVE writer (src/Wave/Writer.php): opens a file with the canonical
 * 44-byte PCM header (RIFF descriptor, `fmt ` subchunk, `data` header with
 * two size placeholders), appends 16-bit little-endian sample words, keeps a
 * running byte count and patches the two size fields when it is closed.
 *
 * The file on disk is the byte sequence `file`; the file handle, `fopen`,
 * `fwrite` and `fseek` are replaced by operations on that sequence.
 */
module WaveWriter {
  import opened Wrappers
  import opened WaveFormat

  datatype OpenError = InvalidChannels | InvalidSampleSize | InvalidSampleRate

  /** The life cycle of one writer: the PHP object has no explicit state, the file handle stands for it. */
  datatype Phase = Unopened | Opened | Closed

  predicate ValidSampleChannels(channels: int) { channels == 1 || channels == 2 }

  predicate ValidSampleSize(quality: int) { quality == 1 || quality == 2 }

  predicate ValidSampleRate(rate: int) { 0 < rate }

  /** The RIFF descriptor: tag, a zero size placeholder, the WAVE format tag. */
  function ChunkDescriptor(): (r: seq<Byte>)
    ensures |r| == 12
  {
    BE32(RIFF) + LE32(0) + BE32(WAVE)
  }

  /** The `fmt ` subchunk of a linear PCM stream. */
  function FormatSubChunk(channels: int, quality: int, rate: int): (r: seq<Byte>)
    ensures |r| == 24
  {
    var bitsPerSample := quality * 8;
    var blockAlign := channels * quality;
    var byteRate := blockAlign * rate;
    (BE32(FMT) + LE32(PCM_SIZE) + LE16(PCM_TYPE) + LE16(channels))
      + (LE32(rate) + LE32(byteRate) + LE16(blockAlign) + LE16(bitsPerSample))
  }

  /** The `data` subchunk header: tag and a zero size placeholder. */
  function DataHeader(): (r: seq<Byte>)
    ensures |r| == 8
  {
    BE32(DATA) + LE32(0)
  }

  /** The 44 bytes `open` emits. */
  function Header(channels: int, quality: int, rate: int): (r: seq<Byte>)
    ensures |r| == HEADER_SIZE
  {
    ChunkDescriptor() + FormatSubChunk(channels, quality, rate) + DataHeader()
  }

  /** `1 << (quality * 8 - 2)`: two bits of headroom below the sample width. */
  function MaxAmplitude(quality: int): (r: int)
    requires ValidSampleSize(quality)
    ensures 4 * r == (if quality == 1 then 0x100 else 0x1_0000)
  {
    if quality == 1 then 64 else 16384
  }

  /** `(int)round(value * maxAmplitude)`: one amplitude as a sample word. */
  function QuantizeSample(value: real, quality: int): int
    requires ValidSampleSize(quality)
  {
    Round(value * MaxAmplitude(quality) as real)
  }

  function Quantize(values: seq<real>, quality: int): (r: seq<int>)
    requires ValidSampleSize(quality)
    ensures |r| == |values|
  {
    seq(|values|, i requires 0 <= i < |values| => QuantizeSample(values[i], quality))
  }

  /** `pack('v*', ...)`: every word as its low 16 bits, low byte first. */
  function PackWords(words: seq<int>): (r: seq<Byte>)
    ensures |r| == 2 * |words|
  {
    if words == [] then [] else PackWords(words[..|words| - 1]) + LE16(words[|words| - 1])
  }

  /** Each packed word reads back as itself modulo 2^16. */
  lemma {:induction false} PackWordsReads(words: seq<int>)
    ensures forall i :: 0 <= i < |words| ==> ReadLE16(PackWords(words), 2 * i) == words[i] % 0x10000
    decreases |words|
  {
    if words != [] {
      var front := PackWords(words[..|words| - 1]);
      var last := LE16(words[|words| - 1]);
      PackWordsReads(words[..|words| - 1]);
      forall i | 0 <= i < |words| - 1
        ensures ReadLE16(front + last, 2 * i) == ReadLE16(front, 2 * i)
      {
        ReadLE16Prefix(front, last, 2 * i);
      }
      ReadLE16Slice(front + last, |front|, last);
    }
  }

  lemma {:induction false} PackWordsAppend(a: seq<int>, b: seq<int>)
    ensures PackWords(a + b) == PackWords(a) + PackWords(b)
    decreases |b|
  {
    if b == [] {
      assert a + b == a;
    } else {
      var b' := b[..|b| - 1];
      assert (a + b)[..|a + b| - 1] == a + b';
      PackWordsAppend(a, b');
    }
  }

  /** The bytes `write(values)` appends: exactly two per value, whatever the quality. */
  function EncodeSamples(values: seq<real>, quality: int): (r: seq<Byte>)
    requires ValidSampleSize(quality)
    ensures |r| == 2 * |values|
  {
    PackWords(Quantize(values, quality))
  }

  /** Each value comes back from its two bytes as its quantized word. */
  lemma EncodeSamplesWords(values: seq<real>, quality: int)
    requires ValidSampleSize(quality)
    ensures forall i :: 0 <= i < |values| ==>
      ReadLE16(EncodeSamples(values, quality), 2 * i) == QuantizeSample(values[i], quality) % 0x10000
  {
    PackWordsReads(Quantize(values, quality));
  }

  lemma EncodeSamplesAppend(a: seq<real>, b: seq<real>, quality: int)
    requires ValidSampleSize(quality)
    ensures EncodeSamples(a + b, quality) == EncodeSamples(a, quality) + EncodeSamples(b, quality)
  {
    assert Quantize(a + b, quality) == Quantize(a, quality) + Quantize(b, quality);
    PackWordsAppend(Quantize(a, quality), Quantize(b, quality));
  }

  /** The file after a further `write` is the file for all the values written so far. */
  lemma AppendKeepsLayout(header: seq<Byte>, written: seq<real>, values: seq<real>, quality: int)
    requires ValidSampleSize(quality)
    ensures header + EncodeSamples(written, quality) + PackWords(Quantize(values, quality))
         == header + EncodeSamples(written + values, quality)
  {
    EncodeSamplesAppend(written, values, quality);
  }

  /** Overwrites four bytes at `at` with `pack('V', n)`, as `fseek` + `fwrite` do. */
  function Patch32(b: seq<Byte>, at: nat, n: int): (r: seq<Byte>)
    requires at + 4 <= |b|
    ensures |r| == |b|
  {
    b[..at] + LE32(n) + b[at + 4..]
  }

  /** The patched field reads back as `n` modulo 2^32. */
  lemma Patch32Reads(b: seq<Byte>, at: nat, n: int)
    requires at + 4 <= |b|
    ensures ReadLE32(Patch32(b, at, n), at) == n % 0x1_0000_0000
  {
    ReadLE32Slice(Patch32(b, at, n), at, LE32(n));
  }

  /** What `close` leaves on disk: the RIFF size and the data size filled in. */
  function Finalized(b: seq<Byte>): (r: seq<Byte>)
    requires |b| >= HEADER_SIZE
    ensures |r| == |b|
  {
    Patch32(Patch32(b, 4, |b| - 8), 40, |b| - 44)
  }

  /** The two size fields of a finished file: all bytes after each field, modulo 2^32. */
  lemma FinalizedSizes(b: seq<Byte>)
    requires |b| >= HEADER_SIZE
    ensures ReadLE32(Finalized(b), 4) == (|b| - 8) % 0x1_0000_0000
    ensures ReadLE32(Finalized(b), 40) == (|b| - 44) % 0x1_0000_0000
  {
    var once := Patch32(b, 4, |b| - 8);
    var twice := Patch32(once, 40, |b| - 44);
    Patch32Reads(b, 4, |b| - 8);
    Patch32Reads(once, 40, |b| - 44);
    assert twice[4..8] == once[4..8];
    ReadLE32Slice(twice, 4, once[4..8]);
    ReadLE32Slice(once, 4, once[4..8]);
  }

  /** `close` touches no byte outside the two size fields. */
  lemma FinalizedKeepsOtherBytes(b: seq<Byte>)
    requires |b| >= HEADER_SIZE
    ensures forall i :: 0 <= i < |b| && !(4 <= i < 8) && !(40 <= i < 44) ==> Finalized(b)[i] == b[i]
  {
  }

  /** `close`'s two in-place updates, in order, give the finished file. */
  lemma ClosePatchesSizes(b: seq<Byte>, fileSize: int)
    requires fileSize == |b| >= HEADER_SIZE
    ensures Patch32(Patch32(b, 4, fileSize - 8), 40, fileSize - 44) == Finalized(b)
  {
  }

  lemma FinalizedIsWaveFile(b: seq<Byte>, channels: int, quality: int, rate: int, values: seq<real>)
    requires ValidSampleSize(quality)
    requires b == Header(channels, quality, rate) + EncodeSamples(values, quality)
    ensures Finalized(b) == WaveFile(channels, quality, rate, values)
  {
  }

  /** The whole file after `open`, one `write(values)` and `close`. */
  function WaveFile(channels: int, quality: int, rate: int, values: seq<real>): (r: seq<Byte>)
    requires ValidSampleSize(quality)
    ensures |r| == HEADER_SIZE + 2 * |values|
  {
    Finalized(Header(channels, quality, rate) + EncodeSamples(values, quality))
  }

  /** The header fields `open` writes, as a reader sees them. */
  lemma HeaderFields(channels: int, quality: int, rate: int)
    ensures var h := Header(channels, quality, rate);
      && ReadBE32(h, 0) == RIFF && ReadLE32(h, 4) == 0 && ReadBE32(h, 8) == WAVE
      && ReadBE32(h, 12) == FMT && ReadLE32(h, 16) == PCM_SIZE && ReadLE16(h, 20) == PCM_TYPE
      && ReadLE16(h, 22) == channels % 0x10000
      && ReadLE32(h, 24) == rate % 0x1_0000_0000
      && ReadLE32(h, 28) == (channels * quality * rate) % 0x1_0000_0000
      && ReadLE16(h, 32) == (channels * quality) % 0x10000
      && ReadLE16(h, 34) == (quality * 8) % 0x10000
      && ReadBE32(h, 36) == DATA && ReadLE32(h, 40) == 0
  {
    var h := Header(channels, quality, rate);
    ReadBE32Bytes(h, 0, BE32(RIFF));
    ReadLE32Bytes(h, 4, LE32(0));
    ReadBE32Bytes(h, 8, BE32(WAVE));
    FormatFields(h, channels, quality, rate);
    ReadBE32Bytes(h, 36, BE32(DATA));
    ReadLE32Bytes(h, 40, LE32(0));
  }

  lemma FormatFields(h: seq<Byte>, channels: int, quality: int, rate: int)
    requires h == Header(channels, quality, rate)
    ensures ReadBE32(h, 12) == FMT && ReadLE32(h, 16) == PCM_SIZE && ReadLE16(h, 20) == PCM_TYPE
    ensures ReadLE16(h, 22) == channels % 0x10000
    ensures ReadLE32(h, 24) == rate % 0x1_0000_0000
    ensures ReadLE32(h, 28) == (channels * quality * rate) % 0x1_0000_0000
    ensures ReadLE16(h, 32) == (channels * quality) % 0x10000
    ensures ReadLE16(h, 34) == (quality * 8) % 0x10000
  {
    ReadBE32Bytes(h, 12, BE32(FMT));
    ReadLE32Bytes(h, 16, LE32(PCM_SIZE));
    ReadLE16Bytes(h, 20, LE16(PCM_TYPE));
    ReadLE16Bytes(h, 22, LE16(channels));
    ReadLE32Bytes(h, 24, LE32(rate));
    ReadLE32Bytes(h, 28, LE32(channels * quality * rate));
    ReadLE16Bytes(h, 32, LE16(channels * quality));
    ReadLE16Bytes(h, 34, LE16(quality * 8));
  }

  /** Patching the two size fields leaves every other header field as it was. */
  lemma FinalizedKeepsFields(b: seq<Byte>)
    requires |b| >= HEADER_SIZE
    ensures var f := Finalized(b);
      && ReadBE32(f, 0) == ReadBE32(b, 0) && ReadBE32(f, 8) == ReadBE32(b, 8)
      && ReadBE32(f, 12) == ReadBE32(b, 12) && ReadLE32(f, 16) == ReadLE32(b, 16)
      && ReadLE16(f, 20) == ReadLE16(b, 20) && ReadLE16(f, 22) == ReadLE16(b, 22)
      && ReadLE32(f, 24) == ReadLE32(b, 24) && ReadLE32(f, 28) == ReadLE32(b, 28)
      && ReadLE16(f, 32) == ReadLE16(b, 32) && ReadLE16(f, 34) == ReadLE16(b, 34)
      && ReadBE32(f, 36) == ReadBE32(b, 36)
      && f[HEADER_SIZE..] == b[HEADER_SIZE..]
  {
    var f := Finalized(b);
    FinalizedKeepsOtherBytes(b);
    assert f[..4] == b[..4];
    assert f[8..40] == b[8..40];
    assert f[HEADER_SIZE..] == b[HEADER_SIZE..];
  }

  /** The tags and the format constants of a finished file. */
  lemma WaveFileTags(channels: int, quality: int, rate: int, values: seq<real>)
    requires ValidSampleSize(quality)
    ensures var f := WaveFile(channels, quality, rate, values);
      && ReadBE32(f, 0) == RIFF && ReadBE32(f, 8) == WAVE
      && ReadBE32(f, 12) == FMT && ReadLE32(f, 16) == PCM_SIZE && ReadLE16(f, 20) == PCM_TYPE
      && ReadBE32(f, 36) == DATA
  {
    var h := Header(channels, quality, rate);
    HeaderFields(channels, quality, rate);
    FinalizedKeepsFields(h + EncodeSamples(values, quality));
    HeaderPrefixReads(h, EncodeSamples(values, quality));
  }

  /** The stream parameters of a finished file. */
  lemma WaveFileFormat(channels: int, quality: int, rate: int, values: seq<real>)
    requires ValidSampleSize(quality)
    ensures var f := WaveFile(channels, quality, rate, values);
      && ReadLE16(f, 22) == channels % 0x10000
      && ReadLE32(f, 24) == rate % 0x1_0000_0000
      && ReadLE32(f, 28) == (channels * quality * rate) % 0x1_0000_0000
      && ReadLE16(f, 32) == (channels * quality) % 0x10000
      && ReadLE16(f, 34) == (quality * 8) % 0x10000
  {
    var h := Header(channels, quality, rate);
    HeaderFields(channels, quality, rate);
    FinalizedKeepsFields(h + EncodeSamples(values, quality));
    HeaderPrefixReads(h, EncodeSamples(values, quality));
  }

  /** The two size fields and the payload of a finished file. */
  lemma WaveFileSizes(channels: int, quality: int, rate: int, values: seq<real>)
    requires ValidSampleSize(quality)
    ensures var f := WaveFile(channels, quality, rate, values);
      && ReadLE32(f, 4) == (36 + 2 * |values|) % 0x1_0000_0000
      && ReadLE32(f, 40) == (2 * |values|) % 0x1_0000_0000
      && f[HEADER_SIZE..] == EncodeSamples(values, quality)
  {
    var b := Header(channels, quality, rate) + EncodeSamples(values, quality);
    FinalizedSizes(b);
    FinalizedKeepsFields(b);
    assert b[HEADER_SIZE..] == EncodeSamples(values, quality);
  }

  /** Reads within the first 44 bytes do not see what follows them. */
  lemma HeaderPrefixReads(h: seq<Byte>, p: seq<Byte>)
    requires |h| == HEADER_SIZE
    ensures var b := h + p;
      && ReadBE32(b, 0) == ReadBE32(h, 0) && ReadBE32(b, 8) == ReadBE32(h, 8)
      && ReadBE32(b, 12) == ReadBE32(h, 12) && ReadLE32(b, 16) == ReadLE32(h, 16)
      && ReadLE16(b, 20) == ReadLE16(h, 20) && ReadLE16(b, 22) == ReadLE16(h, 22)
      && ReadLE32(b, 24) == ReadLE32(h, 24) && ReadLE32(b, 28) == ReadLE32(h, 28)
      && ReadLE16(b, 32) == ReadLE16(h, 32) && ReadLE16(b, 34) == ReadLE16(h, 34)
      && ReadBE32(b, 36) == ReadBE32(h, 36)
  {
    assert (h + p)[..HEADER_SIZE] == h;
  }

  /** Opening and closing with no write in between leaves 44 bytes, sizes 36 and 0. */
  lemma EmptyWaveFile(channels: int, quality: int, rate: int)
    requires ValidSampleSize(quality)
    ensures |WaveFile(channels, quality, rate, [])| == 44
    ensures ReadLE32(WaveFile(channels, quality, rate, []), 4) == 36
    ensures ReadLE32(WaveFile(channels, quality, rate, []), 40) == 0
  {
    var none: seq<real> := [];
    WaveFileSizes(channels, quality, rate, none);
    assert (36 + 2 * |none|) % 0x1_0000_0000 == 36;
  }

  class Writer {
    var channels: int
    var quality: int
    var rate: int
    var fileSize: int
    var file: seq<Byte>
    var phase: Phase
    /** The amplitudes passed to `write` since `open`, in order. */
    ghost var written: seq<real>

    ghost predicate Valid()
      reads this
    {
      && fileSize == |file|
      && (phase != Unopened ==>
            ValidSampleChannels(channels) && ValidSampleSize(quality) && ValidSampleRate(rate))
      && (phase == Opened ==> file == Header(channels, quality, rate) + EncodeSamples(written, quality))
      && (phase == Closed ==> file == WaveFile(channels, quality, rate, written))
    }

    constructor ()
      ensures Valid() && phase == Unopened && file == [] && written == []
    {
      channels, quality, rate := 0, 0, 0;
      fileSize := 0;
      file := [];
      phase := Unopened;
      written := [];
    }

    /**
     * Validates the three parameters (channels, then sample size, then
     * rate) before touching the file; then writes the header.
     */
    method Open(channels: int, quality: int, rate: int) returns (err: Option<OpenError>)
      requires Valid()
      modifies this
      ensures Valid()
      ensures !ValidSampleChannels(channels) ==> err == Some(InvalidChannels)
      ensures ValidSampleChannels(channels) && !ValidSampleSize(quality) ==> err == Some(InvalidSampleSize)
      ensures ValidSampleChannels(channels) && ValidSampleSize(quality) && !ValidSampleRate(rate) ==>
        err == Some(InvalidSampleRate)
      ensures err.None? <==> ValidSampleChannels(channels) && ValidSampleSize(quality) && ValidSampleRate(rate)
      ensures err.Some? ==> unchanged(this)
      ensures err.None? ==>
        && this.channels == channels && this.quality == quality && this.rate == rate
        && phase == Opened && written == []
        && file == Header(channels, quality, rate) && fileSize == HEADER_SIZE
    {
      if !ValidSampleChannels(channels) {
        return Some(InvalidChannels);
      }
      if !ValidSampleSize(quality) {
        return Some(InvalidSampleSize);
      }
      if !ValidSampleRate(rate) {
        return Some(InvalidSampleRate);
      }
      Begin(channels, quality, rate);
      err := None;
    }

    /** Records the parameters, starts an empty file and writes the three header parts. */
    method Begin(channels: int, quality: int, rate: int)
      requires ValidSampleChannels(channels) && ValidSampleSize(quality) && ValidSampleRate(rate)
      modifies this
      ensures Valid()
      ensures this.channels == channels && this.quality == quality && this.rate == rate
      ensures phase == Opened && written == []
      ensures file == Header(channels, quality, rate) && fileSize == HEADER_SIZE
    {
      this.channels := channels;
      this.quality := quality;
      this.rate := rate;
      file := [];
      fileSize := 0;
      WriteHeader();
      written := [];
      phase := Opened;
      assert EncodeSamples([], quality) == [];
    }

    /** The three header parts, in order. */
    method WriteHeader()
      modifies this
      ensures file == old(file) + Header(channels, quality, rate) && fileSize == old(fileSize) + HEADER_SIZE
      ensures channels == old(channels) && quality == old(quality) && rate == old(rate)
      ensures phase == old(phase) && written == old(written)
    {
      WriteChunkDescriptor();
      WriteFormatSubChunk();
      WriteDataHeader();
    }

    method WriteChunkDescriptor()
      modifies this
      ensures file == old(file) + ChunkDescriptor() && fileSize == old(fileSize) + 12
      ensures channels == old(channels) && quality == old(quality) && rate == old(rate)
      ensures phase == old(phase) && written == old(written)
    {
      Add(ChunkDescriptor());
    }

    method WriteFormatSubChunk()
      modifies this
      ensures file == old(file) + FormatSubChunk(channels, quality, rate) && fileSize == old(fileSize) + 24
      ensures channels == old(channels) && quality == old(quality) && rate == old(rate)
      ensures phase == old(phase) && written == old(written)
    {
      Add(FormatSubChunk(channels, quality, rate));
    }

    method WriteDataHeader()
      modifies this
      ensures file == old(file) + DataHeader() && fileSize == old(fileSize) + 8
      ensures channels == old(channels) && quality == old(quality) && rate == old(rate)
      ensures phase == old(phase) && written == old(written)
    {
      Add(DataHeader());
    }

    /** Appends bytes to the file and grows the running byte count by their number. */
    method Add(binary: seq<Byte>)
      modifies this
      ensures file == old(file) + binary
      ensures fileSize == old(fileSize) + |binary|
      ensures channels == old(channels) && quality == old(quality) && rate == old(rate)
      ensures phase == old(phase) && written == old(written)
    {
      fileSize := fileSize + |binary|;
      file := file + binary;
    }

    /** Quantizes every amplitude to a 16-bit word and appends the words. */
    method Write(values: seq<real>)
      requires Valid() && phase == Opened
      modifies this
      ensures Valid() && phase == Opened
      ensures written == old(written) + values
      ensures file == old(file) + EncodeSamples(values, quality)
      ensures fileSize == old(fileSize) + 2 * |values|
      ensures channels == old(channels) && quality == old(quality) && rate == old(rate)
    {
      var data: seq<int> := [];
      var i := 0;
      while i < |values|
        invariant 0 <= i <= |values|
        invariant |data| == i
        invariant forall j :: 0 <= j < i ==> data[j] == QuantizeSample(values[j], quality)
      {
        data := data + [QuantizeSample(values[i], quality)];
        i := i + 1;
      }
      assert data == Quantize(values, quality);
      Add(PackWords(data));
      AppendKeepsLayout(Header(channels, quality, rate), written, values, quality);
      written := written + values;
    }

    /** Patches the RIFF size and the data size, then releases the file. */
    method Close()
      requires Valid() && phase == Opened
      modifies this
      ensures Valid() && phase == Closed
      ensures file == Finalized(old(file))
      ensures fileSize == old(fileSize) && written == old(written)
      ensures channels == old(channels) && quality == old(quality) && rate == old(rate)
    {
      ghost var before := file;
      UpdateChunkDescriptor();
      UpdateDataHeader();
      phase := Closed;
      ClosedIsValid(before);
    }

    lemma ClosedIsValid(before: seq<Byte>)
      requires phase == Closed && fileSize == |before| >= HEADER_SIZE
      requires ValidSampleChannels(channels) && ValidSampleSize(quality) && ValidSampleRate(rate)
      requires before == Header(channels, quality, rate) + EncodeSamples(written, quality)
      requires file == Patch32(Patch32(before, 4, fileSize - 8), 40, fileSize - 44)
      ensures Valid() && file == Finalized(before)
    {
      ClosePatchesSizes(before, fileSize);
      FinalizedIsWaveFile(before, channels, quality, rate, written);
    }

    method UpdateChunkDescriptor()
      requires fileSize == |file| >= HEADER_SIZE
      modifies this`file
      ensures file == Patch32(old(file), 4, fileSize - 8)
    {
      file := Patch32(file, 4, fileSize - 8);
    }

    method UpdateDataHeader()
      requires fileSize == |file| >= HEADER_SIZE
      modifies this`file
      ensures file == Patch32(old(file), 40, fileSize - 44)
    {
      file := Patch32(file, 40, fileSize - 44);
    }
  }
}
