/**
 * What the reader makes of a file the writer produced: the header is
 * accepted and gives back the parameters, an empty file throws, 16-bit
 * mono samples come back exactly (except -2^15), and 16-bit stereo comes
 * back shifted by one value.
 */
module WaveRoundTrip {
  import opened Wrappers
  import opened WaveFormat
  import opened WaveWriter
  import opened WaveReader

  /** The reader accepts every header the writer emits and recovers its parameters. */
  lemma HeaderRoundTrip(channels: int, quality: int, rate: int, values: seq<real>, prev: ReadState)
    requires ValidSampleChannels(channels) && ValidSampleSize(quality) && ValidSampleRate(rate)
    ensures var f := WaveFile(channels, quality, rate, values);
      && HeaderAccepted(f)
      && Decode(f, prev).state.channels == Some(channels)
      && Decode(f, prev).state.quality == Some(quality)
      && Decode(f, prev).state.rate == Some(rate % 0x1_0000_0000)
    ensures Decode(WaveFile(channels, quality, rate, values), prev).error ==
      (if values == [] then Some(ValueError) else None)
  {
    var f := WaveFile(channels, quality, rate, values);
    WaveFileTags(channels, quality, rate, values);
    WaveFileFormat(channels, quality, rate, values);
    DecodeWrittenHeader(f, channels, quality, rate, |values|, prev);
  }

  /** Decoding any file whose header reads as the writer's. */
  lemma DecodeWrittenHeader(f: seq<Byte>, channels: int, quality: int, rate: int, count: nat, prev: ReadState)
    requires ValidSampleChannels(channels) && ValidSampleSize(quality) && ValidSampleRate(rate)
    requires |f| == HEADER_SIZE + 2 * count
    requires ReadBE32(f, 0) == RIFF && ReadBE32(f, 8) == WAVE
    requires ReadBE32(f, 12) == FMT && ReadLE32(f, 16) == PCM_SIZE && ReadLE16(f, 20) == PCM_TYPE
    requires ReadBE32(f, 36) == DATA
    requires ReadLE16(f, 22) == channels % 0x10000
    requires ReadLE32(f, 24) == rate % 0x1_0000_0000
    requires ReadLE16(f, 34) == (quality * 8) % 0x10000
    ensures HeaderAccepted(f)
    ensures Decode(f, prev).state.channels == Some(channels)
    ensures Decode(f, prev).state.quality == Some(quality)
    ensures Decode(f, prev).state.rate == Some(rate % 0x1_0000_0000)
    ensures Decode(f, prev).error == (if count == 0 then Some(ValueError) else None)
  {
    assert QualityOf(f) == quality;
  }

  /** `open` then `close` with nothing written gives a file `read` throws on. */
  lemma EmptyFileThrows(channels: int, quality: int, rate: int, prev: ReadState)
    requires ValidSampleChannels(channels) && ValidSampleSize(quality) && ValidSampleRate(rate)
    ensures ReadSpec(Some(WaveFile(channels, quality, rate, [])), prev) == Threw(ValueError)
  {
    HeaderRoundTrip(channels, quality, rate, [], prev);
  }

  /** The payload of a 16-bit file unpacks to the packed words, one per value. */
  lemma PayloadRoundTrip(channels: int, rate: int, values: seq<real>)
    requires ValidSampleChannels(channels) && ValidSampleRate(rate) && values != []
    ensures var f := WaveFile(channels, 2, rate, values);
      && |f| > HEADER_SIZE
      && Payload(f, 2).Ok?
      && Payload(f, 2).value.numbered
      && |Payload(f, 2).value.values| == |values|
      && forall i :: 0 <= i < |values| ==> Payload(f, 2).value.values[i] == QuantizeSample(values[i], 2) % 0x10000
  {
    var f := WaveFile(channels, 2, rate, values);
    WaveFileSizes(channels, 2, rate, values);
    var binary := f[HEADER_SIZE..];
    assert binary == EncodeSamples(values, 2);
    EncodeSamplesWords(values, 2);
    var u := Unpack(binary, 2);
    forall i | 0 <= i < |values|
      ensures u.values[i] == QuantizeSample(values[i], 2) % 0x10000
    {
      assert u.values[i] == ReadLE16(binary, 2 * i);
    }
  }

  /**
   * 16-bit mono: `read` returns every written value, in order, as the
   * writer quantized it; a quantized value in (-2^15, 2^15] survives
   * unchanged, and -2^15 comes back as +2^15.
   */
  lemma MonoRoundTrip(rate: int, values: seq<real>, prev: ReadState)
    requires ValidSampleRate(rate) && values != []
    ensures var r := ReadSpec(Some(WaveFile(1, 2, rate, values)), prev);
      && r.Returned?
      && r.state.channels == Some(1) && r.state.quality == Some(2) && r.state.rate == Some(rate % 0x1_0000_0000)
      && r.state.samples.Some?
      && |r.state.samples.value| == |values|
      && (forall i :: 0 <= i < |values| && -0x8000 < QuantizeSample(values[i], 2) <= 0x8000 ==>
            r.state.samples.value[i] == Mono(QuantizeSample(values[i], 2)))
      && (forall i :: 0 <= i < |values| && QuantizeSample(values[i], 2) == -0x8000 ==>
            r.state.samples.value[i] == Mono(0x8000))
  {
    var f := WaveFile(1, 2, rate, values);
    HeaderRoundTrip(1, 2, rate, values, prev);
    PayloadRoundTrip(1, rate, values);
    DecoderSelection(2, 1);
    var u := Payload(f, 2).value;
    var s := MonoSamples(u, true);
    assert Decode(f, prev).state.samples == Some(s);
    forall i | 0 <= i < |values| && -0x8000 < QuantizeSample(values[i], 2) <= 0x8000
      ensures s[i] == Mono(QuantizeSample(values[i], 2))
    {
      FillInverts(QuantizeSample(values[i], 2));
    }
    FillKeepsHalfRange();
  }

  /**
   * 16-bit stereo, values written interleaved left, right, left, ...:
   * the first left channel comes back null, each written value at an even
   * position comes back as a right channel, each at an odd position as the
   * next pair's left channel, and the last value of an even count is lost.
   */
  lemma StereoRoundTripShifted(rate: int, values: seq<real>, prev: ReadState)
    requires ValidSampleRate(rate) && values != [] && |values| % 2 == 0
    ensures var r := ReadSpec(Some(WaveFile(2, 2, rate, values)), prev);
      && r.Returned?
      && r.state.samples.Some?
      && 2 * |r.state.samples.value| == |values|
    ensures var r := ReadSpec(Some(WaveFile(2, 2, rate, values)), prev);
      r.Returned? && r.state.samples.Some? ==>
      && (forall k :: 0 <= k < |r.state.samples.value| ==> r.state.samples.value[k].Stereo?)
      && (|r.state.samples.value| > 0 ==> r.state.samples.value[0] == Stereo(None, r.state.samples.value[0].right))
      && (forall k :: 0 <= k < |r.state.samples.value| && 2 * k < |values| ==>
            r.state.samples.value[k].Stereo? &&
            r.state.samples.value[k].right == Some(Fill(QuantizeSample(values[2 * k], 2) % 0x10000)))
      && (forall k :: 1 <= k < |r.state.samples.value| && 2 * k - 1 < |values| ==>
            r.state.samples.value[k].Stereo? &&
            r.state.samples.value[k].left == Some(Fill(QuantizeSample(values[2 * k - 1], 2) % 0x10000)))
  {
    var f := WaveFile(2, 2, rate, values);
    HeaderRoundTrip(2, 2, rate, values, prev);
    PayloadRoundTrip(2, rate, values);
    DecoderTypeOf(2, 2);
    var u := Payload(f, 2).value;
    assert Decode(f, prev).state.samples == Some(StereoPairs(u, true));
    StereoShift(u, true);
  }

  /** The two bytes of a little-endian word are its low and high byte. */
  lemma LE16Bytes(b: seq<Byte>, at: nat)
    requires at + 2 <= |b|
    ensures b[at] == ReadLE16(b, at) % 0x100 && b[at + 1] == ReadLE16(b, at) / 0x100
  {
  }

  /** The payload of an 8-bit file holds the writer's 16-bit words byte by byte. */
  lemma EightBitPayload(rate: int, values: seq<real>)
    requires ValidSampleRate(rate) && values != []
    ensures var f := WaveFile(1, 1, rate, values);
      && |f| == HEADER_SIZE + 2 * |values|
      && Payload(f, 1) == Ok(Unpack(f[HEADER_SIZE..], 1))
      && forall i :: 0 <= i < |values| ==>
           var word := QuantizeSample(values[i], 1) % 0x10000;
           f[HEADER_SIZE + 2 * i] == word % 0x100 && f[HEADER_SIZE + 2 * i + 1] == word / 0x100
  {
    var f := WaveFile(1, 1, rate, values);
    WaveFileSizes(1, 1, rate, values);
    var binary := f[HEADER_SIZE..];
    assert binary == EncodeSamples(values, 1);
    EncodeSamplesWords(values, 1);
    forall i | 0 <= i < |values|
      ensures f[HEADER_SIZE + 2 * i] == (QuantizeSample(values[i], 1) % 0x10000) % 0x100
      ensures f[HEADER_SIZE + 2 * i + 1] == (QuantizeSample(values[i], 1) % 0x10000) / 0x100
    {
      LE16Bytes(binary, 2 * i);
    }
  }

  /**
   * 8-bit mono: the writer stores two bytes per value, the reader takes
   * one sample per byte, so `n` values come back as `2n` samples, the low
   * byte of each 16-bit word followed by its high byte.
   */
  lemma EightBitMonoDoubled(rate: int, values: seq<real>, prev: ReadState)
    requires ValidSampleRate(rate) && values != []
    ensures var r := ReadSpec(Some(WaveFile(1, 1, rate, values)), prev);
      && r.Returned?
      && r.state.samples.Some?
      && |r.state.samples.value| == 2 * |values|
      && forall i :: 0 <= i < |values| ==>
           var word := QuantizeSample(values[i], 1) % 0x10000;
           r.state.samples.value[2 * i] == Mono(word % 0x100) && r.state.samples.value[2 * i + 1] == Mono(word / 0x100)
  {
    var f := WaveFile(1, 1, rate, values);
    HeaderRoundTrip(1, 1, rate, values, prev);
    EightBitPayload(rate, values);
    var binary := f[HEADER_SIZE..];
    LowQualityMono(binary);
    var s := Samples(Unpack(binary, 1), 1, 1);
    assert Decode(f, prev).state.samples == Some(s);
    forall i | 0 <= i < |values|
      ensures s[2 * i] == Mono(f[HEADER_SIZE + 2 * i]) && s[2 * i + 1] == Mono(f[HEADER_SIZE + 2 * i + 1])
    {
    }
  }
}
