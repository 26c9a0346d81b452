/**
 * The WAVE reader: it checks the header chunk by chunk, keeps channels,
 * sample size and rate, reads everything after byte 44 as the payload and
 * groups the decoded values by channel.
 *
 * The reader is kept as PHP runs it: the `&&` chain of header checks is
 * evaluated for its side effects and its value is discarded, so a file
 * with a bad header still makes `read` return true. The stereo decoders
 * walk keys 0, 2, 4, ... of the 1-based array `unpack` returns.
 */
module WaveReader {
  import opened Wrappers
  import opened WaveFormat

  /** What PHP 8 throws out of `readData`. */
  datatype ReadError =
    | ValueError       // `fread` asked for 0 bytes: the payload is empty
    | DivisionByZero   // `dataSize / quality` with a sample size of 0

  /**
   * The array `unpack` returns for the payload. With an integral sample
   * count its keys are 1..n; with a fractional count the format string
   * reads like `v2.5`, so `.5` becomes a key prefix and no integer key
   * exists (`numbered` is false).
   */
  datatype Unpacked = Unpacked(values: seq<int>, numbered: bool)

  /** One decoded sample: a single value, or a left/right pair that may hold nulls. */
  datatype Sample = Mono(value: int) | Stereo(left: Option<int>, right: Option<int>)

  /** The reader's four output fields; `None` is PHP's initial `null`. */
  datatype ReadState = ReadState(channels: Option<nat>, quality: Option<nat>, rate: Option<nat>,
                                 samples: Option<seq<Sample>>)

  /** The fields after a `read`, and what it threw, if anything. */
  datatype Decoding = Decoding(state: ReadState, error: Option<ReadError>)

  /** What a caller of `read` observes. */
  datatype ReadResult =
    | CannotOpen                 // `read` returns false
    | Returned(state: ReadState) // `read` returns true and fills the by-reference outputs
    | Threw(error: ReadError)

  function Min(a: int, b: int): int { if a <= b then a else b }

  // ---------------------------------------------------------------------
  // The header checks, on the whole file.

  /** `readChunkDescriptor`: 12 bytes, tags RIFF and WAVE. */
  predicate DescriptorOk(file: seq<Byte>)
  {
    |file| >= 12 && ReadBE32(file, 0) == RIFF && ReadBE32(file, 8) == WAVE
  }

  /** The three checks of `readFormatSubChunk`, once its 24 bytes are there. */
  predicate FormatOk(file: seq<Byte>)
    requires |file| >= 36
  {
    ReadBE32(file, 12) == FMT && ReadLE32(file, 16) == PCM_SIZE && ReadLE16(file, 20) == PCM_TYPE
  }

  /** `readDataHeader`: 8 bytes, tag `data`; the size field is not looked at. */
  predicate DataHeaderOk(file: seq<Byte>)
  {
    |file| >= HEADER_SIZE && ReadBE32(file, 36) == DATA
  }

  /** The `&&` chain reaches `readData`. */
  predicate HeaderAccepted(file: seq<Byte>)
  {
    DescriptorOk(file) && |file| >= 36 && FormatOk(file) && DataHeaderOk(file)
  }

  /** The sample size `bitsPerSample >> 3`. */
  function QualityOf(file: seq<Byte>): nat
    requires |file| >= 36
  {
    ReadLE16(file, 34) / 8
  }

  // ---------------------------------------------------------------------
  // The payload.

  /**
   * `unpack("C{n}")` or `unpack("v{n}")` of the payload with
   * `n = |binary| / quality`: unsigned bytes for a sample size of 1,
   * unsigned 16-bit little-endian words otherwise, `floor(n)` of them.
   */
  function Unpack(binary: seq<Byte>, quality: nat): (r: Unpacked)
    requires quality >= 1
    ensures quality == 1 ==> r.numbered && r.values == binary
    ensures quality >= 2 ==> |r.values| == |binary| / quality && r.numbered == (|binary| % quality == 0)
    ensures quality >= 2 ==> forall k :: 0 <= k < |r.values| ==> 2 * k + 2 <= |binary|
    ensures forall k :: 0 <= k < |r.values| ==> 0 <= r.values[k] < (if quality == 1 then 0x100 else 0x10000)
  {
    if quality == 1 then Unpacked(binary, true)
    else
      var n := |binary| / quality;
      assert 2 * n <= |binary| by { assert quality * n <= |binary|; }
      Unpacked(seq(n, k requires 0 <= k < n => ReadLE16(binary, 2 * k)), |binary| % quality == 0)
  }

  /** For a sample size of 2 or more, value `k` is the little-endian word at bytes `2k` and `2k + 1`. */
  lemma {:induction false} UnpackWords(binary: seq<Byte>, quality: nat)
    requires quality >= 2
    ensures var r := Unpack(binary, quality);
      forall k :: 0 <= k < |r.values| ==> 2 * k + 2 <= |binary| && r.values[k] == ReadLE16(binary, 2 * k)
  {
    var r := Unpack(binary, quality);
    forall k | 0 <= k < |r.values|
      ensures 2 * k + 2 <= |binary| && r.values[k] == ReadLE16(binary, 2 * k)
    {
    }
  }

  /**
   * `readData`: everything from byte 44 to the end of the file, whatever
   * the data header's size field says.
   */
  function Payload(file: seq<Byte>, quality: nat): (r: Result<Unpacked, ReadError>)
    requires |file| >= HEADER_SIZE
    ensures r == Err(ValueError) <==> |file| == HEADER_SIZE
    ensures r == Err(DivisionByZero) <==> |file| > HEADER_SIZE && quality == 0
    ensures r.Ok? ==> quality >= 1 && r.value == Unpack(file[HEADER_SIZE..], quality)
  {
    if |file| - HEADER_SIZE == 0 then Err(ValueError)
    else if quality == 0 then Err(DivisionByZero)
    else Ok(Unpack(file[HEADER_SIZE..], quality))
  }

  // ---------------------------------------------------------------------
  // Decoding.

  /**
   * `fill`: `(-1 << 16) | n` for `0x8000 < n`, which for a 16-bit `n` is
   * `n - 2^16`. The result is the representative of `n` modulo 2^16 in
   * (-2^15, 2^15]: 0x8000 is not sign-extended.
   */
  function Fill(n: int): (r: int)
    ensures 0 <= n < 0x10000 ==> -0x8000 < r <= 0x8000 && r % 0x10000 == n
  {
    if 0x8000 < n then n - 0x10000 else n
  }

  /** `fill` applied to a lookup that may have missed: `0x8000 < null` is false. */
  function FillOption(v: Option<int>, fill: bool): Option<int>
  {
    if fill && v.Some? then Some(Fill(v.value)) else v
  }

  /** `$values[$key]`: `null` unless the array has that integer key. */
  function Lookup(u: Unpacked, key: int): (r: Option<int>)
    ensures r.Some? <==> u.numbered && 1 <= key <= |u.values|
    ensures r.Some? ==> r.value == u.values[key - 1]
  {
    if u.numbered && 1 <= key <= |u.values| then Some(u.values[key - 1]) else None
  }

  /** Bitwise or of two naturals. */
  function BitOr(a: nat, b: nat): nat
    decreases a + b
  {
    if a == 0 then b
    else if b == 0 then a
    else 2 * BitOr(a / 2, b / 2) + (if a % 2 == 1 || b % 2 == 1 then 1 else 0)
  }

  /** `((quality - 1) << 1) | (channels - 1)`; with no channels the `-1` makes it -1. */
  function DecoderType(quality: nat, channels: nat): int
    requires quality >= 1
  {
    if channels == 0 then -1 else BitOr(2 * (quality - 1), channels - 1)
  }

  /** `getLowQualityMonoSamples` (`array_values`) and `getHighQualityMonoSamples`. */
  function MonoSamples(u: Unpacked, fill: bool): (r: seq<Sample>)
    ensures |r| == |u.values|
    ensures forall k :: 0 <= k < |r| ==> r[k].Mono?
  {
    seq(|u.values|, k requires 0 <= k < |u.values| =>
      Mono(if fill then Fill(u.values[k]) else u.values[k]))
  }

  /**
   * 8-bit mono (`getLowQualityMonoSamples`): one sample per byte of the
   * payload, in file order, each in 0..255.
   */
  lemma {:induction false} LowQualityMono(binary: seq<Byte>)
    ensures var r := Samples(Unpack(binary, 1), 1, 1);
      && |r| == |binary|
      && forall k :: 0 <= k < |r| ==> r[k] == Mono(binary[k]) && 0 <= r[k].value < 0x100
  {
    DecoderTypeOf(1, 1);
    var u := Unpack(binary, 1);
    assert u.values == binary;
  }

  /** The stereo decoders: the pair `($values[$i], $values[$i + 1])` for `$i = 0, 2, 4, ...`. */
  function StereoPairs(u: Unpacked, fill: bool): (r: seq<Sample>)
    ensures |r| == (|u.values| + 1) / 2
  {
    seq((|u.values| + 1) / 2, k requires 0 <= k < (|u.values| + 1) / 2 =>
      Stereo(FillOption(Lookup(u, 2 * k), fill), FillOption(Lookup(u, 2 * k + 1), fill)))
  }

  /** `getSamples`: the decoder the type selects. */
  function Samples(u: Unpacked, quality: nat, channels: nat): seq<Sample>
    requires quality >= 1
  {
    match DecoderType(quality, channels)
    case 0 => MonoSamples(u, false)
    case 1 => StereoPairs(u, false)
    case 2 => MonoSamples(u, true)
    case _ => StereoPairs(u, true)
  }

  /**
   * One `read` of an opened file: the fields it leaves and what it throws.
   * The format fields are stored before the format checks run.
   */
  function Decode(file: seq<Byte>, prev: ReadState): (d: Decoding)
  {
    if !DescriptorOk(file) || |file| < 36 then Decoding(prev, None)
    else
      var quality := QualityOf(file);
      var channels := ReadLE16(file, 22);
      var stored := prev.(channels := Some(channels), quality := Some(quality), rate := Some(ReadLE32(file, 24)));
      if !FormatOk(file) || !DataHeaderOk(file) then Decoding(stored, None)
      else match Payload(file, quality)
        case Err(e) => Decoding(stored, Some(e))
        case Ok(u) => Decoding(stored.(samples := Some(Samples(u, quality, channels))), None)
  }

  /** `read($path, ...)`: `None` stands for a path that cannot be opened. */
  function ReadSpec(source: Option<seq<Byte>>, prev: ReadState): ReadResult
  {
    match source
    case None => CannotOpen
    case Some(file) =>
      var d := Decode(file, prev);
      if d.error.Some? then Threw(d.error.value) else Returned(d.state)
  }

  // ---------------------------------------------------------------------
  // Properties of the specification.

  /** `read` answers false only when the file cannot be opened; a rejected header still answers true. */
  lemma ReadAnswersTrue(file: seq<Byte>, prev: ReadState)
    ensures ReadSpec(Some(file), prev).Returned? <==>
      !(HeaderAccepted(file) && (|file| == HEADER_SIZE || QualityOf(file) == 0))
    ensures !HeaderAccepted(file) ==> ReadSpec(Some(file), prev) == Returned(Decode(file, prev).state)
    ensures !HeaderAccepted(file) ==> Decode(file, prev).state.samples == prev.samples
  {
  }

  /** An accepted header with an empty payload throws ValueError; a zero sample size throws DivisionByZero. */
  lemma ReadErrors(file: seq<Byte>, prev: ReadState)
    ensures Decode(file, prev).error == Some(ValueError) <==> HeaderAccepted(file) && |file| == HEADER_SIZE
    ensures Decode(file, prev).error == Some(DivisionByZero) <==>
      HeaderAccepted(file) && |file| > HEADER_SIZE && QualityOf(file) == 0
  {
  }

  /**
   * Channels, sample size and rate are taken from any file whose descriptor
   * passes and which has the 24 format bytes, even when the format checks
   * then fail; otherwise the previous values stay.
   */
  lemma FieldsBeforeChecks(file: seq<Byte>, prev: ReadState)
    ensures DescriptorOk(file) && |file| >= 36 ==>
      && Decode(file, prev).state.channels == Some(ReadLE16(file, 22))
      && Decode(file, prev).state.quality == Some(ReadLE16(file, 34) / 8)
      && Decode(file, prev).state.rate == Some(ReadLE32(file, 24))
    ensures !(DescriptorOk(file) && |file| >= 36) ==> Decode(file, prev).state == prev
  {
  }

  /** The six header checks, on the file's own offsets. */
  lemma HeaderChecks(file: seq<Byte>)
    ensures HeaderAccepted(file) <==>
      && |file| >= HEADER_SIZE
      && ReadBE32(file, 0) == RIFF && ReadBE32(file, 8) == WAVE
      && ReadBE32(file, 12) == FMT && ReadLE32(file, 16) == PCM_SIZE && ReadLE16(file, 20) == PCM_TYPE
      && ReadBE32(file, 36) == DATA
  {
  }

  lemma {:induction false} BitOrZero(a: nat)
    ensures BitOr(a, 0) == a && BitOr(0, a) == a
  {
  }

  /** `a | b` lies between the larger operand and the sum. */
  lemma {:induction false} BitOrBounds(a: nat, b: nat)
    ensures a <= BitOr(a, b) && b <= BitOr(a, b) && BitOr(a, b) <= a + b
    decreases a + b
  {
    if a != 0 && b != 0 {
      BitOrBounds(a / 2, b / 2);
    }
  }

  /** With one or two channels the type is `2 * (quality - 1) + channels - 1`. */
  lemma DecoderTypeOf(quality: nat, channels: nat)
    requires quality >= 1 && 1 <= channels <= 2
    ensures DecoderType(quality, channels) == 2 * (quality - 1) + channels - 1
  {
    var a := 2 * (quality - 1);
    if channels == 2 && a != 0 {
      assert BitOr(a, 1) == 2 * BitOr(a / 2, 0) + 1;
      BitOrZero(a / 2);
    }
  }

  /**
   * Which files reach which decoder: 8-bit mono and 8-bit stereo exactly
   * for their parameters; the 16-bit mono decoder also for 16-bit and
   * 8-bit files that declare three channels; everything else, including
   * sample sizes above 2 and zero channels, goes to 16-bit stereo.
   */
  lemma DecoderSelection(quality: nat, channels: nat)
    requires quality >= 1
    ensures DecoderType(quality, channels) == 0 <==> quality == 1 && channels == 1
    ensures DecoderType(quality, channels) == 1 <==> quality == 1 && channels == 2
    ensures DecoderType(quality, channels) == 2 <==>
      (quality == 2 && channels == 1) || (quality == 2 && channels == 3) || (quality == 1 && channels == 3)
  {
    if channels > 0 {
      var a, b := 2 * (quality - 1), channels - 1;
      BitOrBounds(a, b);
      if a <= 2 && b <= 2 {
        if a == 2 && b == 1 {
          assert BitOr(a, b) == 2 * BitOr(1, 0) + 1;
        }
        if a == 2 && b == 2 {
          assert BitOr(a, b) == 2 * BitOr(1, 1);
          assert BitOr(1, 1) == 2 * BitOr(0, 0) + 1;
        }
      }
    }
  }

  /**
   * `fill` inverts the writer's `mod 2^16` on (-2^15, 2^15]; in particular
   * every value the writer can pack except -2^15 comes back unchanged.
   */
  lemma FillInverts(k: int)
    requires -0x8000 < k <= 0x8000
    ensures Fill(k % 0x10000) == k
  {
  }

  /** -2^15 is packed as 0x8000 and is read back as +2^15. */
  lemma FillKeepsHalfRange()
    ensures Fill(-0x8000 % 0x10000) == 0x8000
    ensures Fill(0x8001) == -0x7fff && Fill(0xffff) == -1 && Fill(0x8000) == 0x8000
  {
  }

  /**
   * The stereo off-by-one. With integer keys, pair k holds values k*2-1
   * and k*2 (0-based), the first left channel is missing, and for an even
   * count there are only count/2 pairs, so the last value is never read.
   */
  lemma StereoShift(u: Unpacked, fill: bool)
    requires u.numbered && |u.values| > 0
    ensures StereoPairs(u, fill)[0].left.None?
    ensures forall k :: 0 <= k < |StereoPairs(u, fill)| ==>
      StereoPairs(u, fill)[k].right == FillOption(Some(u.values[2 * k]), fill)
    ensures forall k :: 1 <= k < |StereoPairs(u, fill)| ==>
      StereoPairs(u, fill)[k].left == FillOption(Some(u.values[2 * k - 1]), fill)
    ensures |u.values| % 2 == 0 ==> 2 * |StereoPairs(u, fill)| == |u.values|
  {
  }

  /** With a fractional sample count no integer key exists and every pair is `(null, null)`. */
  lemma StereoWithoutKeys(u: Unpacked, fill: bool)
    requires !u.numbered
    ensures forall k :: 0 <= k < |StereoPairs(u, fill)| ==> StereoPairs(u, fill)[k] == Stereo(None, None)
  {
  }

  // ---------------------------------------------------------------------
  // The decoders, as the source runs them.

  /** `getLowQualityStereoSamples`: pairs of raw lookups, stepping by two. */
  method LowQualityStereoSamples(values: Unpacked) returns (samples: seq<Sample>)
    ensures samples == StereoPairs(values, false)
  {
    samples := PairUp(values, false);
  }

  /** `getHighQualityStereoSamples`: pairs of filled lookups, stepping by two. */
  method HighQualityStereoSamples(raw: Unpacked) returns (samples: seq<Sample>)
    ensures samples == StereoPairs(raw, true)
  {
    samples := PairUp(raw, true);
  }

  /** The loop both stereo decoders run. */
  method PairUp(values: Unpacked, fill: bool) returns (samples: seq<Sample>)
    ensures samples == StereoPairs(values, fill)
  {
    samples := [];
    var i, n := 0, |values.values|;
    while i < n
      invariant 0 <= i <= n + 1 && i % 2 == 0
      invariant |samples| == i / 2
      invariant forall k :: 0 <= k < |samples| ==>
        samples[k] == Stereo(FillOption(Lookup(values, 2 * k), fill), FillOption(Lookup(values, 2 * k + 1), fill))
    {
      var left := FillOption(Lookup(values, i), fill);
      var right := FillOption(Lookup(values, i + 1), fill);
      samples := samples + [Stereo(left, right)];
      i := i + 2;
    }
  }

  /** `getHighQualityMonoSamples`: every value, in order, through `fill`. */
  method HighQualityMonoSamples(values: Unpacked) returns (samples: seq<Sample>)
    ensures samples == MonoSamples(values, true)
  {
    samples := [];
    var i := 0;
    while i < |values.values|
      invariant 0 <= i <= |values.values|
      invariant |samples| == i
      invariant forall k :: 0 <= k < i ==> samples[k] == Mono(Fill(values.values[k]))
    {
      samples := samples + [Mono(Fill(values.values[i]))];
      i := i + 1;
    }
  }

  class Reader {
    /** The opened file's bytes, and the offset the next `fread` starts at. */
    var file: seq<Byte>
    var position: nat
    var fileSize: int
    var channels: Option<nat>
    var quality: Option<nat>
    var rate: Option<nat>
    var samples: Option<seq<Sample>>

    function State(): ReadState
      reads this
    {
      ReadState(channels, quality, rate, samples)
    }

    constructor ()
      ensures State() == ReadState(None, None, None, None)
    {
      file, position, fileSize := [], 0, 0;
      channels, quality, rate, samples := None, None, None, None;
    }

    /**
     * `read`: opens the file, runs the header steps until one fails,
     * decodes the payload if they all pass, and hands out the fields.
     */
    method Read(source: Option<seq<Byte>>) returns (result: ReadResult)
      modifies this
      ensures result == ReadSpec(source, old(State()))
      ensures source.None? ==> unchanged(this)
      ensures source.Some? ==> State() == Decode(source.value, old(State())).state
    {
      if source.None? {
        return CannotOpen;
      }
      file := source.value;
      fileSize := |file|;
      position := 0;
      ghost var prev := State();
      var ok := ReadChunkDescriptor();
      if ok {
        ok := ReadFormatSubChunk();
      }
      if ok {
        ok := ReadDataHeader();
      }
      if ok {
        var err := ReadData();
        if err.Some? {
          return Threw(err.value);
        }
      }
      result := Returned(State());
    }

    /** `fread`: up to `length` bytes from the current offset; PHP 8 refuses a length below 1. */
    method Fread(length: int) returns (r: Result<seq<Byte>, ReadError>)
      requires position <= |file|
      modifies this`position
      ensures length <= 0 ==> r == Err(ValueError) && position == old(position)
      ensures length > 0 ==> position == Min(old(position) + length, |file|)
      ensures length > 0 ==> r == Ok(file[old(position)..position])
    {
      if length <= 0 {
        return Err(ValueError);
      }
      var end := Min(position + length, |file|);
      r := Ok(file[position..end]);
      position := end;
    }

    method ReadChunkDescriptor() returns (ok: bool)
      requires position == 0
      modifies this`position
      ensures position == Min(12, |file|)
      ensures ok == DescriptorOk(file)
    {
      var binary := Fread(12);
      var b := binary.value;
      if |b| < 12 {
        return false;
      }
      ReadBE32Sub(file, 0, 12, 0);
      ReadBE32Sub(file, 0, 12, 8);
      ok := ReadBE32(b, 0) == RIFF && ReadBE32(b, 8) == WAVE;
    }

    method ReadFormatSubChunk() returns (ok: bool)
      requires position == 12 <= |file|
      modifies this`position, this`channels, this`quality, this`rate
      ensures |file| < 36 ==> !ok && position == |file|
      ensures |file| < 36 ==> channels == old(channels) && quality == old(quality) && rate == old(rate)
      ensures |file| >= 36 ==> position == 36 && ok == FormatOk(file)
      ensures |file| >= 36 ==>
        channels == Some(ReadLE16(file, 22)) && quality == Some(QualityOf(file)) && rate == Some(ReadLE32(file, 24))
    {
      var binary := Fread(24);
      var b := binary.value;
      if |b| < 24 {
        return false;
      }
      ReadLE16Sub(file, 12, 36, 10);
      ReadLE16Sub(file, 12, 36, 22);
      ReadLE32Sub(file, 12, 36, 12);
      channels := Some(ReadLE16(b, 10));
      quality := Some(ReadLE16(b, 22) / 8);
      rate := Some(ReadLE32(b, 12));
      ReadBE32Sub(file, 12, 36, 0);
      ReadLE32Sub(file, 12, 36, 4);
      ReadLE16Sub(file, 12, 36, 8);
      ok := ReadBE32(b, 0) == FMT && ReadLE32(b, 4) == PCM_SIZE && ReadLE16(b, 8) == PCM_TYPE;
    }

    method ReadDataHeader() returns (ok: bool)
      requires position == 36 <= |file|
      modifies this`position
      ensures position == Min(HEADER_SIZE, |file|)
      ensures ok == DataHeaderOk(file)
    {
      var binary := Fread(8);
      var b := binary.value;
      if |b| < 8 {
        return false;
      }
      ReadBE32Sub(file, 36, 44, 0);
      ok := ReadBE32(b, 0) == DATA;
    }

    /** `readData`: the payload from byte 44 on, unpacked and grouped. */
    method ReadData() returns (err: Option<ReadError>)
      requires fileSize == |file| >= HEADER_SIZE && channels.Some? && quality.Some?
      modifies this`position, this`samples
      ensures Payload(file, quality.value).Err? ==>
        err == Some(Payload(file, quality.value).error) && samples == old(samples)
      ensures Payload(file, quality.value).Ok? ==>
        err.None? && samples == Some(Samples(Payload(file, quality.value).value, quality.value, channels.value))
    {
      position := HEADER_SIZE;
      var dataSize := fileSize - HEADER_SIZE;
      var binary := Fread(dataSize);
      if binary.Err? {
        return Some(binary.error);
      }
      if quality.value == 0 {
        return Some(DivisionByZero);
      }
      assert binary.value == file[HEADER_SIZE..];
      var values := Unpack(binary.value, quality.value);
      var decoded := GetSamples(values);
      samples := Some(decoded);
      err := None;
    }

    /** `getSamples`: dispatches on the decoder type. */
    method GetSamples(values: Unpacked) returns (r: seq<Sample>)
      requires channels.Some? && quality.Some? && quality.value >= 1
      ensures r == Samples(values, quality.value, channels.value)
    {
      match DecoderType(quality.value, channels.value)
      case 0 => r := MonoSamples(values, false);
      case 1 => r := LowQualityStereoSamples(values);
      case 2 => r := HighQualityMonoSamples(values);
      case _ => r := HighQualityStereoSamples(values);
    }
  }
}
