/**
 * The synthesiser: plays a score on the marimba into a 16-bit mono WAVE
 * file at 44100 samples per second. A buffer holds the samples of the
 * notes still sounding; when a later note starts, the buffer's first
 * samples up to that onset are written (padded with silence when the
 * buffer runs short), and each note's sound is mixed into the buffer at a
 * quarter of its amplitude.
 */
module Synthesis {
  import opened Wrappers
  import opened WaveFormat
  import opened WaveWriter
  import Scoring

  const RATE: int := 44100

  /** `(int)` of a float: truncation toward zero. */
  function Truncate(x: real): (r: int)
    ensures x >= 0.0 ==> 0 <= r && r as real <= x < r as real + 1.0
    ensures x < 0.0 ==> r <= 0 && r as real - 1.0 < x <= r as real
  {
    if x >= 0.0 then x.Floor else -((-x).Floor)
  }

  function Min(a: int, b: int): int { if a <= b then a else b }

  function Max(a: int, b: int): int { if a >= b then a else b }

  /** `array_fill(0, n, 0)`. */
  function Zeros(n: nat): (r: seq<real>)
    ensures |r| == n && forall i :: 0 <= i < n ==> r[i] == 0.0
  {
    seq(n, i => 0.0)
  }

  /**
   * The marimba. Its waveform (sines under an exponential decay) is a
   * parameter here; what the synthesiser depends on is that it sounds for
   * exactly one second, whatever duration it is asked for.
   */
  datatype Marimba = Marimba(wave: (real, real) -> real)
  {
    function Get(frequency: real, t: real, duration: real): Option<real>
    {
      if 1.0 < t then None else Some(wave(frequency, t))
    }
  }

  /** The sound of one note: one second of the instrument's values at `i / RATE`. */
  function Sound(marimba: Marimba, frequency: real): (r: seq<real>)
    ensures |r| == RATE + 1
  {
    seq(RATE + 1, i requires 0 <= i <= RATE => marimba.wave(frequency, i as real / RATE as real))
  }

  /** The sound is the instrument's answers at `i / RATE` for every `i` before the first refusal. */
  lemma SoundIsLeadingSuccesses(marimba: Marimba, frequency: real, duration: real)
    ensures forall i :: 0 <= i < |Sound(marimba, frequency)| ==>
      marimba.Get(frequency, i as real / RATE as real, duration) == Some(Sound(marimba, frequency)[i])
    ensures marimba.Get(frequency, |Sound(marimba, frequency)| as real / RATE as real, duration) == None
  {
  }

  /** The instrument ignores the duration it is asked for. */
  lemma DurationIgnored(marimba: Marimba, frequency: real, t: real, d1: real, d2: real)
    ensures marimba.Get(frequency, t, d1) == marimba.Get(frequency, t, d2)
  {
  }

  /** `add`: the song with the sound mixed in at a quarter of its amplitude, a missing song sample counting as 0. */
  function Overlay(song: seq<real>, sound: seq<real>): (r: seq<real>)
    ensures |r| == Max(|song|, |sound|)
  {
    seq(Max(|song|, |sound|), i requires 0 <= i < Max(|song|, |sound|) =>
      if i < |sound| then (if i < |song| then song[i] else 0.0) + sound[i] / 4.0 else song[i])
  }

  /** Each sample of the mix: song plus a quarter of the sound where the sound lasts, the song alone after it. */
  lemma OverlayMixes(song: seq<real>, sound: seq<real>)
    ensures forall i :: 0 <= i < |sound| ==>
      Overlay(song, sound)[i] == (if i < |song| then song[i] else 0.0) + sound[i] / 4.0
    ensures forall i :: |sound| <= i < |song| ==> Overlay(song, sound)[i] == song[i]
  {
  }

  /** Mixing a sound in never shortens the song and leaves what lies beyond the sound alone. */
  lemma OverlayKeepsTail(song: seq<real>, sound: seq<real>)
    requires |sound| <= |song|
    ensures |Overlay(song, sound)| == |song|
    ensures Overlay(song, sound)[|sound|..] == song[|sound|..]
  {
  }

  /** Where the timeline stands between notes: what has been written, the buffer, and the buffer's start time. */
  datatype Mix = Mix(written: seq<real>, song: seq<real>, songTime: real)

  /**
   * One gap of `length` samples: the first `length` buffered samples are
   * written (all of them if there are fewer), then zeros for the rest.
   */
  function Flush(m: Mix, length: nat): (r: Mix)
    ensures r.songTime == m.songTime
    ensures |r.written| == |m.written| + length
  {
    var taken := Min(length, |m.song|);
    Mix(m.written + m.song[..taken] + Zeros(length - taken), m.song[taken..], m.songTime)
  }

  /** A flush writes the buffer's samples once, in order, and keeps the rest buffered. */
  lemma FlushWritesBufferOnce(m: Mix, length: nat)
    ensures length <= |m.song| ==> Flush(m, length).written + Flush(m, length).song == m.written + m.song
    ensures length >= |m.song| ==> Flush(m, length).written == m.written + m.song + Zeros(length - |m.song|)
    ensures length >= |m.song| ==> Flush(m, length).song == []
  {
    if length <= |m.song| {
      assert m.song[..length] + m.song[length..] == m.song;
    }
  }

  /** The number of samples a gap from `from` to `to` seconds takes. */
  function GapLength(from: real, to: real): nat
    requires from < to
  {
    Truncate(RATE as real * (to - from))
  }

  /** The flush a note causes: up to its onset when it starts after the buffer, none otherwise. */
  function Gap(m: Mix, note: Scoring.Event): (r: Mix)
    ensures m.songTime < note.time ==> r.songTime == note.time
    ensures note.time <= m.songTime ==> r == m
  {
    if m.songTime < note.time then Flush(m, GapLength(m.songTime, note.time)).(songTime := note.time) else m
  }

  /** Writing the buffered samples up to a later note's onset, then the padding, is that note's gap. */
  lemma FlushedBy(m: Mix, note: Scoring.Event, written: seq<real>)
    requires m.songTime < note.time
    requires var length := GapLength(m.songTime, note.time);
      written == m.written + m.song[..Min(length, |m.song|)] + Zeros(length - Min(length, |m.song|))
    ensures var length := GapLength(m.songTime, note.time);
      Mix(written, m.song[Min(length, |m.song|)..], note.time) == Gap(m, note)
  {
  }

  /** One note of the timeline: its gap, then its sound mixed into the buffer. */
  function Step(marimba: Marimba, m: Mix, note: Scoring.Event): (r: Mix)
    ensures r.songTime == Gap(m, note).songTime && r.written == Gap(m, note).written
  {
    var flushed := Gap(m, note);
    flushed.(song := Overlay(flushed.song, Sound(marimba, note.frequency)))
  }

  function Mixdown(marimba: Marimba, m: Mix, notes: seq<Scoring.Event>): Mix
    decreases |notes|
  {
    if notes == [] then m else Mixdown(marimba, Step(marimba, m, notes[0]), notes[1..])
  }

  /** Where the timeline starts: half a second of silence before a song, nothing otherwise. */
  function Start(isSong: bool): Mix
  {
    Mix(if isSong then Zeros(Truncate(RATE as real * 0.5)) else [], [], 0.0)
  }

  /** Everything `synthesize` writes: the flushed samples, then the buffer left at the end. */
  function Timeline(marimba: Marimba, notes: seq<Scoring.Event>, isSong: bool): seq<real>
  {
    var m := Mixdown(marimba, Start(isSong), notes);
    m.written + m.song
  }

  /** What has been written is never taken back. */
  lemma {:induction false} MixdownKeepsWritten(marimba: Marimba, m: Mix, notes: seq<Scoring.Event>)
    ensures m.written <= Mixdown(marimba, m, notes).written
    decreases |notes|
  {
    if notes != [] {
      var next := Step(marimba, m, notes[0]);
      assert m.written <= next.written;
      MixdownKeepsWritten(marimba, next, notes[1..]);
    }
  }

  /** A song starts with exactly half a second of silence: 22050 zeros before any note. */
  lemma SongStartsSilent(marimba: Marimba, notes: seq<Scoring.Event>)
    ensures Truncate(RATE as real * 0.5) == 22050
    ensures |Timeline(marimba, notes, true)| >= 22050
    ensures forall i :: 0 <= i < 22050 ==> Timeline(marimba, notes, true)[i] == 0.0
  {
    var m := Mixdown(marimba, Start(true), notes);
    MixdownKeepsWritten(marimba, Start(true), notes);
    assert Start(true).written == Zeros(22050);
    forall i | 0 <= i < 22050
      ensures Timeline(marimba, notes, true)[i] == 0.0
    {
      assert m.written[i] == Start(true).written[i];
    }
  }

  /** A single note after a pause: silence up to its onset, then its sound at a quarter of its amplitude. */
  lemma SingleNote(marimba: Marimba, note: Scoring.Event)
    requires note.time > 0.0
    ensures var r := Timeline(marimba, [note], false);
      var gap := GapLength(0.0, note.time);
      && |r| == gap + RATE + 1
      && (forall i :: 0 <= i < gap ==> r[i] == 0.0)
      && (forall i :: 0 <= i <= RATE ==> r[gap + i] == Sound(marimba, note.frequency)[i] / 4.0)
  {
    var gap := GapLength(0.0, note.time);
    var flushed := Flush(Start(false), gap).(songTime := note.time);
    assert flushed.written == Zeros(gap) && flushed.song == [];
    assert Mixdown(marimba, Start(false), [note]) == Step(marimba, Start(false), note);
  }

  /** The cache key `"frequency:spread"`. */
  datatype Key = Key(frequency: real, spread: real)

  class Synthesizer {
    var rate: int
    var cache: map<Key, seq<real>>
    /** The instrument `synthesize` plays on. */
    const marimba: Marimba

    /** Every cached sample is the sound of its frequency. */
    ghost predicate Valid()
      reads this
    {
      forall key :: key in cache ==> cache[key] == Sound(marimba, key.frequency)
    }

    constructor (marimba: Marimba)
      ensures Valid() && cache == map[] && this.marimba == marimba
    {
      this.marimba := marimba;
      rate := 0;
      cache := map[];
    }

    /** `synthesize`: opens a 16-bit mono file at 44100 Hz, plays the notes in order, writes the rest of the buffer and closes. */
    method Synthesize(notes: seq<Scoring.Event>, isSong: bool) returns (writer: Writer)
      requires Valid()
      modifies this
      ensures Valid() && fresh(writer)
      ensures writer.phase == Closed
      ensures writer.channels == 1 && writer.quality == 2 && writer.rate == RATE
      ensures writer.file == WaveFile(1, 2, RATE, Timeline(marimba, notes, isSong))
      ensures rate == RATE
      ensures cache.Keys == old(cache).Keys + set n | n in notes :: Key(n.frequency, n.duration)
    {
      writer := OpenWriter(isSong);
      assert notes[0..] == notes;
      var song: seq<real> := [];
      var songTime: real := 0.0;
      for k := 0 to |notes|
        invariant Valid() && rate == RATE
        invariant cache.Keys == old(cache).Keys + set n | n in notes[..k] :: Key(n.frequency, n.duration)
        invariant writer.Valid() && writer.phase == Opened
        invariant writer.channels == 1 && writer.quality == 2 && writer.rate == RATE
        invariant Mixdown(marimba, Mix(writer.written, song, songTime), notes[k..])
               == Mixdown(marimba, Start(isSong), notes)
      {
        var note := notes[k];
        ghost var m := Mix(writer.written, song, songTime);
        song, songTime := FlushGap(writer, song, songTime, note);
        var sample := GetSample(note.frequency, note.duration);
        song := Add(song, sample);
        assert Mix(writer.written, song, songTime) == Step(marimba, m, note);
        assert notes[k..][1..] == notes[k + 1..];
        assert notes[..k + 1] == notes[..k] + [note];
      }
      assert notes[..|notes|] == notes;
      writer.Write(song);
      writer.Close();
    }

    /** The start of `synthesize`: a 16-bit mono writer at 44100 Hz, opened, with half a second of silence for a song. */
    method OpenWriter(isSong: bool) returns (writer: Writer)
      modifies this
      ensures rate == RATE && cache == old(cache) && fresh(writer)
      ensures writer.Valid() && writer.phase == Opened
      ensures writer.channels == 1 && writer.quality == 2 && writer.rate == RATE
      ensures writer.written == Start(isSong).written
    {
      var channels := 1;
      var quality := 2;
      rate := RATE;
      writer := new Writer();
      var _ := writer.Open(channels, quality, rate);
      if isSong {
        var silence := GetSilence(0.5);
        writer.Write(silence);
      }
    }

    /** The flush before a note that starts after the buffer: the buffered samples up to its onset, padded with silence. */
    method FlushGap(writer: Writer, song: seq<real>, songTime: real, note: Scoring.Event)
      returns (song': seq<real>, songTime': real)
      requires rate == RATE
      requires writer.Valid() && writer.phase == Opened
      modifies writer
      ensures writer.Valid() && writer.phase == Opened
      ensures writer.channels == old(writer.channels) && writer.quality == old(writer.quality) && writer.rate == old(writer.rate)
      ensures Mix(writer.written, song', songTime') == Gap(Mix(old(writer.written), song, songTime), note)
    {
      ghost var m := Mix(writer.written, song, songTime);
      if songTime < note.time {
        var duration := note.time - songTime;
        var length := Truncate(rate as real * duration);
        assert length == GapLength(songTime, note.time);
        var taken := Min(length, |song|);
        var samples := song[..taken];
        song' := song[taken..];
        writer.Write(samples);
        var silenceLength := length - |samples|;
        if 0 < silenceLength {
          var silence := Zeros(silenceLength);
          writer.Write(silence);
        } else {
          assert Zeros(length - taken) == [];
        }
        songTime' := note.time;
        FlushedBy(m, note, writer.written);
      } else {
        song', songTime' := song, songTime;
      }
    }

    /** `getSilence`: `(int)(rate * duration)` zeros. */
    function GetSilence(duration: real): (r: seq<real>)
      requires rate >= 0 && duration >= 0.0
      reads this
      ensures |r| == Truncate(rate as real * duration) && forall i :: 0 <= i < |r| ==> r[i] == 0.0
    {
      Zeros(Truncate(rate as real * duration))
    }

    /** `getSample`: the note's sound, synthesised on the first request for its key and cached. */
    method GetSample(frequency: real, spread: real) returns (sample: seq<real>)
      requires Valid() && rate == RATE
      modifies this
      ensures Valid() && rate == old(rate)
      ensures sample == Sound(marimba, frequency)
      ensures cache == old(cache)[Key(frequency, spread) := sample]
      ensures Key(frequency, spread) in old(cache) ==> cache == old(cache)
    {
      var key := Key(frequency, spread);
      if key !in cache {
        var synthesized := SynthesizeSample(frequency, spread);
        cache := cache[key := synthesized];
      }
      sample := cache[key];
    }

    /** `synthesizeSample`: asks the instrument for samples at `i / rate`, i = 0, 1, ..., until it declines. */
    method SynthesizeSample(frequency: real, duration: real) returns (samples: seq<real>)
      requires rate == RATE
      ensures forall i :: 0 <= i < |samples| ==> marimba.Get(frequency, i as real / rate as real, duration) == Some(samples[i])
      ensures marimba.Get(frequency, |samples| as real / rate as real, duration) == None
      ensures samples == Sound(marimba, frequency)
    {
      SoundIsLeadingSuccesses(marimba, frequency, duration);
      samples := [];
      var i := 0;
      while marimba.Get(frequency, i as real / rate as real, duration).Some?
        invariant i == |samples| <= RATE + 1
        invariant forall j :: 0 <= j < i ==> marimba.Get(frequency, j as real / rate as real, duration) == Some(samples[j])
        decreases RATE + 1 - i
      {
        var value := marimba.Get(frequency, i as real / rate as real, duration).value;
        samples := samples + [value];
        i := i + 1;
      }
    }

    /** `add`: adds a quarter of each sound sample into the song, extending it where the sound is longer. */
    method Add(songSamples: seq<real>, soundSamples: seq<real>) returns (r: seq<real>)
      ensures r == Overlay(songSamples, soundSamples)
    {
      OverlayMixes(songSamples, soundSamples);
      r := songSamples;
      for i := 0 to |soundSamples|
        invariant |r| == Max(|songSamples|, i)
        invariant forall j :: 0 <= j < i ==> r[j] == (if j < |songSamples| then songSamples[j] else 0.0) + soundSamples[j] / 4.0
        invariant forall j :: i <= j < |songSamples| ==> r[j] == songSamples[j]
      {
        if i < |r| {
          r := r[i := r[i] + soundSamples[i] / 4.0];
        } else {
          r := r + [0.0 + soundSamples[i] / 4.0];
        }
      }
    }
  }
}
