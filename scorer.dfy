/**
 * The score parser: a text of note families (a letter naming a list of
 * frequencies) followed by instructions (speed changes, single notes,
 * chords and rests) becomes a list of events (onset, frequency, duration),
 * measured in beats of the current speed.
 */
module Scoring {
  import opened Wrappers
  import opened Patterns
  import opened TextInput

  /** One entry of the score: `[time, frequency, duration]`. */
  datatype Event = Event(time: real, frequency: real, duration: real)

  /** How a read step ends: it returns true, returns false, or throws `DivisionByZeroError`. */
  datatype Outcome = Accepted | Declined | DividedByZero

  datatype Thrown = DivisionByZeroError

  predicate Chronological(score: seq<Event>)
  {
    forall j, k :: 0 <= j < k < |score| ==> score[j].time <= score[k].time
  }

  /** The score so far: in order, with every onset in `[0, time]` and no negative duration. */
  predicate InOrderUpTo(score: seq<Event>, time: real)
  {
    && Chronological(score)
    && forall k :: 0 <= k < |score| ==> 0.0 <= score[k].time <= time && score[k].duration >= 0.0
  }

  /** An event at the current time keeps the score in order. */
  lemma AppendInOrder(score: seq<Event>, e: Event, time: real)
    requires InOrderUpTo(score, time)
    requires 0.0 <= e.time == time && e.duration >= 0.0
    ensures InOrderUpTo(score + [e], time)
  {
    var next := score + [e];
    forall j, k | 0 <= j < k < |next|
      ensures next[j].time <= next[k].time
    {
      if k < |score| {
        assert next[j] == score[j] && next[k] == score[k];
      }
    }
  }

  /** A non-negative amount of beats at a positive speed lasts a non-negative time. */
  lemma QuotientNonNegative(a: real, b: real)
    requires a >= 0.0 && b > 0.0
    ensures a / b >= 0.0
  {
    assert a / b * b == a;
  }

  /** Moving time forward keeps the score in order. */
  lemma LaterInOrder(score: seq<Event>, time: real, later: real)
    requires InOrderUpTo(score, time) && time <= later
    ensures InOrderUpTo(score, later)
  {
  }

  // ---------------------------------------------------------------- trim

  /** The characters `trim` removes by default: space, tab, line feed, carriage return, NUL, vertical tab. */
  predicate IsTrimmed(c: char)
  {
    c == ' ' || c == '\t' || c == '\n' || c == '\r' || c == '\0' || c as int == 11
  }

  function TrimStart(s: string): (r: string)
    ensures |r| <= |s| && r == s[|s| - |r|..]
    ensures forall i :: 0 <= i < |s| - |r| ==> IsTrimmed(s[i])
    ensures r == [] || !IsTrimmed(r[0])
  {
    if |s| > 0 && IsTrimmed(s[0]) then TrimStart(s[1..]) else s
  }

  function TrimEnd(s: string): (r: string)
    ensures |r| <= |s| && r == s[..|r|]
    ensures forall i :: |r| <= i < |s| ==> IsTrimmed(s[i])
    ensures r == [] || !IsTrimmed(r[|r| - 1])
  {
    if |s| > 0 && IsTrimmed(s[|s| - 1]) then TrimEnd(s[..|s| - 1]) else s
  }

  /**
   * `trim`: the text without its leading and trailing blank. The result
   * is the stretch of `s` that starts after the leading blank run and is
   * followed only by blank characters.
   */
  function Trim(s: string): (r: string)
    ensures var start := |s| - |TrimStart(s)|;
      && start + |r| <= |s|
      && r == s[start..start + |r|]
      && (forall i :: 0 <= i < start ==> IsTrimmed(s[i]))
      && (forall i :: start + |r| <= i < |s| ==> IsTrimmed(s[i]))
    ensures r == [] || (!IsTrimmed(r[0]) && !IsTrimmed(r[|r| - 1]))
  {
    TrimStretch(s, TrimStart(s), TrimEnd(TrimStart(s)));
    TrimEnd(TrimStart(s))
  }

  /** Stripping a suffix of blanks from a suffix of `s` leaves a stretch of `s` followed by blanks. */
  lemma TrimStretch(s: string, t: string, r: string)
    requires |t| <= |s| && t == s[|s| - |t|..]
    requires |r| <= |t| && r == t[..|r|]
    requires forall i :: |r| <= i < |t| ==> IsTrimmed(t[i])
    ensures var start := |s| - |t|;
      && r == s[start..start + |r|]
      && forall i :: start + |r| <= i < |s| ==> IsTrimmed(s[i])
  {
    var start := |s| - |t|;
    forall i | start + |r| <= i < |s|
      ensures IsTrimmed(s[i])
    {
      assert s[i] == t[i - start];
    }
  }

  /** A text with no blank at either end is its own trim. */
  lemma TrimKeepsTrimmed(s: string)
    requires s == [] || (!IsTrimmed(s[0]) && !IsTrimmed(s[|s| - 1]))
    ensures Trim(s) == s
  {
  }

  lemma TrimIsIdempotent(s: string)
    ensures Trim(Trim(s)) == Trim(s)
  {
    TrimKeepsTrimmed(Trim(s));
  }

  // ------------------------------------------------------------- numbers

  function DigitValue(c: char): nat
    requires IsDigit(c)
  {
    c as int - '0' as int
  }

  function DigitChar(d: nat): (c: char)
    requires d < 10
    ensures IsDigit(c) && DigitValue(c) == d
  {
    ('0' as int + d) as char
  }

  /** The value of a string of decimal digits. */
  function DigitsValue(d: string): nat
    requires AllIn(d, Digit)
  {
    if d == [] then 0 else 10 * DigitsValue(d[..|d| - 1]) + DigitValue(d[|d| - 1])
  }

  function Pow10(k: nat): (r: nat)
    ensures r >= 1
  {
    if k == 0 then 1 else 10 * Pow10(k - 1)
  }

  function LeadingDigits(t: string): (r: string)
    ensures r <= t && AllIn(r, Digit)
    ensures |r| < |t| ==> !IsDigit(t[|r|])
  {
    var n := Span(t, 0, Digit);
    SpanRun(t, 0, Digit);
    assert t[..n] == t[0..n];
    t[..n]
  }

  /** `(int)$text` for a text of digits and dots: the value of its leading digits. */
  function IntCast(t: string): nat
  {
    DigitsValue(LeadingDigits(t))
  }

  /** `(float)$text` for a text of digits and dots: its leading `digits[.digits]`, 0 when there is none. */
  function FloatCast(t: string): (x: real)
    ensures x >= 0.0
  {
    var whole := LeadingDigits(t);
    var rest := t[|whole|..];
    if |rest| >= 1 && rest[0] == '.' then
      var fraction := LeadingDigits(rest[1..]);
      DigitsValue(whole) as real + DigitsValue(fraction) as real / Pow10(|fraction|) as real
    else DigitsValue(whole) as real
  }

  /** `(string)$number` for a non-negative integer. */
  function Decimal(n: nat): (r: string)
    ensures |r| >= 1 && AllIn(r, Digit) && DigitsValue(r) == n
    ensures r[0] == '0' ==> r == "0"
  {
    if n < 10 then [DigitChar(n)]
    else
      var front := Decimal(n / 10);
      var r := front + [DigitChar(n % 10)];
      assert r[..|r| - 1] == front;
      r
  }

  /** How `(string)` prints an integer: digits without a leading zero, or a lone "0". */
  predicate IsIntegerText(t: string)
  {
    |t| >= 1 && AllIn(t, Digit) && (t[0] == '0' ==> |t| == 1)
  }

  datatype Number = IntNumber(i: int) | FloatNumber(x: real)

  function NumberValue(n: Number): real
  {
    match n
    case IntNumber(i) => i as real
    case FloatNumber(x) => x
  }

  /** `getNumber`: an integer when the text prints back as itself, otherwise a float. */
  function GetNumber(t: string): Number
  {
    if Decimal(IntCast(t)) == t then IntNumber(IntCast(t)) else FloatNumber(FloatCast(t))
  }

  lemma {:induction false} PositiveDigits(d: string)
    requires |d| >= 1 && AllIn(d, Digit) && d[0] != '0'
    ensures DigitsValue(d) >= 1
    decreases |d|
  {
    if |d| > 1 {
      PositiveDigits(d[..|d| - 1]);
    }
  }

  /** Printing the value of an integer text gives the text back. */
  lemma {:induction false} DecimalOfDigits(t: string)
    requires IsIntegerText(t)
    ensures Decimal(DigitsValue(t)) == t
    decreases |t|
  {
    if |t| == 1 {
      assert DigitsValue(t) == DigitValue(t[0]);
    } else {
      var front := t[..|t| - 1];
      assert front[0] == t[0];
      DecimalOfDigits(front);
      PositiveDigits(front);
      var v := DigitsValue(t);
      assert v / 10 == DigitsValue(front) && v % 10 == DigitValue(t[|t| - 1]);
      assert DigitChar(v % 10) == t[|t| - 1];
      assert Decimal(v) == Decimal(v / 10) + [DigitChar(v % 10)];
    }
  }

  /** `getNumber` returns an integer exactly for the texts `(string)` would print. */
  lemma GetNumberIsInteger(t: string)
    ensures GetNumber(t).IntNumber? <==> IsIntegerText(t)
  {
    if IsIntegerText(t) {
      assert LeadingDigits(t) == t;
      DecimalOfDigits(t);
    }
  }

  /** Whichever branch `getNumber` takes, the number is the text's value as a float. */
  lemma GetNumberValue(t: string)
    ensures NumberValue(GetNumber(t)) == FloatCast(t)
  {
    GetNumberIsInteger(t);
    if IsIntegerText(t) {
      assert LeadingDigits(t) == t;
    }
  }

  // ----------------------------------------------------------- frequency

  function Pow2(k: nat): (r: nat)
    ensures r >= 1
  {
    if k == 0 then 1 else 2 * Pow2(k - 1)
  }

  const TWO_63: int := 0x8000_0000_0000_0000
  const TWO_64: int := 0x1_0000_0000_0000_0000

  /** PHP's `1 << k` on 64-bit integers: 2^k, the sign bit alone at 63, and 0 beyond. */
  function Shift(k: nat): int
  {
    if k < 63 then Pow2(k) else if k == 63 then -TWO_63 else 0
  }

  /** A 64-bit two's-complement reading of an integer's low 64 bits. */
  function Signed64(x: int): (r: int)
    ensures -TWO_63 <= r < TWO_63
  {
    var low := x % TWO_64;
    if low >= TWO_63 then low - TWO_64 else low
  }

  lemma {:induction false} Pow2Add(a: nat, b: nat)
    ensures Pow2(a + b) == Pow2(a) * Pow2(b)
    decreases a
  {
    if a > 0 {
      Pow2Add(a - 1, b);
    }
  }

  lemma Pow2Of63()
    ensures Pow2(63) == TWO_63 && Pow2(64) == TWO_64
  {
    assert Pow2(1) == 2;
    Pow2Add(1, 1);
    Pow2Add(2, 2);
    Pow2Add(4, 4);
    Pow2Add(8, 8);
    assert Pow2(16) == 0x1_0000;
    Pow2Add(16, 16);
    assert Pow2(32) == 0x1_0000_0000;
    Pow2Add(32, 32);
  }

  /** The shift keeps the low 64 bits of 2^k, read as a signed number. */
  lemma {:induction false} ShiftWraps(k: nat)
    ensures Shift(k) == Signed64(Pow2(k))
  {
    Pow2Of63();
    if k < 63 {
      Pow2BelowSignBit(k);
    } else if k > 63 {
      Pow2HighBits(k);
    }
  }

  lemma {:induction false} Pow2BelowSignBit(k: nat)
    requires k < 63
    ensures Pow2(k) < TWO_63
  {
    Pow2Of63();
    Pow2Add(k, 63 - k);
    assert Pow2(63 - k) >= 2;
  }

  lemma {:induction false} Pow2HighBits(k: nat)
    requires k >= 64
    ensures Pow2(k) % TWO_64 == 0
  {
    Pow2Of63();
    Pow2Add(k - 64, 64);
    DivideSplit(Pow2(k - 64), TWO_64, 0);
  }

  /**
   * `getFrequency`: index `i` of a family with `n` frequencies names the
   * frequency `i % n`, raised by `i / n` octaves.
   */
  function GetFrequency(frequencies: seq<real>, i: nat): real
    requires |frequencies| > 0
  {
    frequencies[i % |frequencies|] * Shift(i / |frequencies|) as real
  }

  /** Frequency `j` of a family, `octave` octaves up. */
  lemma GetFrequencyOctave(frequencies: seq<real>, octave: nat, j: nat)
    requires j < |frequencies| && octave < 63
    ensures GetFrequency(frequencies, octave * |frequencies| + j) == frequencies[j] * Pow2(octave) as real
  {
    DivideSplit(octave, |frequencies|, j);
    FrequencyOfIndex(frequencies, octave * |frequencies| + j, octave, j);
  }

  /** The frequency at an index whose quotient and remainder are known. */
  lemma FrequencyOfIndex(frequencies: seq<real>, i: nat, octave: nat, j: nat)
    requires j < |frequencies| && octave < 63
    requires i / |frequencies| == octave && i % |frequencies| == j
    ensures GetFrequency(frequencies, i) == frequencies[j] * Pow2(octave) as real
  {
  }

  /** One more family length is one octave up, as long as the shift does not overflow. */
  lemma OctaveAbove(frequencies: seq<real>, i: nat)
    requires |frequencies| > 0 && i / |frequencies| + 1 < 63
    ensures GetFrequency(frequencies, i + |frequencies|) == 2.0 * GetFrequency(frequencies, i)
  {
    var n := |frequencies|;
    DivideSplit(i / n, n, i % n);
    DivideSplit(i / n + 1, n, i % n);
    assert (i / n + 1) * n + i % n == i + n;
  }

  lemma MulBelow(a: int, b: int, n: nat)
    requires a < b
    ensures a * n + n <= b * n
  {
    assert b * n - a * n == (b - a) * n;
    assert (b - a) * n >= n by {
      assert b - a >= 1;
    }
  }

  /** Quotient and remainder of `q * n + j` when `j < n`. */
  lemma DivideSplit(q: nat, n: nat, j: nat)
    requires j < n
    ensures (q * n + j) / n == q && (q * n + j) % n == j
  {
    var x := q * n + j;
    assert x == (x / n) * n + x % n;
    if x / n < q {
      MulBelow(x / n, q, n);
    } else if q < x / n {
      MulBelow(q, x / n, n);
    }
  }

  // -------------------------------------------------------- parser steps

  /** The parser's state: the cursor, the declared families, the current time and speed, and the score so far. */
  datatype Parse = Parse(position: int, notes: map<string, seq<real>>, time: real, speed: real, score: seq<Event>)

  /** How a read step ends and the state it leaves. */
  datatype Reading = Reading(outcome: Outcome, after: Parse)

  /** What `readNoteFamily` leaves: whether it succeeded, the name and frequencies it read, and the cursor. */
  datatype Family = Family(found: bool, name: string, frequencies: seq<real>, end: int)

  /** Every declared family has at least one frequency. */
  predicate Declared(notes: map<string, seq<real>>)
  {
    forall name :: name in notes ==> |notes[name]| > 0
  }

  /** What holds between reads: the cursor is in the text, speed and time are not negative, every family is non-empty, and the score is in order up to `time`. */
  predicate WellFormed(text: string, st: Parse)
  {
    && 0 <= st.position <= |text|
    && st.speed >= 0.0 && st.time >= 0.0
    && Declared(st.notes)
    && InOrderUpTo(st.score, st.time)
  }

  /** An instruction never moves the cursor back, never changes the families, only appends to the score and never turns time back. */
  predicate Follows(st: Parse, later: Parse)
  {
    && st.position <= later.position
    && later.notes == st.notes
    && st.score <= later.score
    && st.time <= later.time
  }

  /** The events appended since `st` all start at `st`'s time. */
  predicate AddedAtOnset(st: Parse, later: Parse)
    requires st.score <= later.score
  {
    forall k :: |st.score| <= k < |later.score| ==> later.score[k].time == st.time
  }

  /** `readSpeed`: `speed:` and a number, which becomes the speed. */
  function SpeedRead(text: string, st: Parse): (r: Reading)
    requires WellFormed(text, st)
    ensures WellFormed(text, r.after) && Follows(st, r.after)
    ensures r.outcome != DividedByZero
    ensures r.outcome == Accepted <==> Matches(Speed, text, st.position)
    ensures r.outcome == Declined ==> r.after == st
    ensures r.outcome == Accepted ==>
      && r.after.position > st.position
      && r.after.speed == FloatCast(NumberText(text, SpeedNumberStart(text, st.position)))
      && r.after.time == st.time && r.after.score == st.score
  {
    var m := MatchAt(text, st.position, Speed);
    if m.None? then Reading(Declined, st)
    else Reading(Accepted, st.(position := st.position + |m.value.whole|, speed := FloatCast(m.value.groups[0])))
  }

  /**
   * `readNote`: a note of a declared family appends the event
   * `[time, frequency, beats / speed]`; a note of an undeclared family is
   * consumed and adds nothing; at speed 0 the division throws.
   */
  function NoteRead(text: string, st: Parse): (r: Reading)
    requires WellFormed(text, st)
    ensures WellFormed(text, r.after) && Follows(st, r.after)
    ensures r.after.time == st.time && r.after.speed == st.speed
    ensures r.outcome != Accepted ==> r.after.score == st.score
    ensures r.outcome == Accepted ==> r.after.position > st.position && |r.after.score| == |st.score| + 1
    ensures r.outcome == DividedByZero ==> st.speed == 0.0
  {
    var m := MatchAt(text, st.position, Note);
    if m.None? then Reading(Declined, st)
    else
      var moved := st.(position := st.position + |m.value.whole|);
      var name := NoteName(m.value);
      if name !in st.notes then Reading(Declined, moved)
      else if st.speed == 0.0 then Reading(DividedByZero, moved)
      else
        var e := Event(st.time, GetFrequency(st.notes[name], NoteIndex(m.value)), NoteBeats(m.value) as real / st.speed);
        QuotientNonNegative(NoteBeats(m.value) as real, st.speed);
        AppendInOrder(st.score, e, st.time);
        Reading(Accepted, moved.(score := st.score + [e]))
  }

  /**
   * What `readNote` does with the note at the cursor: none there, it
   * declines; a note of an undeclared family is consumed and declined; at
   * speed 0 it throws; otherwise the event `[time, frequency, beats / speed]`
   * is appended.
   */
  lemma {:induction false} NoteReadCases(text: string, st: Parse)
    requires WellFormed(text, st)
    ensures var m := MatchAt(text, st.position, Note); var r := NoteRead(text, st);
      && (m.None? ==> r == Reading(Declined, st))
      && (m.Some? ==> r.after.position == st.position + |m.value.whole|)
      && (m.Some? && NoteName(m.value) !in st.notes ==> r.outcome == Declined && r.after.score == st.score)
      && (m.Some? && NoteName(m.value) in st.notes && st.speed == 0.0 ==>
            r.outcome == DividedByZero && r.after.score == st.score)
      && (m.Some? && NoteName(m.value) in st.notes && st.speed != 0.0 ==>
            r.outcome == Accepted &&
            r.after.score == st.score + [Event(st.time, GetFrequency(st.notes[NoteName(m.value)], NoteIndex(m.value)),
                                               NoteBeats(m.value) as real / st.speed)])
  {
  }

  /** One beat at a positive speed, after which the score stays in order. */
  function NextBeat(text: string, st: Parse): (r: Parse)
    requires WellFormed(text, st) && st.speed > 0.0
    ensures WellFormed(text, r) && Follows(st, r)
    ensures r.position == st.position && r.speed == st.speed && r.score == st.score
    ensures r.time == st.time + 1.0 / st.speed && r.time > st.time
  {
    QuotientNonNegative(1.0, st.speed);
    LaterInOrder(st.score, st.time, st.time + 1.0 / st.speed);
    st.(time := st.time + 1.0 / st.speed)
  }

  /** `readSingleNote`: a note, after which time moves on by one beat at the current speed. */
  function SingleNoteRead(text: string, st: Parse): (r: Reading)
    requires WellFormed(text, st)
    ensures WellFormed(text, r.after) && Follows(st, r.after)
    ensures r.after.speed == st.speed
    ensures r.outcome == NoteRead(text, st).outcome
    ensures r.outcome != Accepted ==> r.after == NoteRead(text, st).after && r.after.score == st.score
    ensures r.outcome == Accepted ==>
      && st.speed > 0.0
      && r.after.time == st.time + 1.0 / st.speed
      && r.after.position > st.position
      && |r.after.score| == |st.score| + 1
      && r.after.score[|st.score|] == NoteRead(text, st).after.score[|st.score|]
    ensures AddedAtOnset(st, r.after)
    ensures r.outcome == DividedByZero ==> st.speed == 0.0
  {
    var n := NoteRead(text, st);
    if n.outcome != Accepted then n
    else Reading(Accepted, NextBeat(text, n.after))
  }

  /** The notes inside a chord: read one after the other until one is declined or throws. */
  function ChordNotes(text: string, st: Parse): (r: Reading)
    requires WellFormed(text, st)
    ensures WellFormed(text, r.after) && Follows(st, r.after)
    ensures r.after.time == st.time && r.after.speed == st.speed
    ensures r.outcome != Accepted
    ensures r.outcome == DividedByZero ==> st.speed == 0.0
    ensures AddedAtOnset(st, r.after)
    decreases |text| - st.position
  {
    var n := NoteRead(text, st);
    if n.outcome == Accepted then
      var r := ChordNotes(text, n.after);
      assert r.after.score[|st.score|] == n.after.score[|st.score|];
      r
    else n
  }

  /** The start of a chord: `(`. */
  function ChordOpen(text: string, st: Parse): (r: Reading)
    requires WellFormed(text, st)
    ensures WellFormed(text, r.after) && Follows(st, r.after)
    ensures r.after.time == st.time && r.after.speed == st.speed && r.after.score == st.score
    ensures r.outcome != DividedByZero
    ensures r.outcome == Accepted <==> Matches(OpenChord, text, st.position)
    ensures r.outcome == Declined ==> r.after == st
    ensures r.outcome == Accepted ==> r.after.position > st.position
  {
    var open := MatchAt(text, st.position, OpenChord);
    if open.None? then Reading(Declined, st)
    else Reading(Accepted, st.(position := st.position + |open.value.whole|))
  }

  /**
   * `readChord`: `(`, then notes, then `)`. The notes share the chord's
   * onset, and time moves on by one beat once the chord is closed.
   */
  function ChordRead(text: string, st: Parse): (r: Reading)
    requires WellFormed(text, st)
    ensures WellFormed(text, r.after) && Follows(st, r.after)
    ensures r.after.speed == st.speed
    ensures AddedAtOnset(st, r.after)
    ensures r.outcome == Accepted ==> st.speed > 0.0 && r.after.time == st.time + 1.0 / st.speed
    ensures r.outcome != Accepted ==> r.after.time == st.time
    ensures r.outcome == Accepted ==> r.after.position > st.position
    ensures r.outcome == DividedByZero ==> st.speed == 0.0
  {
    var open := ChordOpen(text, st);
    if open.outcome == Declined then open
    else
      var inside := ChordNotes(text, open.after);
      if inside.outcome == DividedByZero then inside
      else ChordEnd(text, inside.after)
  }

  /** The end of a chord: `)`, after which time moves on by one beat; at speed 0 the division throws. */
  function ChordEnd(text: string, st: Parse): (r: Reading)
    requires WellFormed(text, st)
    ensures WellFormed(text, r.after) && Follows(st, r.after)
    ensures r.after.speed == st.speed && r.after.score == st.score
    ensures r.outcome == Declined <==> !Matches(CloseChord, text, st.position)
    ensures r.outcome == Declined ==> r.after == st
    ensures r.outcome == Accepted ==> st.speed > 0.0 && r.after.time == st.time + 1.0 / st.speed
    ensures r.outcome != Accepted ==> r.after.time == st.time
    ensures r.outcome == DividedByZero ==> st.speed == 0.0
  {
    var close := MatchAt(text, st.position, CloseChord);
    if close.None? then Reading(Declined, st)
    else
      var closed := st.(position := st.position + |close.value.whole|);
      if st.speed == 0.0 then Reading(DividedByZero, closed)
      else Reading(Accepted, NextBeat(text, closed))
  }

  /**
   * No `(`, no chord. Otherwise the notes inside are read; a division by
   * zero among them escapes, and once they end the chord is declined
   * exactly when no `)` follows. The chord's events are the notes'.
   */
  lemma {:induction false} ChordReadCases(text: string, st: Parse)
    requires WellFormed(text, st)
    ensures !Matches(OpenChord, text, st.position) ==> ChordRead(text, st) == Reading(Declined, st)
    ensures Matches(OpenChord, text, st.position) ==>
      var inside := ChordNotes(text, st.(position := st.position + 1));
      var r := ChordRead(text, st);
      && (inside.outcome == DividedByZero ==> r == inside)
      && (inside.outcome == Declined ==>
            (r.outcome == Declined <==> !Matches(CloseChord, text, inside.after.position)))
      && r.after.score == inside.after.score
  {
    if Matches(OpenChord, text, st.position) {
      ChordOpens(text, st);
      var inside := ChordNotes(text, st.(position := st.position + 1));
      assert ChordRead(text, st) == if inside.outcome == DividedByZero then inside else ChordEnd(text, inside.after);
    }
  }

  /** `(` moves the cursor past itself and nothing else. */
  lemma {:induction false} ChordOpens(text: string, st: Parse)
    requires WellFormed(text, st) && Matches(OpenChord, text, st.position)
    ensures ChordOpen(text, st) == Reading(Accepted, st.(position := st.position + 1))
  {
    assert |MatchAt(text, st.position, OpenChord).value.whole| == 1;
  }

  /** The notes of a chord, one note at a time. */
  lemma {:induction false} ChordNotesStep(text: string, st: Parse)
    requires WellFormed(text, st)
    ensures var n := NoteRead(text, st);
      ChordNotes(text, st) == if n.outcome == Accepted then ChordNotes(text, n.after) else n
  {
  }

  /** `readRest`: a dot and blank; time moves on by one beat. */
  function RestRead(text: string, st: Parse): (r: Reading)
    requires WellFormed(text, st)
    ensures WellFormed(text, r.after) && Follows(st, r.after)
    ensures r.after.speed == st.speed && r.after.score == st.score
    ensures !Matches(Rest, text, st.position) ==> r == Reading(Declined, st)
    ensures Matches(Rest, text, st.position) ==> r.after.position > st.position
    ensures Matches(Rest, text, st.position) && st.speed == 0.0 ==> r.outcome == DividedByZero && r.after.time == st.time
    ensures Matches(Rest, text, st.position) && st.speed != 0.0 ==>
      r.outcome == Accepted && r.after.time == st.time + 1.0 / st.speed
  {
    var m := MatchAt(text, st.position, Rest);
    if m.None? then Reading(Declined, st)
    else
      var moved := st.(position := st.position + |m.value.whole|);
      if st.speed == 0.0 then Reading(DividedByZero, moved)
      else Reading(Accepted, NextBeat(text, moved))
  }

  /** `readInstruction`: a speed change, a single note, a chord or a rest, tried in that order. */
  function InstructionRead(text: string, st: Parse): (r: Reading)
    requires WellFormed(text, st)
    ensures WellFormed(text, r.after) && Follows(st, r.after)
    ensures r.outcome == Accepted ==> r.after.position > st.position
    ensures r.outcome == DividedByZero ==> r.after.speed == 0.0
  {
    var s := SpeedRead(text, st);
    if s.outcome == Accepted then s
    else
      var n := SingleNoteRead(text, st);
      if n.outcome != Declined then n
      else
        var c := ChordRead(text, n.after);
        if c.outcome != Declined then c
        else RestRead(text, c.after)
  }

  /** `readInstructions`: instructions are read until one is declined; a division by zero escapes. */
  function Instructions(text: string, st: Parse): (r: Reading)
    requires WellFormed(text, st)
    ensures WellFormed(text, r.after) && Follows(st, r.after)
    ensures r.outcome != Declined
    decreases |text| - st.position
  {
    var i := InstructionRead(text, st);
    if i.outcome == Accepted then Instructions(text, i.after)
    else if i.outcome == DividedByZero then i
    else Reading(Accepted, i.after)
  }

  /** `readNoteFamilyFrequencies`: the frequencies that follow one another, and where the cursor stops. */
  function FrequencyList(text: string, position: int): (r: (seq<real>, int))
    requires 0 <= position <= |text|
    ensures position <= r.1 <= |text|
    ensures forall k :: 0 <= k < |r.0| ==> r.0[k] >= 0.0
    ensures r.0 == [] <==> !NumberAt(text, position)
    ensures r.0 == [] ==> r.1 == position
    decreases |text| - position
  {
    if !NumberAt(text, position) then ([], position)
    else
      var rest := FrequencyList(text, NumberEnd(text, position));
      ([FloatCast(NumberText(text, position))] + rest.0, rest.1)
  }

  lemma ConcatAssociates<T>(a: seq<T>, b: seq<T>, c: seq<T>)
    ensures (a + b) + c == a + (b + c)
  {
  }

  /**
   * The list starts with the number at the cursor, and the cursor stops
   * where no frequency follows.
   */
  lemma {:induction false} FrequencyListReads(text: string, position: int)
    requires 0 <= position <= |text|
    ensures var r := FrequencyList(text, position);
      && (r.0 != [] ==> r.0[0] == FloatCast(NumberText(text, position)))
      && !NumberAt(text, r.1)
    decreases |text| - position
  {
    if NumberAt(text, position) {
      FrequencyListReads(text, NumberEnd(text, position));
    }
  }

  /** `readNoteFamily`: a name, then the frequencies that follow; it succeeds when there is at least one. */
  function FamilyRead(text: string, position: int): (f: Family)
    requires 0 <= position <= |text|
    ensures position <= f.end <= |text|
    ensures f.found <==> f.frequencies != []
    ensures f.found ==> f.end > position && |f.name| == 1 && IsLetter(f.name[0])
    ensures !FamilyNameAt(text, position) ==> !f.found && f.end == position
  {
    if !FamilyNameAt(text, position) then Family(false, "", [], position)
    else
      var list := FrequencyList(text, FamilyNameEnd(text, position));
      Family(list.0 != [], [text[position]], list.0, list.1)
  }

  /** After a letter and a colon, the family is named by the letter and holds the list read after the blank. */
  lemma {:induction false} FamilyNamed(text: string, position: int)
    requires 0 <= position <= |text| && FamilyNameAt(text, position)
    ensures var f := FamilyRead(text, position);
      var list := FrequencyList(text, FamilyNameEnd(text, position));
      && f.name == [text[position]] && f.frequencies == list.0 && f.end == list.1
  {
  }

  /** `readNoteFamilies`: families are declared for as long as one can be read; a later family replaces an earlier one of the same name. */
  function Families(text: string, st: Parse): (r: Parse)
    requires WellFormed(text, st)
    ensures WellFormed(text, r)
    ensures st.position <= r.position
    ensures r.time == st.time && r.speed == st.speed && r.score == st.score
    ensures st.notes.Keys <= r.notes.Keys
    ensures forall name :: name in r.notes && name !in st.notes ==> |name| == 1 && IsLetter(name[0])
    decreases |text| - st.position
  {
    var f := FamilyRead(text, st.position);
    if !f.found then st.(position := f.end)
    else Families(text, st.(position := f.end, notes := st.notes[f.name := f.frequencies]))
  }

  /** One family read: the state it leaves, and the families read from there. */
  lemma {:induction false} FamiliesStep(text: string, st: Parse)
    requires WellFormed(text, st)
    ensures var f := FamilyRead(text, st.position);
      && (f.found ==> WellFormed(text, st.(position := f.end, notes := st.notes[f.name := f.frequencies])))
      && Families(text, st) == if !f.found then st.(position := f.end)
           else Families(text, st.(position := f.end, notes := st.notes[f.name := f.frequencies]))
  {
  }

  /** The state `getScore` starts from: no families, time 0, speed 1 and an empty score. */
  function Initial(): (st: Parse)
    ensures forall text :: WellFormed(text, st)
  {
    Parse(0, map[], 0.0, 1.0, [])
  }

  /** `getScore` of a text: the score, or the division by zero that escaped. */
  function ScoreOf(text: string): (r: Result<seq<Event>, Thrown>)
    ensures r.Ok? ==> Chronological(r.value) && forall k :: 0 <= k < |r.value| ==> r.value[k].time >= 0.0
  {
    var t := Trim(text);
    var played := Instructions(t, Families(t, Initial()));
    if played.outcome == DividedByZero then Err(DivisionByZeroError) else Ok(played.after.score)
  }

  // ----------------------------------------------------- parser properties

  /** A speed change is tried first; a note is tried before a chord; nothing is consumed where no instruction starts. */
  lemma {:induction false} InstructionOrder(text: string, st: Parse)
    requires WellFormed(text, st)
    ensures Matches(Speed, text, st.position) ==> InstructionRead(text, st) == SpeedRead(text, st)
    ensures !Matches(Speed, text, st.position) && NoteRead(text, st).outcome != Declined ==>
      InstructionRead(text, st) == SingleNoteRead(text, st)
    ensures !Matches(Speed, text, st.position) && !Matches(Note, text, st.position) && ChordRead(text, st).outcome != Declined ==>
      InstructionRead(text, st) == ChordRead(text, st)
    ensures !Matches(Speed, text, st.position) && !Matches(Note, text, st.position) && !Matches(OpenChord, text, st.position) ==>
      InstructionRead(text, st) == RestRead(text, st)
    ensures (!Matches(Speed, text, st.position) && !Matches(Note, text, st.position)
             && !Matches(OpenChord, text, st.position) && !Matches(Rest, text, st.position)) ==>
      InstructionRead(text, st) == Reading(Declined, st)
  {
  }

  /** Instructions stop, successfully, where no instruction starts. */
  lemma {:induction false} InstructionsStop(text: string, st: Parse)
    requires WellFormed(text, st)
    requires !Matches(Speed, text, st.position) && !Matches(Note, text, st.position)
    requires !Matches(OpenChord, text, st.position) && !Matches(Rest, text, st.position)
    ensures Instructions(text, st) == Reading(Accepted, st)
  {
    InstructionOrder(text, st);
  }

  /** A division by zero escapes only while the speed is 0, and the score keeps every event read before it. */
  lemma {:induction false} InstructionsThrowAtSpeedZero(text: string, st: Parse)
    requires WellFormed(text, st)
    ensures Instructions(text, st).outcome == DividedByZero ==> Instructions(text, st).after.speed == 0.0
    decreases |text| - st.position
  {
    var i := InstructionRead(text, st);
    if i.outcome == Accepted {
      InstructionsThrowAtSpeedZero(text, i.after);
    }
  }

  /** The first family in the text is declared once the families are read. */
  lemma {:induction false} FirstFamilyDeclared(text: string, st: Parse)
    requires WellFormed(text, st)
    requires FamilyRead(text, st.position).found
    ensures FamilyRead(text, st.position).name in Families(text, st).notes
  {
  }

  /** A text with no family declares nothing and leaves the cursor where it was. */
  lemma {:induction false} NoFamilies(text: string, st: Parse)
    requires WellFormed(text, st)
    requires !Matches(FamilyName, text, st.position)
    ensures Families(text, st) == st
  {
  }

  /** A blank text is the empty score. */
  lemma {:induction false} BlankScore(text: string)
    requires forall i :: 0 <= i < |text| ==> IsTrimmed(text[i])
    ensures ScoreOf(text) == Ok([])
  {
    assert Trim(text) == [];
  }

  // -------------------------------------------------------------- parser

  class Scorer {
    var input: Input?
    var notes: map<string, seq<real>>
    var time: real
    var speed: real
    var score: seq<Event>

    /** The parser's fields as a value. */
    function State(): Parse
      reads this, input
      requires input != null
    {
      Parse(input.position, notes, time, speed, score)
    }

    ghost predicate Valid()
      reads this, input
    {
      input != null && WellFormed(input.text, State())
    }

    /** `getScore`: resets the state, reads the families, then the instructions. */
    method GetScore(text: string) returns (r: Result<seq<Event>, Thrown>)
      modifies this
      ensures fresh(input) && input.text == Trim(text)
      ensures Valid()
      ensures r == ScoreOf(text)
    {
      notes := map[];
      time := 0.0;
      speed := 1.0;
      score := [];
      input := new Input(Trim(text));
      ReadNoteFamilies();
      var o := ReadInstructions();
      if o == DividedByZero {
        return Err(DivisionByZeroError);
      }
      return Ok(score);
    }

    /** `readNoteFamilies`: declares families for as long as one can be read; always succeeds. */
    method ReadNoteFamilies()
      requires Valid()
      modifies this, input
      ensures Valid() && input == old(input)
      ensures State() == Families(input.text, old(State()))
    {
      ghost var goal := Families(input.text, State());
      while true
        invariant Valid() && input == old(input)
        invariant Families(input.text, State()) == goal
        decreases |input.text| - input.position
      {
        ghost var before := State();
        FamiliesStep(input.text, before);
        var found, name, frequencies := ReadNoteFamily();
        if !found {
          break;
        }
        notes := notes[name := frequencies];
        assert State() == before.(position := input.position, notes := before.notes[name := frequencies]);
      }
    }

    /** `readNoteFamily`: a name followed by at least one frequency. */
    method ReadNoteFamily() returns (found: bool, name: string, frequencies: seq<real>)
      requires Valid()
      modifies input
      ensures Valid()
      ensures var f := FamilyRead(input.text, old(input.position));
        found == f.found && name == f.name && frequencies == f.frequencies && input.position == f.end
    {
      ghost var start := input.position;
      found, name := ReadNoteFamilyName();
      if !found {
        return false, name, [];
      }
      FamilyNamed(input.text, start);
      found, frequencies := ReadNoteFamilyFrequencies();
    }

    /** `readNoteFamilyName`: a letter and a colon; the name is the letter. */
    method ReadNoteFamilyName() returns (found: bool, name: string)
      requires Valid()
      modifies input
      ensures Valid()
      ensures found <==> FamilyNameAt(input.text, old(input.position))
      ensures found ==> name == [input.text[old(input.position)]]
      ensures found ==> input.position == FamilyNameEnd(input.text, old(input.position))
      ensures !found ==> name == "" && input.position == old(input.position)
    {
      assert MatchAt(input.text, input.position, FamilyName) == FindFamilyName(input.text, input.position);
      var value;
      found, value := input.Get(FamilyName);
      name := if found then value.value.text else "";
    }

    /** `readNoteFamilyFrequencies`: every frequency that follows; true when there was one. */
    method ReadNoteFamilyFrequencies() returns (found: bool, frequencies: seq<real>)
      requires Valid()
      modifies input
      ensures Valid()
      ensures found <==> frequencies != []
      ensures var list := FrequencyList(input.text, old(input.position));
        frequencies == list.0 && input.position == list.1
    {
      frequencies := [];
      while true
        invariant Valid() && old(input.position) <= input.position
        invariant frequencies + FrequencyList(input.text, input.position).0 == FrequencyList(input.text, old(input.position)).0
        invariant FrequencyList(input.text, input.position).1 == FrequencyList(input.text, old(input.position)).1
        decreases |input.text| - input.position
      {
        var more, frequency := ReadFrequency();
        if !more {
          assert frequencies + [] == frequencies;
          break;
        }
        ConcatAssociates(frequencies, [frequency], FrequencyList(input.text, input.position).0);
        frequencies := frequencies + [frequency];
      }
      found := 0 < |frequencies|;
    }

    /** `readFrequency`: a number followed by blank. */
    method ReadFrequency() returns (found: bool, frequency: real)
      requires Valid()
      modifies input
      ensures Valid()
      ensures found <==> Matches(Frequency, input.text, old(input.position))
      ensures found ==> frequency == FloatCast(NumberText(input.text, old(input.position)))
      ensures !found ==> input.position == old(input.position)
      ensures found ==> old(input.position) < input.position
      ensures var whole, rest := FrequencyList(input.text, old(input.position)), FrequencyList(input.text, input.position);
        && (found ==> whole.0 == [frequency] + rest.0 && whole.1 == rest.1)
        && (!found ==> whole.0 == [] && whole.1 == input.position)
    {
      ghost var m := FindFrequency(input.text, input.position);
      assert MatchAt(input.text, input.position, Frequency) == m;
      var value;
      found, value := input.Get(Frequency);
      if found {
        assert value.value.text == NumberText(input.text, old(input.position));
        GetNumberValue(value.value.text);
        frequency := NumberValue(GetNumber(value.value.text));
        assert input.position == NumberEnd(input.text, old(input.position));
      } else {
        frequency := 0.0;
      }
    }

    /** `readInstructions`: reads instructions until one fails; only a division by zero escapes. */
    method ReadInstructions() returns (o: Outcome)
      requires Valid()
      modifies this, input
      ensures input == old(input)
      ensures Reading(o, State()) == Instructions(input.text, old(State()))
      ensures Valid()
    {
      while true
        invariant Valid() && input == old(input)
        invariant Instructions(input.text, State()) == Instructions(input.text, old(State()))
        decreases |input.text| - input.position
      {
        o := ReadInstruction();
        if o == DividedByZero {
          return;
        }
        if o == Declined {
          break;
        }
      }
      o := Accepted;
    }

    /** `readInstruction`: a speed change, a single note, a chord or a rest, tried in that order. */
    method ReadInstruction() returns (o: Outcome)
      requires Valid()
      modifies this, input
      ensures input == old(input)
      ensures Reading(o, State()) == InstructionRead(input.text, old(State()))
      ensures Valid()
    {
      o := ReadSpeed();
      if o == Accepted {
        return;
      }
      o := ReadSingleNote();
      if o != Declined {
        return;
      }
      o := ReadChord();
      if o != Declined {
        return;
      }
      o := ReadRest();
    }

    /** `readSpeed`: `speed:` and a number, which becomes the speed. */
    method ReadSpeed() returns (o: Outcome)
      requires Valid()
      modifies this, input
      ensures input == old(input)
      ensures Reading(o, State()) == SpeedRead(input.text, old(State()))
      ensures Valid()
    {
      var found, value := input.Get(Speed);
      if !found {
        return Declined;
      }
      GetNumberValue(value.value.text);
      speed := NumberValue(GetNumber(value.value.text));
      o := Accepted;
    }

    /** `readSingleNote`: a note, after which time moves on by one beat. */
    method ReadSingleNote() returns (o: Outcome)
      requires Valid()
      modifies this, input
      ensures input == old(input)
      ensures Reading(o, State()) == SingleNoteRead(input.text, old(State()))
      ensures Valid()
    {
      o := ReadNote();
      if o != Accepted {
        return;
      }
      time := time + 1.0 / speed;
    }

    /** `readNote`: a note of a declared family adds the event `[time, frequency, beats / speed]`. */
    method ReadNote() returns (o: Outcome)
      requires Valid()
      modifies this, input
      ensures input == old(input)
      ensures Reading(o, State()) == NoteRead(input.text, old(State()))
      ensures Valid()
    {
      NoteReadCases(input.text, State());
      var found, value := input.Get(Note);
      if !found {
        return Declined;
      }
      var groups := value.value.groups;
      var name := groups[0];
      if name !in notes {
        return Declined;
      }
      var i := IntCast(groups[1]);
      var frequency := GetFrequency(notes[name], i);
      var beats := if |groups| > 2 then IntCast(groups[2]) else 1;
      if speed == 0.0 {
        return DividedByZero;
      }
      var duration := beats as real / speed;
      score := score + [Event(time, frequency, duration)];
      o := Accepted;
    }

    /** `readChord`: notes between parentheses share one onset; time moves on by one beat. */
    method ReadChord() returns (o: Outcome)
      requires Valid()
      modifies this, input
      ensures input == old(input)
      ensures Reading(o, State()) == ChordRead(input.text, old(State()))
      ensures Valid()
    {
      o := ReadChordOpen();
      if o == Declined {
        return;
      }
      o := ReadChordNotes();
      if o == DividedByZero {
        return;
      }
      o := ReadChordEnd();
    }

    /** The start of `readChord`: `(`. */
    method ReadChordOpen() returns (o: Outcome)
      requires Valid()
      modifies input
      ensures input == old(input)
      ensures Reading(o, State()) == ChordOpen(input.text, old(State()))
      ensures Valid()
    {
      var begun, _ := input.Get(OpenChord);
      o := if begun then Accepted else Declined;
    }

    /** The end of `readChord`: `)`, then one beat. */
    method ReadChordEnd() returns (o: Outcome)
      requires Valid()
      modifies this, input
      ensures input == old(input)
      ensures Reading(o, State()) == ChordEnd(input.text, old(State()))
      ensures Valid()
    {
      var closed, _ := input.Get(CloseChord);
      if !closed {
        return Declined;
      }
      if speed == 0.0 {
        return DividedByZero;
      }
      time := time + 1.0 / speed;
      o := Accepted;
    }

    /** `while ($this->readNote());` in `readChord`: notes until one is declined or throws. */
    method ReadChordNotes() returns (o: Outcome)
      requires Valid()
      modifies this, input
      ensures input == old(input)
      ensures Reading(o, State()) == ChordNotes(input.text, old(State()))
      ensures Valid()
    {
      while true
        invariant Valid() && input == old(input)
        invariant ChordNotes(input.text, State()) == ChordNotes(input.text, old(State()))
        decreases |input.text| - input.position
      {
        ChordNotesStep(input.text, State());
        o := ReadNote();
        if o != Accepted {
          return;
        }
      }
    }

    /** `readRest`: a dot and blank; time moves on by one beat. */
    method ReadRest() returns (o: Outcome)
      requires Valid()
      modifies this, input
      ensures input == old(input)
      ensures Reading(o, State()) == RestRead(input.text, old(State()))
      ensures Valid()
    {
      var found, _ := input.Get(Rest);
      if !found {
        return Declined;
      }
      if speed == 0.0 {
        return DividedByZero;
      }
      time := time + 1.0 / speed;
      o := Accepted;
    }
  }

  /** `$match['name']`. */
  function NoteName(m: Match): string
    requires NoteShaped(m)
  {
    m.groups[0]
  }

  /** `(int)$match['i']`. */
  function NoteIndex(m: Match): nat
    requires NoteShaped(m)
  {
    IntCast(m.groups[1])
  }

  /** `(int)$match['beats']` when the note has `+beats`, 1 otherwise. */
  function NoteBeats(m: Match): nat
    requires NoteShaped(m)
  {
    if |m.groups| > 2 then IntCast(m.groups[2]) else 1
  }
}
