/**
 * The seven anchored patterns the score parser hands to `Input::get`,
 * as hand-written matchers over the text. Every quantifier is greedy and
 * each one is followed by a class it does not share characters with, so
 * the longest run is the only one that can take part in a match.
 *
 *   FamilyName   ([a-zA-Z]):\s*
 *   Frequency    ([0-9.]+)\s+
 *   Speed        speed:\s*([0-9.]+)\s+
 *   Note         ([a-zA-Z])([0-9]+)(?:\+([0-9]+))?\s*
 *   OpenChord    \(
 *   CloseChord   \)\s*
 *   Rest         \.\s+
 */
module Patterns {
  import opened Wrappers

  datatype Pattern = FamilyName | Frequency | Speed | Note | OpenChord | CloseChord | Rest

  /**
   * What `preg_match` fills `$matches` with: the whole match and the
   * capture groups that took part, in order (a trailing optional group
   * that did not take part is absent).
   */
  datatype Match = Match(whole: string, groups: seq<string>)

  datatype CharClass = Space | Digit | Letter | NumberChar

  /** PCRE's `\s`: space, tab, line feed, vertical tab, form feed, carriage return. */
  predicate IsSpace(c: char)
  {
    c == ' ' || c == '\t' || c == '\n' || c as int == 11 || c as int == 12 || c == '\r'
  }

  predicate IsDigit(c: char) { '0' <= c <= '9' }

  predicate IsLetter(c: char) { 'a' <= c <= 'z' || 'A' <= c <= 'Z' }

  predicate InClass(c: char, cls: CharClass)
  {
    match cls
    case Space => IsSpace(c)
    case Digit => IsDigit(c)
    case Letter => IsLetter(c)
    case NumberChar => IsDigit(c) || c == '.'
  }

  predicate AllIn(s: string, cls: CharClass)
  {
    forall i :: 0 <= i < |s| ==> InClass(s[i], cls)
  }

  /** The length of the longest run of `cls` characters starting at `at`. */
  function Span(s: string, at: nat, cls: CharClass): (n: nat)
    requires at <= |s|
    ensures at + n <= |s|
    ensures at + n < |s| ==> !InClass(s[at + n], cls)
    decreases |s| - at
  {
    if at < |s| && InClass(s[at], cls) then 1 + Span(s, at + 1, cls) else 0
  }

  /** Every character of the run `Span` measures is in the class. */
  lemma {:induction false} SpanRun(s: string, at: nat, cls: CharClass)
    requires at <= |s|
    ensures AllIn(s[at..at + Span(s, at, cls)], cls)
    decreases |s| - at
  {
    if at < |s| && InClass(s[at], cls) {
      SpanRun(s, at + 1, cls);
      var rest := Span(s, at + 1, cls);
      assert s[at..at + 1 + rest] == [s[at]] + s[at + 1..at + 1 + rest];
    }
  }

  /** A note match: a letter, a non-empty index, and possibly non-empty beats. */
  predicate NoteShaped(m: Match)
  {
    && 2 <= |m.groups| <= 3
    && |m.groups[0]| == 1 && IsLetter(m.groups[0][0])
    && |m.groups[1]| >= 1 && AllIn(m.groups[1], Digit)
    && (|m.groups| == 3 ==> |m.groups[2]| >= 1 && AllIn(m.groups[2], Digit))
  }

  /** A number match (frequency or speed): one group of digits and dots. */
  predicate NumberShaped(m: Match)
  {
    |m.groups| == 1 && |m.groups[0]| >= 1 && AllIn(m.groups[0], NumberChar)
  }

  /** A number (digits and dots) at `i` with at least one blank character after it. */
  predicate NumberAt(s: string, i: nat)
    requires i <= |s|
  {
    var digits := Span(s, i, NumberChar);
    digits >= 1 && Span(s, i + digits, Space) >= 1
  }

  /** Where a number at `i` and the blank after it end. */
  function NumberEnd(s: string, i: nat): (e: nat)
    requires i <= |s|
    ensures i <= e <= |s|
    ensures NumberAt(s, i) ==> i < e
  {
    var digits := Span(s, i, NumberChar);
    i + digits + Span(s, i + digits, Space)
  }

  /** The longest run of digits and dots at `i`. */
  function NumberText(s: string, i: nat): string
    requires i <= |s|
  {
    s[i..i + Span(s, i, NumberChar)]
  }

  /** A letter and a colon at `at`. */
  predicate FamilyNameAt(s: string, at: nat)
  {
    at + 2 <= |s| && IsLetter(s[at]) && s[at + 1] == ':'
  }

  /** Where a family name at `at` and the blank after its colon end. */
  function FamilyNameEnd(s: string, at: nat): (e: nat)
    requires FamilyNameAt(s, at)
    ensures at + 2 <= e <= |s|
  {
    at + 2 + Span(s, at + 2, Space)
  }

  /** The six characters `speed:` at `at`. */
  predicate SpeedKeywordAt(s: string, at: nat)
  {
    && at + 6 <= |s|
    && s[at] == 's' && s[at + 1] == 'p' && s[at + 2] == 'e' && s[at + 3] == 'e' && s[at + 4] == 'd' && s[at + 5] == ':'
  }

  /** Where the number of a speed instruction starts: after `speed:` and any blank. */
  function SpeedNumberStart(s: string, at: nat): (i: nat)
    requires at + 6 <= |s|
    ensures at + 6 <= i <= |s|
  {
    at + 6 + Span(s, at + 6, Space)
  }

  /** When each pattern matches at `at`, stated on the characters of the text. */
  predicate Matches(p: Pattern, s: string, at: nat)
    requires at <= |s|
  {
    match p
    case FamilyName => FamilyNameAt(s, at)
    case Frequency => NumberAt(s, at)
    case Speed => SpeedKeywordAt(s, at) && NumberAt(s, SpeedNumberStart(s, at))
    case Note => at + 1 < |s| && IsLetter(s[at]) && IsDigit(s[at + 1])
    case OpenChord => at < |s| && s[at] == '('
    case CloseChord => at < |s| && s[at] == ')'
    case Rest => at < |s| && s[at] == '.' && Span(s, at + 1, Space) >= 1
  }

  /** The anchored match of `p` at offset `at`, if any. */
  function Find(p: Pattern, s: string, at: nat): (r: Option<Match>)
    requires at <= |s|
    ensures r.Some? <==> Matches(p, s, at)
    ensures r.Some? ==> Consumes(r.value, s, at)
    ensures r.Some? && p == Note ==> NoteShaped(r.value)
    ensures r.Some? && p == Note ==>
      r.value.groups[0] == [s[at]] && r.value.groups[1] == s[at + 1..NoteIndexEnd(s, at)]
    ensures r.Some? && (p == Frequency || p == Speed) ==> NumberShaped(r.value)
    ensures r.Some? && p == Frequency ==> r.value.groups == [NumberText(s, at)]
    ensures r.Some? && p == Speed ==> at + 6 <= |s| && r.value.groups == [NumberText(s, SpeedNumberStart(s, at))]
    ensures r.Some? && p == FamilyName ==> r.value.groups == [[s[at]]] && IsLetter(s[at])
    ensures r.Some? && p == FamilyName ==> FamilyNameAt(s, at) && at + |r.value.whole| == FamilyNameEnd(s, at)
    ensures r.Some? && p == OpenChord ==> |r.value.whole| == 1
    ensures r.Some? && (p == OpenChord || p == CloseChord || p == Rest) ==> r.value.groups == []
  {
    match p
    case FamilyName => FindFamilyName(s, at)
    case Frequency => FindFrequency(s, at)
    case Speed => FindSpeed(s, at)
    case Note => FindNote(s, at)
    case OpenChord => if at < |s| && s[at] == '(' then Some(Match(s[at..at + 1], [])) else None
    case CloseChord => FindAfterSymbol(s, at, ')', 0)
    case Rest => FindAfterSymbol(s, at, '.', 1)
  }

  /** `m` is a non-empty stretch of `s` starting at `at`. */
  predicate Consumes(m: Match, s: string, at: nat)
  {
    1 <= |m.whole| && at + |m.whole| <= |s| && m.whole == s[at..at + |m.whole|]
  }

  /** `([a-zA-Z]):\s*` */
  function FindFamilyName(s: string, at: nat): (r: Option<Match>)
    requires at <= |s|
    ensures r.Some? ==> Consumes(r.value, s, at)
    ensures r.Some? <==> FamilyNameAt(s, at)
    ensures r.Some? ==> r.value.groups == [[s[at]]] && at + |r.value.whole| == FamilyNameEnd(s, at)
  {
    if FamilyNameAt(s, at) then
      var end := FamilyNameEnd(s, at);
      assert s[at..at + 1] == [s[at]];
      Some(Match(s[at..end], [s[at..at + 1]]))
    else None
  }

  /** `([0-9.]+)\s+` */
  function FindFrequency(s: string, at: nat): (r: Option<Match>)
    requires at <= |s|
    ensures r.Some? <==> NumberAt(s, at)
    ensures r.Some? ==> Consumes(r.value, s, at) && NumberShaped(r.value)
    ensures r.Some? ==> r.value.groups == [NumberText(s, at)] && at + |r.value.whole| == NumberEnd(s, at)
  {
    var digits := Span(s, at, NumberChar);
    var blank := Span(s, at + digits, Space);
    if digits >= 1 && blank >= 1 then
      SpanRun(s, at, NumberChar);
      Some(Match(s[at..at + digits + blank], [s[at..at + digits]]))
    else None
  }

  /** `speed:\s*([0-9.]+)\s+`: the frequency pattern after `speed:` and optional blank. */
  function FindSpeed(s: string, at: nat): (r: Option<Match>)
    requires at <= |s|
    ensures r.Some? <==> SpeedKeywordAt(s, at) && NumberAt(s, SpeedNumberStart(s, at))
    ensures r.Some? ==> Consumes(r.value, s, at) && NumberShaped(r.value)
    ensures r.Some? ==> at + 6 <= |s| && r.value.groups == [NumberText(s, SpeedNumberStart(s, at))]
  {
    if SpeedKeywordAt(s, at) then
      var start := SpeedNumberStart(s, at);
      var number := FindFrequency(s, start);
      if number.Some? then Some(Match(s[at..start + |number.value.whole|], number.value.groups))
      else None
    else None
  }

  /** `([a-zA-Z])([0-9]+)(?:\+([0-9]+))?\s*` */
  function FindNote(s: string, at: nat): (r: Option<Match>)
    requires at <= |s|
    ensures r.Some? ==> Consumes(r.value, s, at)
    ensures r.Some? <==> at + 1 < |s| && IsLetter(s[at]) && IsDigit(s[at + 1])
    ensures r.Some? ==> NoteShaped(r.value)
    ensures r.Some? ==>
      && r.value.groups[0] == [s[at]]
      && r.value.groups[1] == s[at + 1..NoteIndexEnd(s, at)]
      && (|r.value.groups| == 3 <==> Beats(s, NoteIndexEnd(s, at)).Some?)
      && (|r.value.groups| == 3 ==> r.value.groups[2] == Beats(s, NoteIndexEnd(s, at)).value)
  {
    if at + 1 < |s| && IsLetter(s[at]) && IsDigit(s[at + 1]) then Some(NoteMatch(s, at)) else None
  }

  /** The match of a note that starts with a letter and a digit at `at`: its name, index and optional beats, and the blank after them. */
  function NoteMatch(s: string, at: nat): (m: Match)
    requires at + 1 < |s| && IsLetter(s[at]) && IsDigit(s[at + 1])
    ensures Consumes(m, s, at) && NoteShaped(m)
    ensures m.groups[0] == [s[at]] && m.groups[1] == s[at + 1..NoteIndexEnd(s, at)]
    ensures |m.groups| == 3 <==> Beats(s, NoteIndexEnd(s, at)).Some?
    ensures |m.groups| == 3 ==> m.groups[2] == Beats(s, NoteIndexEnd(s, at)).value
  {
    var afterIndex := NoteIndexEnd(s, at);
    var beats := Beats(s, afterIndex);
    var afterBeats := if beats.Some? then afterIndex + 1 + |beats.value| else afterIndex;
    var end := afterBeats + Span(s, afterBeats, Space);
    var name := s[at..at + 1];
    assert name == [s[at]];
    var index := s[at + 1..afterIndex];
    assert |name| == 1 && IsLetter(name[0]);
    SpanRun(s, at + 1, Digit);
    if beats.Some? then Match(s[at..end], [name, index, beats.value])
    else Match(s[at..end], [name, index])
  }

  /** Where the digits of a note's index, which start after its letter at `at`, end. */
  function NoteIndexEnd(s: string, at: nat): (e: nat)
    requires at < |s|
    ensures at + 1 <= e <= |s|
  {
    at + 1 + Span(s, at + 1, Digit)
  }

  /** The optional `\+([0-9]+)` of a note: the digits after a plus sign at `from`. */
  function Beats(s: string, from: nat): (r: Option<string>)
    requires from <= |s|
    ensures r.Some? ==> from + 1 + |r.value| <= |s| && r.value == s[from + 1..from + 1 + |r.value|]
    ensures r.Some? ==> |r.value| >= 1 && AllIn(r.value, Digit)
    ensures r.Some? <==> from < |s| && s[from] == '+' && Span(s, from + 1, Digit) >= 1
    ensures r.Some? ==> |r.value| == Span(s, from + 1, Digit)
  {
    if from < |s| && s[from] == '+' && Span(s, from + 1, Digit) >= 1 then
      SpanRun(s, from + 1, Digit);
      Some(s[from + 1..from + 1 + Span(s, from + 1, Digit)])
    else None
  }

  /** A single symbol followed by at least `minBlank` characters of `\s` (`\)\s*` and `\.\s+`). */
  function FindAfterSymbol(s: string, at: nat, symbol: char, minBlank: nat): (r: Option<Match>)
    requires at <= |s|
    ensures r.Some? ==> Consumes(r.value, s, at) && r.value.groups == []
    ensures r.Some? <==> at < |s| && s[at] == symbol && Span(s, at + 1, Space) >= minBlank
  {
    if at < |s| && s[at] == symbol && Span(s, at + 1, Space) >= minBlank then
      var end := at + 1 + Span(s, at + 1, Space);
      Some(Match(s[at..end], []))
    else None
  }

  /**
   * A number pattern stops at the first character outside its class:
   * the digits and dots of a frequency are the longest such run, since a
   * blank character follows them, and the blank after them is the longest
   * non-empty run of `\s`.
   */
  lemma FrequencyIsGreedy(s: string, at: nat)
    requires at <= |s| && FindFrequency(s, at).Some?
    ensures var m := FindFrequency(s, at).value;
      && m.whole == m.groups[0] + s[at + |m.groups[0]|..at + |m.whole|]
      && |m.groups[0]| < |m.whole|
      && !InClass(s[at + |m.groups[0]|], NumberChar) && IsSpace(s[at + |m.groups[0]|])
      && AllIn(s[at + |m.groups[0]|..at + |m.whole|], Space)
      && (at + |m.whole| < |s| ==> !IsSpace(s[at + |m.whole|]))
  {
    var digits := Span(s, at, NumberChar);
    var blank := Span(s, at + digits, Space);
    SpanRun(s, at + digits, Space);
    assert s[at..at + digits + blank] == s[at..at + digits] + s[at + digits..at + digits + blank];
  }
}
