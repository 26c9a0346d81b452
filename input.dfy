/**
 * The cursor the score parser reads through: a fixed text and a position
 * that every successful read advances past what it consumed.
 */
module TextInput {
  import opened Wrappers
  import opened Patterns

  /**
   * What `get` hands back through its `$value` argument: with more than
   * two entries in `$matches`, everything but the whole match; otherwise
   * the last entry alone.
   */
  datatype MatchValue = Text(text: string) | Groups(groups: seq<string>)

  /** The number of entries in `$matches` (the whole match and each group). */
  function EntryCount(m: Match): nat
  {
    1 + |m.groups|
  }

  function ValueOf(m: Match): (v: MatchValue)
    ensures EntryCount(m) > 2 <==> v.Groups?
    ensures v.Groups? ==> v.groups == m.groups
    ensures v.Text? ==> v.text == ([m.whole] + m.groups)[EntryCount(m) - 1]
  {
    if 2 < EntryCount(m) then Groups(m.groups)
    else if m.groups == [] then Text(m.whole)
    else Text(m.groups[0])
  }

  /**
   * Where a read at `position` starts in a text of length `length`: a
   * negative position counts back from the end, and one further back
   * than the start of the text starts at 0.
   */
  function StartOffset(length: nat, position: int): (off: nat)
    ensures position >= 0 ==> off == position
    ensures position < 0 && 0 <= length + position ==> off == length + position
    ensures length + position < 0 ==> off == 0
  {
    if position >= 0 then position
    else if -position <= length then length + position
    else 0
  }

  /**
   * The match `get` makes in `text` with the cursor at `position`: the
   * pattern anchored at the start offset; an offset past the end matches
   * nothing.
   */
  function MatchAt(text: string, position: int, p: Pattern): (r: Option<Match>)
    ensures r.Some? ==> Consumes(r.value, text, StartOffset(|text|, position))
    ensures r.Some? && p == Note ==> NoteShaped(r.value)
    ensures r.Some? && (p == Frequency || p == Speed) ==> NumberShaped(r.value)
    ensures r.Some? && p == FamilyName ==> |r.value.groups| == 1 && |r.value.groups[0]| == 1 && IsLetter(r.value.groups[0][0])
    ensures 0 <= position <= |text| ==> (r.Some? <==> Matches(p, text, position))
  {
    var off := StartOffset(|text|, position);
    if off > |text| then None else Find(p, text, off)
  }

  class Input {
    const text: string
    var position: int

    constructor(text: string)
      ensures this.text == text && position == 0
    {
      this.text := text;
      position := 0;
    }

    /** The match `Get(p)` would make now; an offset past the end of the text matches nothing. */
    function Lookahead(p: Pattern): (r: Option<Match>)
      reads this
      ensures r.Some? ==> Consumes(r.value, text, StartOffset(|text|, position))
    {
      MatchAt(text, position, p)
    }

    /** Reads `p` at the current position. */
    method Get(p: Pattern) returns (found: bool, value: Option<MatchValue>)
      modifies this
      ensures found <==> MatchAt(text, old(position), p).Some?
      ensures !found ==> position == old(position) && value == None
      ensures found ==> position == old(position) + |MatchAt(text, old(position), p).value.whole|
      ensures found ==> value == Some(ValueOf(MatchAt(text, old(position), p).value))
      ensures position >= old(position)
    {
      var matches := Lookahead(p);
      if matches.None? {
        return false, None;
      }
      value := Some(ValueOf(matches.value));
      position := position + |matches.value.whole|;
      found := true;
    }

    /** Whether `t` stands in the text at the current position. */
    function StringAhead(t: string): bool
      reads this
    {
      var off := StartOffset(|text|, position);
      position + |t| <= |text| && off + |t| <= |text| && text[off..off + |t|] == t
    }

    /** Reads the literal `t` at the current position. */
    method GetString(t: string) returns (found: bool)
      modifies this
      ensures found == old(StringAhead(t))
      ensures found ==> position == old(position) + |t|
      ensures !found ==> position == old(position)
    {
      var length := |t|;
      if |text| < position + length {
        return false;
      }
      // substr_compare: an empty needle compares equal; otherwise the
      // needle must fit in what is left from the offset and match it
      var off := StartOffset(|text|, position);
      if length != 0 && !(off + length <= |text| && text[off..off + length] == t) {
        return false;
      }
      position := position + length;
      found := true;
    }

    function GetPosition(): (r: int)
      reads this
      ensures r == position
    {
      position
    }

    method SetPosition(position: int)
      modifies this
      ensures this.position == position
    {
      this.position := position;
    }

    method Move(offset: int)
      modifies this
      ensures position == old(position) + offset
    {
      position := position + offset;
    }

    /** Whether the position has reached the end of the text; from there no pattern matches any more. */
    predicate IsHalted()
      reads this
      ensures IsHalted() ==> forall p: Pattern :: Lookahead(p).None?
    {
      |text| <= position
    }

    /** From a position inside the text, `t` is read exactly when the text continues with it. */
    lemma StringAheadIsPrefix(t: string)
      requires 0 <= position <= |text|
      ensures StringAhead(t) <==> t <= text[position..]
    {
      if StringAhead(t) {
        assert text[position..][..|t|] == t;
      }
      if t <= text[position..] {
        assert text[position..position + |t|] == text[position..][..|t|];
      }
    }

    /** A read from inside the text consumes text that is there and stays inside it. */
    lemma LookaheadStaysInside(p: Pattern)
      requires 0 <= position <= |text| && Lookahead(p).Some?
      ensures position < position + |Lookahead(p).value.whole| <= |text|
      ensures Lookahead(p).value.whole <= text[position..]
    {
      var w := Lookahead(p).value.whole;
      assert text[position..][..|w|] == text[position..position + |w|];
    }
  }
}
