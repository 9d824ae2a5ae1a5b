/**
 * Character positions and the iterator that reports them (src/utils/mod.rs).
 *
 * A position counts characters, not bytes: `index` is the number of characters before it,
 * `line` the number of `'\n'` before it and `column` the number of characters since the last
 * `'\n'`. A `'\r'` is an ordinary character.
 */
module CharPositions {
  import opened Wrappers

  datatype CharPosition = CharPosition(index: nat, line: nat, column: nat)

  const StartPosition := CharPosition(0, 0, 0)

  /** The position of the character after `c`, when `c` stands at `p`. */
  function Advance(p: CharPosition, c: char): (q: CharPosition)
    ensures q.index == p.index + 1
    ensures c == '\n' ==> q.line == p.line + 1 && q.column == 0
    ensures c != '\n' ==> q.line == p.line && q.column == p.column + 1
  {
    if c == '\n' then CharPosition(p.index + 1, p.line + 1, 0)
    else CharPosition(p.index + 1, p.line, p.column + 1)
  }

  /** The position reached after reading `s` from the start of a text. */
  function PositionAfter(s: string): CharPosition
  {
    if |s| == 0 then StartPosition else Advance(PositionAfter(s[..|s| - 1]), s[|s| - 1])
  }

  /** How many `'\n'` a text holds. */
  function Newlines(s: string): nat {
    if |s| == 0 then 0 else Newlines(s[..|s| - 1]) + (if s[|s| - 1] == '\n' then 1 else 0)
  }

  /** How many characters follow the last `'\n'` of a text (all of them when there is none). */
  function CharsSinceNewline(s: string): nat {
    if |s| == 0 then 0 else if s[|s| - 1] == '\n' then 0 else CharsSinceNewline(s[..|s| - 1]) + 1
  }

  /** The three coordinates of a position, each stated on its own. */
  lemma {:induction false} PositionAfterCounts(s: string)
    ensures PositionAfter(s) == CharPosition(|s|, Newlines(s), CharsSinceNewline(s))
  {
    if |s| > 0 {
      PositionAfterCounts(s[..|s| - 1]);
    }
  }

  /** The column is the distance to the last line break. */
  lemma {:induction false} ColumnAfterLineBreak(a: string, b: string)
    requires forall k | 0 <= k < |b| :: b[k] != '\n'
    ensures PositionAfter(a + ['\n'] + b).column == |b|
    ensures PositionAfter(a + ['\n'] + b).line == PositionAfter(a).line + 1
    decreases |b|
  {
    var s := a + ['\n'] + b;
    if |b| > 0 {
      assert s[..|s| - 1] == a + ['\n'] + b[..|b| - 1];
      ColumnAfterLineBreak(a, b[..|b| - 1]);
    } else {
      assert s[..|s| - 1] == a;
    }
  }

  /** An iterator over the characters of a text that also yields each one's position. */
  class EnumerateWithPosition {
    const text: string
    var consumed: nat
    var pos: CharPosition

    /** `pos` is always the position of the next character to hand out. */
    predicate Valid()
      reads this
    {
      consumed <= |text| && pos == PositionAfter(text[..consumed])
    }

    constructor (s: string)
      ensures Valid() && text == s && consumed == 0 && pos == StartPosition
    {
      text := s;
      consumed := 0;
      pos := StartPosition;
    }

    /** What `next` would hand out, without consuming it (the `Peekable` adaptor's `peek`). */
    function Peek(): (r: Option<(CharPosition, char)>)
      reads this
      requires Valid()
      ensures r.None? <==> consumed == |text|
      ensures r.Some? ==> r.value == (pos, text[consumed])
    {
      if consumed < |text| then Some((pos, text[consumed])) else None
    }

    /** Hands out the next character with the position it stands at, or `None` once the text is exhausted. */
    method Next() returns (r: Option<(CharPosition, char)>)
      requires Valid()
      modifies this
      ensures Valid()
      ensures r == old(Peek())
      ensures old(consumed) == |text| ==> consumed == old(consumed) && pos == old(pos)
      ensures old(consumed) < |text| ==> consumed == old(consumed) + 1 && pos == Advance(old(pos), r.value.1)
    {
      if consumed == |text| {
        return None;
      }
      var c := text[consumed];
      r := Some((pos, c));
      assert text[..consumed + 1][..consumed] == text[..consumed];
      consumed := consumed + 1;
      pos := Advance(pos, c);
    }
  }

  /** The example of the iterator's documentation: `"01\nA\r\n+"`. */
  lemma DocumentationExample()
    ensures PositionAfter("01") == CharPosition(2, 0, 2)
    ensures PositionAfter("01\n") == CharPosition(3, 1, 0)
    ensures PositionAfter("01\nA\r") == CharPosition(5, 1, 2)
    ensures PositionAfter("01\nA\r\n") == CharPosition(6, 2, 0)
    ensures PositionAfter("01\nA\r\n+") == CharPosition(7, 2, 1)
  {
    assert "01\nA\r\n+"[..6] == "01\nA\r\n";
    assert "01\nA\r\n"[..5] == "01\nA\r";
    assert "01\nA\r"[..4] == "01\nA";
    assert "01\nA"[..3] == "01\n";
    assert "01\n"[..2] == "01";
    assert "01"[..1] == "0";
    assert "0"[..0] == "";
  }
}
