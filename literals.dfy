/**
 * Raw literals carried by instructions (src/formats/internal/literals.rs) and the greedy
 * parsers the decoder hands the character stream to when the trie reaches a literal node.
 *
 * Label identifiers, strings and variable identifiers are 0-3 ASCII alphanumeric characters
 * kept in a 4-byte buffer: the characters first, then zero bytes. A variable value is an
 * integer in [-9999, 99999] whose default is 0.
 */
module Literals {
  import opened Wrappers

  type byte = b: int | 0 <= b < 256

  /** The kinds of literal a trie node or a token template can ask for. */
  datatype LiteralType =
    | LabelIdentifierLiteral
    | StringLiteral
    | VariableIdentifierLiteral
    | VariableValueLiteral

  predicate IsAlnum(c: char) {
    ('0' <= c <= '9') || ('A' <= c <= 'Z') || ('a' <= c <= 'z')
  }

  predicate IsDigit(c: char) {
    '0' <= c <= '9'
  }

  /** Text matching the regular expression `[0-9A-Za-z]{0,3}`. */
  type ShortText = s: string | |s| <= 3 && forall k | 0 <= k < |s| :: IsAlnum(s[k])

  /**
   * The 4-byte storage of an identifier or string literal: alphanumeric bytes, then zero
   * bytes only, and the last byte always zero.
   */
  predicate IsLiteralBuffer(d: seq<byte>) {
    && |d| == 4
    && d[3] == 0
    && forall k | 0 <= k < 3 :: (d[k] == 0 ==> d[k + 1] == 0) && (d[k] != 0 ==> IsAlnum(d[k] as char))
  }

  type LiteralBuffer = d: seq<byte> | IsLiteralBuffer(d) witness [0, 0, 0, 0]

  /** Stores a text in a buffer: its bytes, padded with zeros. */
  function Pack(t: ShortText): (d: LiteralBuffer)
    ensures forall k | 0 <= k < |t| :: d[k] == t[k] as int
    ensures forall k | |t| <= k < 4 :: d[k] == 0
  {
    var d := seq(4, k requires 0 <= k < 4 => if k < |t| then t[k] as int else 0);
    assert IsLiteralBuffer(d);
    d
  }

  /** The number of bytes before the first zero. */
  function ContentLength(d: LiteralBuffer): (n: nat)
    ensures n <= 3 && d[n] == 0
    ensures forall k | 0 <= k < n :: d[k] != 0
  {
    if d[0] == 0 then 0 else if d[1] == 0 then 1 else if d[2] == 0 then 2 else 3
  }

  /** The text a buffer holds. */
  function Unpack(d: LiteralBuffer): (t: ShortText)
    ensures |t| == ContentLength(d)
    ensures forall k | 0 <= k < |t| :: t[k] as int == d[k]
  {
    seq(ContentLength(d), k requires 0 <= k < ContentLength(d) => d[k] as char)
  }

  lemma UnpackPack(t: ShortText)
    ensures Unpack(Pack(t)) == t
  {
    var d := Pack(t);
    assert ContentLength(d) == |t| by {
      if |t| < 3 {
        assert d[|t|] == 0;
      }
    }
  }

  lemma PackUnpack(d: LiteralBuffer)
    ensures Pack(Unpack(d)) == d
  {
    var n := ContentLength(d);
    forall k | n <= k < 4
      ensures d[k] == 0
    {
      ZerosPropagate(d, n, k);
    }
  }

  /** Once a zero byte occurs, every later byte is zero. */
  lemma {:induction false} ZerosPropagate(d: LiteralBuffer, i: nat, j: nat)
    requires i <= j < 4 && d[i] == 0
    ensures d[j] == 0
    decreases j - i
  {
    if i < j {
      ZerosPropagate(d, i + 1, j);
    }
  }

  /** The three text literals differ only by type; each wraps a buffer. */
  datatype LabelIdentifier = LabelIdentifier(data: LiteralBuffer)
  datatype StringText = StringText(data: LiteralBuffer)
  datatype VariableIdentifier = VariableIdentifier(data: LiteralBuffer)

  type VariableValueRange = v: int | -9999 <= v <= 99999

  datatype VariableValue = VariableValue(data: VariableValueRange)

  const DefaultVariableValue := VariableValue(0)

  datatype VariableValueError = IllegalVariableValueError(value: int)

  /** Builds a value from an integer, rejecting one outside [-9999, 99999]. */
  function VariableValueFromInt(n: int): (r: Result<VariableValue, VariableValueError>)
    ensures r.Ok? <==> -9999 <= n <= 99999
    ensures r.Ok? ==> r.value.data == n
    ensures r.Err? ==> r.error.value == n
  {
    if -9999 <= n <= 99999 then Ok(VariableValue(n)) else Err(IllegalVariableValueError(n))
  }

  lemma ValueFixtures()
    ensures VariableValueFromInt(0) == Ok(VariableValue(0))
    ensures VariableValueFromInt(99999) == Ok(VariableValue(99999))
    ensures VariableValueFromInt(-5) == Ok(VariableValue(-5))
    ensures VariableValueFromInt(100000).Err? && VariableValueFromInt(-10000).Err?
    ensures DefaultVariableValue.data == 0
  {
  }

  // ----- greedy parsers over a character stream -----

  /**
   * What a literal parser hands back: the literal, how far the stream was consumed, and the
   * character that stopped the parse (consumed too), or `None` at the end of the stream.
   */
  datatype Parsed<T> = Parsed(literal: T, next: nat, lookahead: Option<char>)

  /** The end of the run of alphanumeric characters starting at `i`. */
  function AlnumRunEnd(s: string, i: nat): (j: nat)
    requires i <= |s|
    ensures i <= j <= |s|
    ensures forall k | i <= k < j :: IsAlnum(s[k])
    ensures j == |s| || !IsAlnum(s[j])
    decreases |s| - i
  {
    if i == |s| || !IsAlnum(s[i]) then i else AlnumRunEnd(s, i + 1)
  }

  /** The end of the run of decimal digits starting at `i`. */
  function DigitRunEnd(s: string, i: nat): (j: nat)
    requires i <= |s|
    ensures i <= j <= |s|
    ensures forall k | i <= k < j :: IsDigit(s[k])
    ensures j == |s| || !IsDigit(s[j])
    decreases |s| - i
  {
    if i == |s| || !IsDigit(s[i]) then i else DigitRunEnd(s, i + 1)
  }

  /** The stop point of a run ending at `j`: the character there is consumed as the lookahead. */
  function StopAt<T>(s: string, literal: T, j: nat): (r: Parsed<T>)
    requires j <= |s|
    ensures r.literal == literal
    ensures j < |s| ==> r.next == j + 1 && r.lookahead == Some(s[j])
    ensures j == |s| ==> r.next == |s| && r.lookahead.None?
  {
    if j < |s| then Parsed(literal, j + 1, Some(s[j])) else Parsed(literal, |s|, None)
  }

  /**
   * Reads an identifier or string literal: every alphanumeric character is consumed, the first
   * three are kept.
   */
  function ParseText(s: string, i: nat): (r: Parsed<ShortText>)
    requires i <= |s|
    ensures r.literal <= s[i..]
    ensures i < r.next <= |s| || (r.next == i == |s| && r.lookahead.None?)
  {
    var j := AlnumRunEnd(s, i);
    var keep := if j - i <= 3 then j else i + 3;
    StopAt(s, s[i..keep], j)
  }

  function ParseLabelIdentifier(s: string, i: nat): (r: Parsed<LabelIdentifier>)
    requires i <= |s|
    ensures Unpack(r.literal.data) == ParseText(s, i).literal
  {
    var p := ParseText(s, i);
    UnpackPack(p.literal);
    Parsed(LabelIdentifier(Pack(p.literal)), p.next, p.lookahead)
  }

  function ParseString(s: string, i: nat): (r: Parsed<StringText>)
    requires i <= |s|
    ensures Unpack(r.literal.data) == ParseText(s, i).literal
  {
    var p := ParseText(s, i);
    UnpackPack(p.literal);
    Parsed(StringText(Pack(p.literal)), p.next, p.lookahead)
  }

  function ParseVariableIdentifier(s: string, i: nat): (r: Parsed<VariableIdentifier>)
    requires i <= |s|
    ensures Unpack(r.literal.data) == ParseText(s, i).literal
  {
    var p := ParseText(s, i);
    UnpackPack(p.literal);
    Parsed(VariableIdentifier(Pack(p.literal)), p.next, p.lookahead)
  }

  function DigitValue(c: char): (d: nat)
    requires IsDigit(c)
    ensures d < 10
  {
    (c as int) - ('0' as int)
  }

  /** The number written by a run of digits, most significant digit first. */
  function DigitsValue(ds: string): (n: nat)
    requires forall k | 0 <= k < |ds| :: IsDigit(ds[k])
  {
    if |ds| == 0 then 0 else 10 * DigitsValue(ds[..|ds| - 1]) + DigitValue(ds[|ds| - 1])
  }

  function Clamp(n: int): (v: VariableValueRange)
    ensures -9999 <= n <= 99999 ==> v == n
  {
    if n < -9999 then -9999 else if n > 99999 then 99999 else n
  }

  /** Reads a variable value: an optional leading `-`, then every digit; the sign comes last. */
  function ParseVariableValue(s: string, i: nat): (r: Parsed<VariableValue>)
    requires i <= |s|
    ensures i < r.next <= |s| || (r.next == i == |s| && r.lookahead.None?)
  {
    var negative := i < |s| && s[i] == '-';
    var start := if negative then i + 1 else i;
    var j := DigitRunEnd(s, start);
    var magnitude := DigitsValue(s[start..j]);
    StopAt(s, VariableValue(Clamp(if negative then 0 - magnitude else magnitude)), j)
  }

  // ----- the textual form of literals and the round trips through the parsers -----

  function DigitChar(d: nat): (c: char)
    requires d < 10
    ensures IsDigit(c) && DigitValue(c) == d
  {
    ('0' as int + d) as char
  }

  /** The decimal digits of a natural number, without leading zeros. */
  function Decimal(n: nat): (ds: string)
    ensures 1 <= |ds|
    ensures forall k | 0 <= k < |ds| :: IsDigit(ds[k])
    decreases n
  {
    if n < 10 then [DigitChar(n)] else Decimal(n / 10) + [DigitChar(n % 10)]
  }

  lemma {:induction false} DecimalValue(n: nat)
    ensures DigitsValue(Decimal(n)) == n
    decreases n
  {
    if n >= 10 {
      var ds := Decimal(n);
      assert ds[..|ds| - 1] == Decimal(n / 10);
      DecimalValue(n / 10);
    }
  }

  /** How a value is written in a token: an optional `-`, then its decimal digits. */
  function ValueText(v: VariableValue): (t: string)
    ensures 1 <= |t|
  {
    if v.data < 0 then "-" + Decimal(-v.data) else Decimal(v.data)
  }

  /** `t` is written in `s` from index `i` on. */
  predicate WrittenAt(s: string, i: nat, t: string) {
    i + |t| <= |s| && s[i..i + |t|] == t
  }

  /** A text written at `i` and followed by a non-alphanumeric character is read back. */
  lemma TextAt(s: string, i: nat, t: ShortText)
    requires WrittenAt(s, i, t) && i + |t| < |s| && !IsAlnum(s[i + |t|])
    ensures ParseText(s, i) == Parsed(t, i + |t| + 1, Some(s[i + |t|]))
  {
    assert forall k | i <= k < i + |t| :: s[k] == t[k - i];
    AlnumRunFrom(s, i, i + |t|);
    assert s[i..i + |t|] == t;
  }

  /** Reading a text followed by a non-alphanumeric character gives the text back. */
  lemma TextRoundTrip(p: string, t: ShortText, stop: char, rest: string)
    requires !IsAlnum(stop)
    ensures ParseText(p + t + [stop] + rest, |p|) == Parsed(t, |p| + |t| + 1, Some(stop))
  {
    var s := p + t + [stop] + rest;
    assert forall k | 0 <= k < |t| :: s[|p| + k] == t[k];
    TextAt(s, |p|, t);
  }

  /** `AlnumRunEnd` from `i` stops exactly at `j` when `[i, j)` is alphanumeric and `s[j]` is not. */
  lemma {:induction false} AlnumRunFrom(s: string, i: nat, j: nat)
    requires i <= j < |s|
    requires forall k | i <= k < j :: IsAlnum(s[k])
    requires !IsAlnum(s[j])
    ensures AlnumRunEnd(s, i) == j
    decreases j - i
  {
    if i < j {
      AlnumRunFrom(s, i + 1, j);
    }
  }

  lemma {:induction false} DigitRunFrom(s: string, i: nat, j: nat)
    requires i <= j < |s|
    requires forall k | i <= k < j :: IsDigit(s[k])
    requires !IsDigit(s[j])
    ensures DigitRunEnd(s, i) == j
    decreases j - i
  {
    if i < j {
      DigitRunFrom(s, i + 1, j);
    }
  }

  /** The three text literals read back the buffer of the text written at `i`. */
  lemma IdentifiersAt(s: string, i: nat, t: ShortText)
    requires WrittenAt(s, i, t) && i + |t| < |s| && !IsAlnum(s[i + |t|])
    ensures ParseLabelIdentifier(s, i) == Parsed(LabelIdentifier(Pack(t)), i + |t| + 1, Some(s[i + |t|]))
    ensures ParseString(s, i) == Parsed(StringText(Pack(t)), i + |t| + 1, Some(s[i + |t|]))
    ensures ParseVariableIdentifier(s, i) == Parsed(VariableIdentifier(Pack(t)), i + |t| + 1, Some(s[i + |t|]))
  {
    TextAt(s, i, t);
  }

  /** A value written at `i` and followed by a non-digit is read back. */
  lemma ValueAt(s: string, i: nat, v: VariableValue)
    requires WrittenAt(s, i, ValueText(v)) && i + |ValueText(v)| < |s| && !IsDigit(s[i + |ValueText(v)|])
    ensures ParseVariableValue(s, i) == Parsed(v, i + |ValueText(v)| + 1, Some(s[i + |ValueText(v)|]))
  {
    var t := ValueText(v);
    var sign := if v.data < 0 then 1 else 0;
    var magnitude := if v.data < 0 then -v.data else v.data;
    var ds := Decimal(magnitude);
    assert t[sign..] == ds;
    assert (t[0] == '-') == (v.data < 0);
    assert forall k | i <= k < i + |t| :: s[k] == t[k - i];
    DigitRunFrom(s, i + sign, i + |t|);
    assert s[i + sign..i + |t|] == ds;
    DecimalValue(magnitude);
  }

  /** Reading the written form of a value followed by a non-digit gives the value back. */
  lemma ValueRoundTrip(p: string, v: VariableValue, stop: char, rest: string)
    requires !IsDigit(stop)
    ensures ParseVariableValue(p + ValueText(v) + [stop] + rest, |p|)
         == Parsed(v, |p| + |ValueText(v)| + 1, Some(stop))
  {
    var s := p + ValueText(v) + [stop] + rest;
    assert forall k | 0 <= k < |ValueText(v)| :: s[|p| + k] == ValueText(v)[k];
    ValueAt(s, |p|, v);
  }

  /** Characters past the third are consumed but not kept. */
  lemma LongTextIsTruncated()
    ensures ParseText("abcde;", 0).literal == "abc"
    ensures ParseText("abcde;", 0).next == 6 && ParseText("abcde;", 0).lookahead == Some(';')
  {
    AlnumRunFrom("abcde;", 0, 5);
  }

  /** The examples of the decoder test: the empty label and "hi". */
  lemma BufferFixtures()
    ensures Pack("") == [0, 0, 0, 0]
    ensures Pack("hi") == ['h' as int, 'i' as int, 0, 0]
    ensures Pack("012") == ['0' as int, '1' as int, '2' as int, 0]
  {
  }
}
