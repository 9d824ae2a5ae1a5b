/**
 * Diagnostics of the error-recovering New Text Format decoder
 * (src/formats/native/new/diagnostics.rs). The source's `Diagnostics` enumeration wraps one
 * structure per diagnostic and forwards every trait method to it; here the enumeration's
 * variants carry the structures' fields directly, so each accessor is one match.
 */
module Diagnostics {
  import opened CharPositions
  import Literals

  datatype DiagnosticId = NoMagicFoundId | UnknownTokenId

  /** The `u8` discriminant of an id. */
  function IdNumber(id: DiagnosticId): (n: nat)
    ensures 1 <= n <= 99
  {
    match id
    case NoMagicFoundId => 1
    case UnknownTokenId => 2
  }

  lemma IdNumbersDistinct(a: DiagnosticId, b: DiagnosticId)
    ensures IdNumber(a) == IdNumber(b) <==> a == b
  {
  }

  /** A number below 100 written with two digits, zero padded on the left. */
  function TwoDigits(n: nat): (s: string)
    requires n < 100
    ensures |s| == 2 && Literals.IsDigit(s[0]) && Literals.IsDigit(s[1])
  {
    [Literals.DigitChar(n / 10), Literals.DigitChar(n % 10)]
  }

  /** `N` followed by the id's number on two digits. */
  function PrefixedId(id: DiagnosticId): (s: string)
    ensures |s| == 3 && s[0] == 'N'
    ensures Literals.IsDigit(s[1]) && Literals.IsDigit(s[2])
    ensures Literals.DigitsValue(s[1..]) == IdNumber(id)
  {
    var digits := TwoDigits(IdNumber(id));
    assert digits[..1] == [digits[0]];
    [('N')] + digits
  }

  lemma PrefixedIdValues()
    ensures PrefixedId(NoMagicFoundId) == "N01"
    ensures PrefixedId(UnknownTokenId) == "N02"
  {
  }

  datatype Diagnostic =
    /** No `$` at the start of the text. */
    | NoMagicFound
    /** A run of characters that begin no token, from the first to the last of them. */
    | UnknownToken(start: CharPosition, end: CharPosition)

  function Id(d: Diagnostic): (id: DiagnosticId)
    ensures d.NoMagicFound? <==> id == NoMagicFoundId
  {
    match d
    case NoMagicFound => NoMagicFoundId
    case UnknownToken(_, _) => UnknownTokenId
  }

  /** Where a diagnostic is reported: the start of the text, or the first illegal character. */
  function Position(d: Diagnostic): (p: CharPosition)
    ensures d.NoMagicFound? ==> p == StartPosition
    ensures d.UnknownToken? ==> p == d.start
  {
    match d
    case NoMagicFound => StartPosition
    case UnknownToken(start, _) => start
  }

  /** The location part of a diagnostic's message: one position, or a range. */
  datatype Location = Single(at: CharPosition) | Range(first: CharPosition, last: CharPosition)

  function WhatLocation(d: Diagnostic): (l: Location)
    ensures l.Single? ==> l.at == Position(d)
    ensures l.Range? <==> d.UnknownToken? && d.start != d.end
    ensures l.Range? ==> l.first == d.start && l.last == d.end
  {
    match d
    case NoMagicFound => Single(StartPosition)
    case UnknownToken(start, end) => if start == end then Single(start) else Range(start, end)
  }
}
