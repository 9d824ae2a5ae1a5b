/**
 * The error-recovering New Text Format decoder, `TextFormatDeserializerV2`
 * (src/serialization/native/new/mod.rs:392-589).
 *
 * Instead of stopping at the first error it reports diagnostics: a missing `$` is a
 * `NoMagicFound`, and a run of characters that start no token, or a token that breaks off, is
 * one `UnknownToken` from the first to the last character of the run. It only decodes
 * instructions of the Simple kind; the source's `todo!()` branches (literal nodes, other kinds,
 * directives) are the outcome `Unimplemented` here.
 *
 * The functions state one call of `parse_next_token` over a top-level table `t` in terms of
 * character indices; the class beside them works on the positions its character iterator hands
 * out and is proved to compute the same, over the source's table `NTF2I`.
 */
module DecoderV2 {
  import opened Wrappers
  import opened Instructions
  import opened NtfData
  import opened DecoderV1
  import opened CharPositions
  import opened Diagnostics
  import NtfShape
  import Ids = InstructionIds

  /** What one call of `parse_next_token` yields: no token, a token, or a `todo!()` reached. */
  datatype TokenStep = NoToken | Read(token: Token) | Unimplemented

  /**
   * One call of `parse_next_token` in indices: what it yields, the first and last index of the
   * `UnknownToken` it reports, if any, and how many characters have been consumed after it.
   */
  datatype ScanV2 = ScanV2(result: TokenStep, span: Option<(nat, nat)>, next: nat)

  /**
   * A further illegal stretch ending at `end`: an open run keeps its start, otherwise a run is
   * opened at `start` (mod.rs:500-507, 543-550).
   */
  function Extend(ill: Option<(nat, nat)>, start: nat, end: nat): (r: Option<(nat, nat)>)
    ensures r.Some? && r.value.1 == end
    ensures r.value.0 == if ill.Some? then ill.value.0 else start
  {
    if ill.Some? then Some((ill.value.0, end)) else Some((start, end))
  }

  /**
   * The outer loop of `parse_next_token` (mod.rs:497-568): the candidate first character of a
   * token is at `ts` and consumed; `last` is `last_char` and `ill` the illegal run so far. A
   * character no top-level entry holds joins the run and the next one becomes the candidate;
   * `last_char` is not moved. At the end of the text the run is reported up to `last_char`.
   */
  function SeekToken(t: seq<Entry>, s: string, ts: nat, last: nat, ill: Option<(nat, nat)>): (r: ScanV2)
    requires TopLevel(t) && ts < |s|
    ensures ts < r.next <= |s|
    decreases |s| - ts - 1, 1
  {
    match Find(t, s[ts])
    case None =>
      var ill' := Extend(ill, ts, ts);
      if ts + 1 == |s| then ScanV2(NoToken, Some((ill'.value.0, last)), |s|)
      else SeekToken(t, s, ts + 1, last, ill')
    case Some(k) =>
      assert TopLevelEntryOk(t[k]);
      FollowToken(t, s, ts, last, ill, t[k].node, ts + 1)
  }

  /**
   * The inner loop of `parse_next_token` (mod.rs:513-565) at node `n` with `j` characters
   * consumed. A leaf reports the open run, if any, before it yields; a character the table does
   * not hold extends the run up to `last_char` and becomes the next candidate first character;
   * the end of the text reports the run, or the broken-off token, up to `last_char`
   * (mod.rs:574-588).
   */
  function FollowToken(t: seq<Entry>, s: string, ts: nat, last: nat, ill: Option<(nat, nat)>, n: NtfNode, j: nat)
    : (r: ScanV2)
    requires TopLevel(t) && ts < j <= |s| && (n.Command? || WellFormed(n, []))
    ensures j <= r.next <= |s|
    decreases |s| - j, 0, n
  {
    match n
    case Command(c) => ScanV2(Read(Directive(c)), ill, j)
    case Id(id) =>
      if Kind(id) == Simple then ScanV2(Read(Decoded(NewSimple(id).value)), ill, j)
      else ScanV2(Unimplemented, ill, j)
    case Literal(_, _) => ScanV2(Unimplemented, None, j)
    case Chars(tab) =>
      if j == |s| then ScanV2(NoToken, Some((if ill.Some? then ill.value.0 else ts, last)), j)
      else
        match Find(tab, s[j])
        case None => SeekToken(t, s, j, last, Extend(ill, ts, last))
        case Some(x) =>
          ChildOfWellFormed(n, [], x);
          FollowToken(t, s, ts, j, ill, tab[x].node, j + 1)
  }

  /**
   * `parse_next_token` (mod.rs:484-570) from character `i`: nothing at the end of the text.
   * A call reports at most one `UnknownToken`, and it covers characters the call consumed: it
   * starts at the first character the call read and ends before the cursor it leaves behind.
   */
  function TokenV2In(t: seq<Entry>, s: string, i: nat): (r: ScanV2)
    requires TopLevel(t) && i <= |s|
    ensures i <= r.next <= |s|
    ensures r.result.Read? ==> i < r.next
    ensures r.span.Some? ==> r.span.value.0 == i && i <= r.span.value.1 < r.next
  {
    if i == |s| then ScanV2(NoToken, None, i)
    else
      SeekSpan(t, s, i, i, i, None);
      SeekToken(t, s, i, i, None)
  }

  /** The position of the character at index `k`, as the character iterator reports it. */
  function At(s: string, k: nat): (p: CharPosition)
    requires k <= |s|
    ensures p.index == k
  {
    PositionAfterCounts(s[..k]);
    PositionAfter(s[..k])
  }

  /** The diagnostics a call pushes: one `UnknownToken` for a span, none otherwise. */
  function Reported(s: string, span: Option<(nat, nat)>): (ds: seq<Diagnostic>)
    requires span.Some? ==> span.value.0 <= |s| && span.value.1 <= |s|
    ensures |ds| <= 1
    ensures span.Some? ==> ds == [UnknownToken(At(s, span.value.0), At(s, span.value.1))]
    ensures span.None? ==> ds == []
  {
    if span.Some? then [UnknownToken(At(s, span.value.0), At(s, span.value.1))] else []
  }

  // ----- one call -----

  /**
   * The bounds of a report while seeking a token of the call that started at `i`: an open run
   * starts at `i`, and `last_char` lies between `i` and the candidate.
   */
  lemma {:induction false} SeekSpan(t: seq<Entry>, s: string, i: nat, ts: nat, last: nat, ill: Option<(nat, nat)>)
    requires TopLevel(t) && ts < |s| && i <= last <= ts
    requires ill.None? ==> ts == i
    requires ill.Some? ==> ill.value.0 == i && i <= ill.value.1 < ts
    ensures var r := SeekToken(t, s, ts, last, ill);
      r.span.Some? ==> r.span.value.0 == i && i <= r.span.value.1 < r.next
    decreases |s| - ts - 1, 1
  {
    match Find(t, s[ts])
    case None =>
      if ts + 1 < |s| {
        SeekSpan(t, s, i, ts + 1, last, Extend(ill, ts, ts));
      }
    case Some(k) =>
      assert TopLevelEntryOk(t[k]);
      FollowSpan(t, s, i, ts, last, ill, t[k].node, ts + 1);
  }

  /** The same bounds while following a token. */
  lemma {:induction false} FollowSpan(t: seq<Entry>, s: string, i: nat, ts: nat, last: nat, ill: Option<(nat, nat)>,
                                      n: NtfNode, j: nat)
    requires TopLevel(t) && ts < j <= |s| && (n.Command? || WellFormed(n, []))
    requires i <= ts && i <= last < j
    requires ill.None? ==> ts == i
    requires ill.Some? ==> ill.value.0 == i && i <= ill.value.1 < ts
    ensures var r := FollowToken(t, s, ts, last, ill, n, j);
      r.span.Some? ==> r.span.value.0 == i && i <= r.span.value.1 < r.next
    decreases |s| - j, 0, n
  {
    if n.Chars? && j < |s| {
      match Find(n.table, s[j])
      case None =>
        SeekSpan(t, s, i, j, last, Extend(ill, ts, last));
      case Some(x) =>
        ChildOfWellFormed(n, [], x);
        FollowSpan(t, s, i, ts, j, ill, n.table[x].node, j + 1);
    }
  }

  /** Once a run of illegal characters is open, the call reports it unless it reaches a `todo!()`. */
  lemma {:induction false} SeekReports(t: seq<Entry>, s: string, ts: nat, last: nat, ill: Option<(nat, nat)>)
    requires TopLevel(t) && ts < |s| && ill.Some?
    ensures var r := SeekToken(t, s, ts, last, ill); r.result.Unimplemented? || r.span.Some?
    decreases |s| - ts - 1, 1
  {
    match Find(t, s[ts])
    case None =>
      if ts + 1 < |s| {
        SeekReports(t, s, ts + 1, last, Extend(ill, ts, ts));
      }
    case Some(k) =>
      assert TopLevelEntryOk(t[k]);
      FollowReports(t, s, ts, last, ill, t[k].node, ts + 1);
  }

  lemma {:induction false} FollowReports(t: seq<Entry>, s: string, ts: nat, last: nat, ill: Option<(nat, nat)>,
                                         n: NtfNode, j: nat)
    requires TopLevel(t) && ts < j <= |s| && (n.Command? || WellFormed(n, [])) && ill.Some?
    ensures var r := FollowToken(t, s, ts, last, ill, n, j); r.result.Unimplemented? || r.span.Some?
    decreases |s| - j, 0, n
  {
    if n.Chars? && j < |s| {
      match Find(n.table, s[j])
      case None =>
        SeekReports(t, s, j, last, Extend(ill, ts, last));
      case Some(x) =>
        ChildOfWellFormed(n, [], x);
        FollowReports(t, s, ts, j, ill, n.table[x].node, j + 1);
    }
  }

  /**
   * Following a token with no illegal run open, against the fail-fast walk: short of a
   * `todo!()`, the error-recovering decoder reports nothing exactly when the fail-fast one
   * succeeds, and then both yield the same token and stop at the same character.
   */
  lemma {:induction false} FollowAgrees(t: seq<Entry>, s: string, ts: nat, last: nat, n: NtfNode, j: nat)
    requires TopLevel(t) && ts < j <= |s| && (n.Command? || WellFormed(n, []))
    ensures var v2 := FollowToken(t, s, ts, last, None, n, j);
      var v1 := Walk(s, j, n, NoRegisters, [], ts);
      && (!v2.result.Unimplemented? ==> (v2.span.None? <==> v1.outcome.Ok?))
      && (!v2.result.Unimplemented? && v2.span.None? ==> v2.result == Read(v1.outcome.value) && v2.next == v1.next)
    decreases n
  {
    match n
    case Command(_) =>
    case Literal(_, _) =>
    case Id(id) =>
      if Kind(id) == Simple {
        assert Complete(id, NoRegisters) == NewSimple(id).value;
      }
    case Chars(tab) =>
      if j < |s| {
        match Find(tab, s[j])
        case None =>
          SeekReports(t, s, j, last, Extend(None, ts, last));
        case Some(x) =>
          ChildOfWellFormed(n, [], x);
          FollowAgrees(t, s, ts, j, tab[x].node, j + 1);
      }
  }

  /**
   * One call against `parse_next` of the fail-fast decoder: short of a `todo!()`, no
   * `UnknownToken` is reported exactly when the fail-fast decoder finds no error at the same
   * character, and then both yield the same token, or none, and stop at the same character.
   */
  lemma TokenAgrees(t: seq<Entry>, s: string, i: nat)
    requires TopLevel(t) && i <= |s|
    ensures var v2 := TokenV2In(t, s, i);
      var v1 := TokenIn(t, s, i);
      && (!v2.result.Unimplemented? ==> (v2.span.None? <==> v1.outcome.Ok?))
      && (!v2.result.Unimplemented? && v2.span.None? ==>
            v1 == Scan(Ok(if v2.result.Read? then Some(v2.result.token) else None), v2.next))
  {
    if i < |s| {
      match Find(t, s[i])
      case None =>
        if i + 1 < |s| {
          SeekReports(t, s, i + 1, i, Extend(None, i, i));
        }
      case Some(k) =>
        assert TopLevelEntryOk(t[k]);
        FollowAgrees(t, s, i, i, t[k].node, i + 1);
    }
  }

  // ----- the loop of `deserialize` -----

  /** What a call of `deserialize` leaves behind: the diagnostics it returns, the cursor and the program, or a `todo!()`. */
  datatype OutcomeV2 = Returned(diagnostics: seq<Diagnostic>, position: InstructionPosition, program: seq<Instruction>) | Todo

  /**
   * The loop of `deserialize` (mod.rs:433-454) from character `i`, with the diagnostics `ds`
   * pushed so far: each call's report is pushed; an instruction is written at the cursor before
   * the cursor moves, and when it cannot move the diagnostics are returned; a directive is a
   * `todo!()`.
   */
  function RunV2In(t: seq<Entry>, s: string, i: nat, pos: InstructionPosition, prog: seq<Instruction>,
                   ds: seq<Diagnostic>): (o: OutcomeV2)
    requires TopLevel(t) && i <= |s| && pos.Valid() && |prog| == ProgramSize
    ensures o.Returned? ==> o.position.Valid() && |o.program| == ProgramSize
    decreases |s| - i
  {
    var step := TokenV2In(t, s, i);
    var ds' := ds + Reported(s, step.span);
    match step.result
    case NoToken => Returned(ds', pos, prog)
    case Unimplemented => Todo
    case Read(Directive(_)) => Todo
    case Read(Decoded(ins)) =>
      var prog' := prog[Flat(pos) := ins];
      (match MoveForward(pos)
       case Err(_) => Returned(ds', pos, prog')
       case Ok(p') => RunV2In(t, s, step.next, p', prog', ds'))
  }

  /**
   * `deserialize` (mod.rs:426-455) on the text `s` with the diagnostics `ds` left in the
   * decoder: the program and the cursor are reset, a `$` is consumed, and anything else, the
   * end of the text included, pushes one `NoMagicFound` and is decoded as the start of a token.
   */
  function DeserializeV2In(t: seq<Entry>, s: string, ds: seq<Diagnostic>): (o: OutcomeV2)
    requires TopLevel(t)
  {
    var i := if 0 < |s| && s[0] == '$' then 1 else 0;
    RunV2In(t, s, i, DefaultPosition, EmptyProgram(), if i == 1 then ds else ds + [NoMagicFound])
  }

  /**
   * `UnknownToken` reports of characters from `lo` to before `hi`, each from its first to its
   * last character, in the order of the text and without overlap.
   */
  predicate OrderedSpans(ds: seq<Diagnostic>, lo: nat, hi: nat) {
    && (forall k | 0 <= k < |ds| :: ds[k].UnknownToken? && lo <= ds[k].start.index <= ds[k].end.index < hi)
    && (forall k, k' | 0 <= k < k' < |ds| :: ds[k].end.index < ds[k'].start.index)
  }

  /** A report before reports further on in the text. */
  lemma OrderedSpansCons(x: Diagnostic, rest: seq<Diagnostic>, lo: nat, mid: nat, hi: nat)
    requires x.UnknownToken? && lo <= x.start.index <= x.end.index < mid <= hi && OrderedSpans(rest, mid, hi)
    ensures OrderedSpans([x] + rest, lo, hi)
  {
    var u := [x] + rest;
    assert forall k | 0 < k < |u| :: u[k] == rest[k - 1];
  }

  lemma PrefixSplit(d: seq<Diagnostic>, ds: seq<Diagnostic>, r: seq<Diagnostic>)
    requires |ds + r| <= |d| && d[..|ds + r|] == ds + r
    ensures d[..|ds|] == ds && d[|ds|..] == r + d[|ds + r|..]
  {
    assert d[..|ds|] == (ds + r)[..|ds|];
    assert d[|ds|..] == d[|ds|..|ds + r|] + d[|ds + r|..];
    assert d[|ds|..|ds + r|] == (ds + r)[|ds|..];
  }

  /** The reports of one call, then those of the rest of the loop, further on in the text. */
  lemma OrderedSpansJoin(d: seq<Diagnostic>, ds: seq<Diagnostic>, r: seq<Diagnostic>, lo: nat, mid: nat, hi: nat)
    requires |r| <= 1 && OrderedSpans(r, lo, mid) && lo <= mid <= hi
    requires |ds + r| <= |d| && d[..|ds + r|] == ds + r && OrderedSpans(d[|ds + r|..], mid, hi)
    ensures |ds| <= |d| && d[..|ds|] == ds && OrderedSpans(d[|ds|..], lo, hi)
  {
    var rest := d[|ds + r|..];
    PrefixSplit(d, ds, r);
    if |r| == 1 {
      assert r == [r[0]];
      OrderedSpansCons(r[0], rest, lo, mid, hi);
    } else {
      assert r + rest == rest;
    }
  }

  /**
   * The diagnostics of the loop: those pushed before it are kept in front, and the loop adds
   * only `UnknownToken` reports, in the order of the text, without overlap, all of characters
   * from `i` on.
   */
  lemma {:induction false} RunV2Reports(t: seq<Entry>, s: string, i: nat, pos: InstructionPosition, prog: seq<Instruction>,
                                        ds: seq<Diagnostic>)
    requires TopLevel(t) && i <= |s| && pos.Valid() && |prog| == ProgramSize
    ensures var o := RunV2In(t, s, i, pos, prog, ds);
      o.Returned? ==> |ds| <= |o.diagnostics| && o.diagnostics[..|ds|] == ds && OrderedSpans(o.diagnostics[|ds|..], i, |s|)
    decreases |s| - i
  {
    var o := RunV2In(t, s, i, pos, prog, ds);
    var step := TokenV2In(t, s, i);
    var r := Reported(s, step.span);
    var ds' := ds + r;
    assert OrderedSpans(r, i, step.next);
    if o.Returned? {
      if step.result.Read? && MoveForward(pos).Ok? {
        var p', prog' := MoveForward(pos).value, prog[Flat(pos) := step.result.token.instruction];
        assert o == RunV2In(t, s, step.next, p', prog', ds');
        RunV2Reports(t, s, step.next, p', prog', ds');
        OrderedSpansJoin(o.diagnostics, ds, r, i, step.next, |s|);
      } else {
        assert o.diagnostics == ds';
        OrderedSpansJoin(o.diagnostics, ds, r, i, step.next, |s|);
      }
    }
  }

  /**
   * The loop against the loop of the fail-fast decoder: when it pushes no diagnostic and
   * reaches no `todo!()`, the fail-fast decoder leaves the same cursor and the same program,
   * and either succeeds or fails with the same overflow.
   */
  lemma {:induction false} RunV2Agrees(t: seq<Entry>, s: string, i: nat, pos: InstructionPosition, prog: seq<Instruction>,
                                       ds: seq<Diagnostic>)
    requires TopLevel(t) && i <= |s| && pos.Valid() && |prog| == ProgramSize
    ensures var o := RunV2In(t, s, i, pos, prog, ds);
      var v1 := RunIn(t, s, i, pos, prog);
      o.Returned? && o.diagnostics == ds ==>
        && v1.position == o.position && v1.program == o.program
        && (v1.result.Ok? || v1.result.error == DecodeError.InstructionPositionOverflowError)
    decreases |s| - i
  {
    var o := RunV2In(t, s, i, pos, prog, ds);
    if o.Returned? && o.diagnostics == ds {
      var step := TokenV2In(t, s, i);
      var ds' := ds + Reported(s, step.span);
      var next := MoveForward(pos);
      if step.result.Read? && next.Ok? {
        var prog' := prog[Flat(pos) := step.result.token.instruction];
        assert o == RunV2In(t, s, step.next, next.value, prog', ds');
        RunV2Reports(t, s, step.next, next.value, prog', ds');
      } else {
        assert o.diagnostics == ds';
      }
      assert step.span.None?;
      assert ds' == ds;
      TokenAgrees(t, s, i);
      if step.result.Read? && next.Ok? {
        RunV2Agrees(t, s, step.next, next.value, prog[Flat(pos) := step.result.token.instruction], ds);
      }
    }
  }

  /**
   * The last slot (mod.rs:216-217, 439-447): a token decoded there is written, the cursor cannot
   * move on, and the error-recovering decoder returns its diagnostics where the fail-fast one
   * fails with an overflow; both leave the same cursor and program.
   */
  lemma LastSlotBothDecoders(t: seq<Entry>, s: string, i: nat, pos: InstructionPosition, prog: seq<Instruction>,
                             ds: seq<Diagnostic>)
    requires TopLevel(t) && i <= |s| && pos.Valid() && Flat(pos) == ProgramSize - 1 && |prog| == ProgramSize
    requires TokenV2In(t, s, i).result.Read? && TokenV2In(t, s, i).result.token.Decoded?
    requires TokenV2In(t, s, i).span.None?
    ensures var step := TokenV2In(t, s, i);
      var prog' := prog[Flat(pos) := step.result.token.instruction];
      && RunV2In(t, s, i, pos, prog, ds) == Returned(ds, pos, prog')
      && RunIn(t, s, i, pos, prog) == Outcome(Err(DecodeError.InstructionPositionOverflowError), step.next, pos, prog')
  {
    TokenAgrees(t, s, i);
    assert ds + Reported(s, None) == ds;
  }

  /**
   * The diagnostics of `deserialize`: those left in the decoder, then one `NoMagicFound` exactly
   * when the text does not start with `$`, then `UnknownToken` reports in the order of the text,
   * without overlap, none of them over the `$`.
   */
  lemma DeserializeV2Reports(t: seq<Entry>, s: string, ds: seq<Diagnostic>)
    requires TopLevel(t)
    ensures var o := DeserializeV2In(t, s, ds);
      var magic := 0 < |s| && s[0] == '$';
      var m := if magic then [] else [NoMagicFound];
      o.Returned? ==>
        && |ds + m| <= |o.diagnostics| && o.diagnostics[..|ds + m|] == ds + m
        && OrderedSpans(o.diagnostics[|ds + m|..], if magic then 1 else 0, |s|)
  {
    var magic := 0 < |s| && s[0] == '$';
    var m: seq<Diagnostic> := if magic then [] else [NoMagicFound];
    assert (if magic then ds else ds + [NoMagicFound]) == ds + m;
    RunV2Reports(t, s, if magic then 1 else 0, DefaultPosition, EmptyProgram(), ds + m);
  }

  /**
   * The two decoders on a whole text: when the error-recovering one pushes no diagnostic and
   * reaches no `todo!()`, the text starts with `$` and the fail-fast one, from any program,
   * leaves the same cursor and the same program, succeeding or failing with an overflow.
   */
  lemma DecodersAgree(s: string, ds: seq<Diagnostic>, prog: seq<Instruction>)
    requires |prog| == ProgramSize
    ensures TopLevel(NTF2I)
    ensures var o := DeserializeV2In(NTF2I, s, ds);
      var v1 := Decode(s, prog);
      o.Returned? && o.diagnostics == ds ==>
        && 0 < |s| && s[0] == '$'
        && v1.position == o.position && v1.program == o.program
        && (v1.result.Ok? || v1.result.error == DecodeError.InstructionPositionOverflowError)
  {
    NtfShape.Ntf2iEntries();
    DeserializeV2Reports(NTF2I, s, ds);
    if 0 < |s| && s[0] == '$' {
      RunV2Agrees(NTF2I, s, 1, DefaultPosition, EmptyProgram(), ds);
    }
  }

  // ----- the decoder -----

  /** The positions of an illegal run given by its first and last index. */
  function SpanAt(s: string, ill: Option<(nat, nat)>): Option<(CharPosition, CharPosition)>
    requires ill.Some? ==> ill.value.0 <= |s| && ill.value.1 <= |s|
  {
    if ill.Some? then Some((At(s, ill.value.0), At(s, ill.value.1))) else None
  }

  /**
   * The decoder's state (mod.rs:392-408): the text, the iterator over its characters, the
   * candidate first character of a token, the position of the last character matched in the
   * token, the illegal run so far, the cursor and the diagnostics pushed so far.
   */
  class TextFormatDeserializerV2 {
    const source: string
    /** The table the decoder reads, `NTF2I` (data.rs:230-1202). */
    const trie: seq<Entry>
    var sourceIter: EnumerateWithPosition
    var tokenStart: (CharPosition, char)
    var lastChar: CharPosition
    var illegalChars: Option<(CharPosition, CharPosition)>
    var insPos: InstructionPosition
    var diagnostics: seq<Diagnostic>

    /** The table is a top-level table, sorted for the binary search. */
    predicate TrieOk() {
      TopLevel(trie) && KeysAscending(trie)
    }

    predicate Valid()
      reads this, sourceIter
    {
      sourceIter.Valid() && sourceIter.text == source && insPos.Valid() && TrieOk()
    }

    /** `new` (mod.rs:411-425). */
    constructor (s: string)
      ensures Valid() && fresh(sourceIter)
      ensures source == s && trie == NTF2I && sourceIter.consumed == 0 && insPos == DefaultPosition && diagnostics == []
      ensures tokenStart == (StartPosition, '\0') && lastChar == StartPosition && illegalChars == None
    {
      source := s;
      trie := NTF2I;
      NtfShape.Ntf2iEntries();
      NtfShape.Ntf2iSorted();
      sourceIter := new EnumerateWithPosition(s);
      tokenStart := (StartPosition, '\0');
      lastChar := StartPosition;
      illegalChars := None;
      insPos := DefaultPosition;
      diagnostics := [];
    }

    /** `reset` (mod.rs:462-466): a fresh iterator and the first slot; the diagnostics stay. */
    method Reset()
      requires Valid()
      modifies this
      ensures Valid() && fresh(sourceIter) && sourceIter.consumed == 0 && insPos == DefaultPosition
      ensures diagnostics == old(diagnostics)
      ensures tokenStart == old(tokenStart) && lastChar == old(lastChar) && illegalChars == old(illegalChars)
    {
      sourceIter := new EnumerateWithPosition(source);
      insPos := DefaultPosition;
    }

    /** `check_magic` (mod.rs:469-478): a `$` is consumed; anything else is left and reported. */
    method CheckMagic()
      requires Valid()
      modifies this, sourceIter
      ensures Valid() && sourceIter == old(sourceIter) && insPos == old(insPos)
      ensures tokenStart == old(tokenStart) && lastChar == old(lastChar) && illegalChars == old(illegalChars)
      ensures var c := old(sourceIter.consumed);
        if c < |source| && source[c] == '$' then sourceIter.consumed == c + 1 && diagnostics == old(diagnostics)
        else sourceIter.consumed == c && diagnostics == old(diagnostics) + [NoMagicFound]
    {
      var peeked := sourceIter.Peek();
      if peeked.Some? && peeked.value.1 == '$' {
        var _ := sourceIter.Next();
      } else {
        diagnostics := diagnostics + [NoMagicFound];
      }
    }

    /**
     * `next_char` (mod.rs:574-588): the next character; at the end of the text, reports the
     * open run, or else the token from its candidate first character, up to `last_char`.
     */
    method NextChar() returns (r: Option<(CharPosition, char)>)
      requires Valid()
      modifies this, sourceIter
      ensures Valid() && sourceIter == old(sourceIter) && insPos == old(insPos)
      ensures tokenStart == old(tokenStart) && lastChar == old(lastChar) && illegalChars == old(illegalChars)
      ensures r == old(sourceIter.Peek())
      ensures r.Some? ==> sourceIter.consumed == old(sourceIter.consumed) + 1 && diagnostics == old(diagnostics)
      ensures r.None? ==> sourceIter.consumed == old(sourceIter.consumed)
      ensures r.None? ==> diagnostics == old(diagnostics) + [UnknownToken(if illegalChars.Some? then illegalChars.value.0 else tokenStart.0, lastChar)]
    {
      r := sourceIter.Next();
      if r.None? {
        if illegalChars.Some? {
          diagnostics := diagnostics + [UnknownToken(illegalChars.value.0, lastChar)];
        } else {
          diagnostics := diagnostics + [UnknownToken(tokenStart.0, lastChar)];
        }
      }
    }

    /** Pushes the open illegal run, if any, as leaves do before they yield (mod.rs:517-519, 524-526). */
    method ReportRun()
      modifies this
      ensures sourceIter == old(sourceIter) && insPos == old(insPos)
      ensures tokenStart == old(tokenStart) && lastChar == old(lastChar) && illegalChars == old(illegalChars)
      ensures illegalChars.None? ==> diagnostics == old(diagnostics)
      ensures illegalChars.Some? ==> diagnostics == old(diagnostics) + [UnknownToken(illegalChars.value.0, illegalChars.value.1)]
    {
      if illegalChars.Some? {
        diagnostics := diagnostics + [UnknownToken(illegalChars.value.0, illegalChars.value.1)];
      }
    }

    /**
     * `deserialize` (mod.rs:426-455): the decoder is reset, the program is cleared and the
     * magic checked; then tokens are decoded into the program up to the end of the text or an
     * overflow of the cursor, and the diagnostics are handed out and cleared. A `todo!()` is
     * `None`. What it returns, the cursor and the program are those of `DeserializeV2In` on the
     * diagnostics the decoder held.
     */
    method Deserialize(program: Program) returns (r: Option<seq<Diagnostic>>)
      requires Valid() && program.Valid()
      modifies this, program.slots
      ensures Valid()
      ensures var o := DeserializeV2In(trie, source, old(diagnostics));
        && (r.None? <==> o.Todo?)
        && (o.Returned? ==> r == Some(o.diagnostics) && insPos == o.position && program.slots[..] == o.program)
      ensures r.Some? ==> diagnostics == []
    {
      ghost var ds0 := diagnostics;
      Reset();
      program.Reset();
      CheckMagic();
      while true
        invariant Valid() && fresh(sourceIter)
        invariant RunV2In(trie, source, sourceIter.consumed, insPos, program.slots[..], diagnostics)
               == DeserializeV2In(trie, source, ds0)
        decreases |source| - sourceIter.consumed
      {
        var step := ParseNextToken();
        match step
        case NoToken =>
          r := Some(diagnostics);
          diagnostics := [];
          return;
        case Unimplemented =>
          return None;
        case Read(Directive(_)) =>
          return None;
        case Read(Decoded(ins)) =>
          program.Set(insPos, ins);
          var moved := MoveForward(insPos);
          if moved.Err? {
            r := Some(diagnostics);
            diagnostics := [];
            return;
          }
          insPos := moved.value;
      }
    }

    /**
     * The fields of a call of `parse_next_token` that started at character `i`: the candidate
     * first character is at `ts`, `last_char` at `last`, and the illegal run is `ill`, which
     * starts at `i` and ends before the candidate.
     */
    predicate Tracks(i: nat, ts: nat, last: nat, ill: Option<(nat, nat)>)
      reads this, sourceIter
    {
      && Valid() && i <= ts < |source| && i <= last < |source|
      && (ill.None? ==> ts == i)
      && (ill.Some? ==> ill.value.0 == i && i <= ill.value.1 < ts)
      && tokenStart == (At(source, ts), source[ts]) && lastChar == At(source, last)
      && illegalChars == SpanAt(source, ill)
    }

    /**
     * `parse_next_token` (mod.rs:484-570): what it yields, where it leaves the iterator and what
     * it pushes are those of `TokenV2In` over `trie` from the iterator's place. The fields
     * `token_start`, `last_char` and `illegal_chars` are set before they are read in every call.
     */
    method ParseNextToken() returns (r: TokenStep)
      requires Valid()
      modifies this, sourceIter
      ensures Valid() && sourceIter == old(sourceIter) && insPos == old(insPos)
      ensures var v := TokenV2In(trie, source, old(sourceIter.consumed));
        && r == v.result && sourceIter.consumed == v.next
        && diagnostics == old(diagnostics) + Reported(source, v.span)
    {
      ghost var i := sourceIter.consumed;
      ghost var d0 := diagnostics;
      illegalChars := None;
      var first := sourceIter.Next();
      if first.None? {
        return NoToken;
      }
      tokenStart := first.value;
      lastChar := tokenStart.0;
      ghost var ts, last, ill: Option<(nat, nat)> := i, i, None;
      while true
        invariant Tracks(i, ts, last, ill) && last <= ts && sourceIter.consumed == ts + 1
        invariant sourceIter == old(sourceIter) && insPos == old(insPos) && diagnostics == d0
        invariant SeekToken(trie, source, ts, last, ill) == TokenV2In(trie, source, i)
        decreases |source| - ts
      {
        var k := BinarySearch(trie, tokenStart.1);
        if k.None? {
          var more;
          more, ts, ill := SkipIllegal(i, ts, last, ill);
          if !more {
            return NoToken;
          }
          continue;
        }
        assert TopLevelEntryOk(trie[k.value]);
        var done;
        r, done, ts, last, ill := FollowFrom(trie[k.value].node, i, ts, last, ill);
        if done {
          return;
        }
      }
    }

    /**
     * A candidate no top-level entry holds (mod.rs:497-510): it joins the illegal run and the
     * next character becomes the candidate; at the end of the text the run is reported and the
     * call ends as `TokenV2In` says.
     */
    method SkipIllegal(ghost i: nat, ghost ts: nat, ghost last: nat, ghost ill: Option<(nat, nat)>)
      returns (more: bool, ghost ts': nat, ghost ill': Option<(nat, nat)>)
      requires Tracks(i, ts, last, ill) && last <= ts && sourceIter.consumed == ts + 1
      requires Find(trie, source[ts]).None? && SeekToken(trie, source, ts, last, ill) == TokenV2In(trie, source, i)
      modifies this, sourceIter
      ensures Valid() && sourceIter == old(sourceIter) && insPos == old(insPos)
      ensures var v := TokenV2In(trie, source, i);
        !more ==> v.result == NoToken && sourceIter.consumed == v.next && diagnostics == old(diagnostics) + Reported(source, v.span)
      ensures more ==> Tracks(i, ts', last, ill') && ts' == ts + 1 && sourceIter.consumed == ts' + 1
      ensures more ==> diagnostics == old(diagnostics)
      ensures more ==> SeekToken(trie, source, ts', last, ill') == TokenV2In(trie, source, i)
    {
      if illegalChars.Some? {
        illegalChars := Some((illegalChars.value.0, tokenStart.0));
      } else {
        illegalChars := Some((tokenStart.0, tokenStart.0));
      }
      ill' := Extend(ill, ts, ts);
      var next := NextChar();
      if next.None? {
        return false, ts, ill';
      }
      tokenStart := next.value;
      ts' := ts + 1;
      more := true;
    }

    /**
     * The inner loop of `parse_next_token` (mod.rs:513-565) from the node `start` of the
     * candidate's top-level entry, in a call that started at `i`: either the call ends as
     * `TokenV2In` says, or it goes back to seeking a token from a new candidate, from where
     * seeking still leads to what `TokenV2In` says.
     */
    method FollowFrom(start: NtfNode, ghost i: nat, ghost ts: nat, ghost last: nat, ghost ill: Option<(nat, nat)>)
      returns (r: TokenStep, done: bool, ghost ts': nat, ghost last': nat, ghost ill': Option<(nat, nat)>)
      requires Tracks(i, ts, last, ill) && last <= ts && sourceIter.consumed == ts + 1
      requires start.Command? || WellFormed(start, [])
      requires FollowToken(trie, source, ts, last, ill, start, ts + 1) == TokenV2In(trie, source, i)
      modifies this, sourceIter
      ensures Valid() && sourceIter == old(sourceIter) && insPos == old(insPos)
      ensures var v := TokenV2In(trie, source, i);
        done ==> r == v.result && sourceIter.consumed == v.next && diagnostics == old(diagnostics) + Reported(source, v.span)
      ensures !done ==> Tracks(i, ts', last', ill') && last' <= ts' && sourceIter.consumed == ts' + 1 && ts < ts'
      ensures !done ==> diagnostics == old(diagnostics)
      ensures !done ==> SeekToken(trie, source, ts', last', ill') == TokenV2In(trie, source, i)
    {
      var node := start;
      ghost var j := ts + 1;
      last' := last;
      while node.Chars?
        invariant Tracks(i, ts, last', ill) && ts < j && i <= last' < j <= |source| && sourceIter.consumed == j
        invariant sourceIter == old(sourceIter) && insPos == old(insPos) && diagnostics == old(diagnostics)
        invariant node.Command? || WellFormed(node, [])
        invariant FollowToken(trie, source, ts, last', ill, node, j) == TokenV2In(trie, source, i)
        decreases node
      {
        var x, ended := Descend(node, i, ts, last', ill, j);
        if ended {
          return NoToken, true, ts, last', ill;
        }
        if x.None? {
          return NoToken, false, j, last', Extend(ill, ts, last');
        }
        last' := j;
        node := x.value;
        j := j + 1;
      }
      r := Yield(node, i, ts, last', ill, j);
      return r, true, ts, last', ill;
    }

    /**
     * A leaf of the trie (mod.rs:516-538): a directive or a simple instruction is yielded after
     * the open run is reported; another kind of instruction, or a literal, is a `todo!()`.
     */
    method Yield(node: NtfNode, ghost i: nat, ghost ts: nat, ghost last: nat, ghost ill: Option<(nat, nat)>, ghost j: nat)
      returns (r: TokenStep)
      requires Tracks(i, ts, last, ill) && ts < j && i <= last < j <= |source| && sourceIter.consumed == j
      requires !node.Chars? && (node.Command? || WellFormed(node, []))
      requires FollowToken(trie, source, ts, last, ill, node, j) == TokenV2In(trie, source, i)
      modifies this
      ensures Valid() && sourceIter == old(sourceIter) && insPos == old(insPos)
      ensures var v := TokenV2In(trie, source, i);
        r == v.result && sourceIter.consumed == v.next && diagnostics == old(diagnostics) + Reported(source, v.span)
    {
      match node
      case Command(c) =>
        ReportRun();
        return Read(Directive(c));
      case Id(id) =>
        ReportRun();
        if Kind(id) == Simple {
          return Read(Decoded(NewSimple(id).value));
        }
        return Unimplemented;
      case Literal(_, _) =>
        return Unimplemented;
    }

    /**
     * One table of the trie (mod.rs:539-563): the next character is read; at the end of the text
     * the call ends as `TokenV2In` says. A character the table does not hold extends the run up
     * to `last_char` and becomes the new candidate; one it holds moves `last_char` to it.
     */
    method Descend(node: NtfNode, ghost i: nat, ghost ts: nat, ghost last: nat, ghost ill: Option<(nat, nat)>, ghost j: nat)
      returns (x: Option<NtfNode>, ended: bool)
      requires Tracks(i, ts, last, ill) && ts < j && i <= last < j <= |source| && sourceIter.consumed == j
      requires node.Chars? && WellFormed(node, [])
      requires FollowToken(trie, source, ts, last, ill, node, j) == TokenV2In(trie, source, i)
      modifies this, sourceIter
      ensures Valid() && sourceIter == old(sourceIter) && insPos == old(insPos)
      ensures var v := TokenV2In(trie, source, i);
        ended ==> v.result == NoToken && sourceIter.consumed == v.next && diagnostics == old(diagnostics) + Reported(source, v.span)
      ensures !ended ==> j < |source| && sourceIter.consumed == j + 1 && diagnostics == old(diagnostics)
      ensures !ended && x.None? ==> Tracks(i, j, last, Extend(ill, ts, last))
      ensures !ended && x.None? ==> SeekToken(trie, source, j, last, Extend(ill, ts, last)) == TokenV2In(trie, source, i)
      ensures !ended && x.Some? ==> Tracks(i, ts, j, ill) && x.value < node && WellFormed(x.value, [])
      ensures !ended && x.Some? ==> FollowToken(trie, source, ts, j, ill, x.value, j + 1) == TokenV2In(trie, source, i)
    {
      var next := NextChar();
      if next.None? {
        return None, true;
      }
      TableSorted(node, []);
      var k := BinarySearch(node.table, next.value.1);
      ended := false;
      if k.None? {
        if illegalChars.Some? {
          illegalChars := Some((illegalChars.value.0, lastChar));
        } else {
          illegalChars := Some((tokenStart.0, lastChar));
        }
        tokenStart := next.value;
        x := None;
      } else {
        ChildOfWellFormed(node, [], k.value);
        lastChar := next.value.0;
        x := Some(node.table[k.value].node);
      }
    }
  }
}
