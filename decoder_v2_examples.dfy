/**
 * The examples of the error-recovering decoder's tests
 * (tests/serialization/native/new/deserializer.rs:48-226), worked out over any top-level
 * table that places the characters they use as `NTF2I` does, and then over `NTF2I` itself.
 */
module DecoderV2Examples {
  import opened Wrappers
  import opened Instructions
  import opened NtfData
  import opened DecoderV1
  import opened CharPositions
  import opened Diagnostics
  import opened DecoderV2
  import NtfShape
  import Ids = InstructionIds

  // ----- the table -----

  /** A key between two neighbours of a sorted table is held by no entry. */
  lemma FindBetween(t: seq<Entry>, j: nat, c: char)
    requires KeysAscending(t) && j + 1 < |t| && t[j].key < c < t[j + 1].key
    ensures Find(t, c) == None
  {
    FindFromFails(t, c, 0);
  }

  /** A key above the last one of a sorted table is held by no entry. */
  lemma FindAbove(t: seq<Entry>, c: char)
    requires KeysAscending(t) && 0 < |t| && t[|t| - 1].key < c
    ensures Find(t, c) == None
  {
    FindFromFails(t, c, 0);
  }

  /** The entry the lookup of `c` finds in `t` leads to `n`. */
  predicate Leads(t: seq<Entry>, c: char, n: NtfNode) {
    Find(t, c).Some? && t[Find(t, c).value].node == n
  }

  /** How the characters of the examples stand in a top-level table. */
  predicate ExampleTable(t: seq<Entry>) {
    && TopLevel(t)
    && Leads(t, '^', AfterCaret) && Leads(t, 'G', AfterUpperG) && Leads(t, 'a', Id(Ids.LookA))
    && Find(t, ']') == None && Find(t, '$') == None
    && (forall c: char | '~' < c :: Find(t, c) == None)
  }

  /** `NTF2I` places the characters of the examples (data.rs:1120-1141, 1144). */
  lemma Ntf2iExampleTable()
    ensures ExampleTable(NTF2I)
  {
    NtfShape.Ntf2iEntries();
    NtfShape.Ntf2iSorted();
    assert NTF2I[3].key == '#' && NTF2I[4].key == '(';
    assert NTF2I[17] == Entry('G', AfterUpperG);
    assert NTF2I[27].key == '[' && NTF2I[28] == Entry('^', AfterCaret);
    assert NTF2I[30] == Entry('a', Id(Ids.LookA));
    assert NTF2I[43].key == '~';
    FindInSorted(NTF2I, 17);
    FindInSorted(NTF2I, 28);
    FindInSorted(NTF2I, 30);
    FindBetween(NTF2I, 3, '$');
    FindBetween(NTF2I, 27, ']');
    forall c: char | '~' < c
      ensures Find(NTF2I, c) == None
    {
      FindAbove(NTF2I, c);
    }
  }

  // ----- one step of a call -----

  /** A candidate no entry holds joins the run, and the next character becomes the candidate. */
  lemma SeekSkips(t: seq<Entry>, s: string, ts: nat, last: nat, ill: Option<(nat, nat)>)
    requires TopLevel(t) && ts + 1 < |s| && Find(t, s[ts]) == None
    ensures SeekToken(t, s, ts, last, ill) == SeekToken(t, s, ts + 1, last, Extend(ill, ts, ts))
  {
  }

  /** A candidate some entry holds is followed from that entry's node. */
  lemma SeekFollows(t: seq<Entry>, s: string, ts: nat, last: nat, ill: Option<(nat, nat)>, n: NtfNode)
    requires TopLevel(t) && ts < |s| && Leads(t, s[ts], n)
    ensures n.Command? || WellFormed(n, [])
    ensures SeekToken(t, s, ts, last, ill) == FollowToken(t, s, ts, last, ill, n, ts + 1)
  {
    assert TopLevelEntryOk(t[Find(t, s[ts]).value]);
  }

  /** A character the node's table holds moves `last_char` to it and goes on at that entry's node. */
  lemma FollowMatches(t: seq<Entry>, s: string, ts: nat, last: nat, ill: Option<(nat, nat)>, n: NtfNode, j: nat, m: NtfNode)
    requires TopLevel(t) && ts < j < |s| && n.Chars? && WellFormed(n, []) && Leads(n.table, s[j], m)
    ensures WellFormed(m, [])
    ensures FollowToken(t, s, ts, last, ill, n, j) == FollowToken(t, s, ts, j, ill, m, j + 1)
  {
    ChildOfWellFormed(n, [], Find(n.table, s[j]).value);
  }

  /** A character the node's table does not hold extends the run up to `last_char` and becomes the candidate. */
  lemma FollowMisses(t: seq<Entry>, s: string, ts: nat, last: nat, ill: Option<(nat, nat)>, n: NtfNode, j: nat)
    requires TopLevel(t) && ts < j < |s| && n.Chars? && WellFormed(n, []) && Find(n.table, s[j]) == None
    ensures FollowToken(t, s, ts, last, ill, n, j) == SeekToken(t, s, j, last, Extend(ill, ts, last))
  {
  }

  /** The end of the text inside a token reports the run, or the token so far, up to `last_char`. */
  lemma FollowEnds(t: seq<Entry>, s: string, ts: nat, last: nat, ill: Option<(nat, nat)>, n: NtfNode)
    requires TopLevel(t) && ts < |s| && n.Chars? && WellFormed(n, [])
    ensures FollowToken(t, s, ts, last, ill, n, |s|) == ScanV2(NoToken, Some((if ill.Some? then ill.value.0 else ts, last)), |s|)
  {
  }

  /** The nodes of the trie the examples walk through (data.rs:1120-1141, 567-581). */
  lemma ExampleNodes()
    ensures WellFormed(AfterCaret, []) && WellFormed(AfterUpperG, [])
    ensures Leads(AfterCaret.table, 'W', Id(Ids.MoveW)) && Leads(AfterCaret.table, 'S', Id(Ids.MoveS))
    ensures Leads(AfterCaret.table, 'F', Id(Ids.MoveF)) && Find(AfterCaret.table, 'a') == None
    ensures Leads(AfterUpperG.table, 'E', AfterUpperG.table[0].node) && WellFormed(AfterUpperG.table[0].node, [])
    ensures AfterUpperG.table[0].node.Chars? && Find(AfterUpperG.table[0].node.table, 'a') == None
  {
    NtfShape.WellFormedAfterCaret();
    NtfShape.WellFormedAfterUpperG();
    TableSorted(AfterCaret, []);
    FindInSorted(AfterCaret.table, 1);
    FindInSorted(AfterCaret.table, 2);
    FindInSorted(AfterCaret.table, 3);
    FindInSorted(AfterCaret.table, 4);
    FindAbove(AfterCaret.table, 'a');
    TableSorted(AfterUpperG, []);
    FindInSorted(AfterUpperG.table, 0);
    ChildOfWellFormed(AfterUpperG, [], 0);
    TableSorted(AfterUpperG.table[0].node, []);
    FindAbove(AfterUpperG.table[0].node.table, 'a');
  }

  // ----- `"$^W]]]]^Sфівіаві^F"` (deserializer.rs:115-163) -----

  /** Illegal characters before tokens: four `]` after `^W`, seven Cyrillic letters after `^S`. */
  const IllegalStarts := "$^W]]]]^Sфівіаві^F"

  function SimpleIns(id: Ids.InstructionId): Instruction {
    Instruction(id, NoPayload)
  }

  /** A simple instruction's leaf yields the instruction, with the open run, if any, reported. */
  lemma FollowSimple(t: seq<Entry>, s: string, ts: nat, last: nat, ill: Option<(nat, nat)>, id: Ids.InstructionId, j: nat)
    requires TopLevel(t) && ts < j <= |s| && Kind(id) == Simple
    ensures WellFormed(Id(id), [])
    ensures FollowToken(t, s, ts, last, ill, Id(id), j) == ScanV2(Read(Decoded(SimpleIns(id))), ill, j)
  {
  }

  // ----- one step of the loop of `deserialize` -----

  /** A simple instruction is written at the cursor, which moves on one slot; the call's report is kept. */
  lemma RunWrites(t: seq<Entry>, s: string, i: nat, pos: InstructionPosition, prog: seq<Instruction>, ds: seq<Diagnostic>,
                  ins: Instruction, span: Option<(nat, nat)>, next: nat)
    requires TopLevel(t) && i <= |s| && pos.Valid() && |prog| == ProgramSize && Flat(pos) + 1 < ProgramSize
    requires TokenV2In(t, s, i) == ScanV2(Read(Decoded(ins)), span, next)
    ensures span.Some? ==> span.value.0 <= |s| && span.value.1 <= |s|
    ensures RunV2In(t, s, i, pos, prog, ds)
         == RunV2In(t, s, next, PositionOf(Flat(pos) + 1), prog[Flat(pos) := ins], ds + Reported(s, span))
  {
  }

  /** The end of the text: the decoder returns what it holds, with the call's report. */
  lemma RunEnds(t: seq<Entry>, s: string, i: nat, pos: InstructionPosition, prog: seq<Instruction>, ds: seq<Diagnostic>,
                span: Option<(nat, nat)>, next: nat)
    requires TopLevel(t) && i <= |s| && pos.Valid() && |prog| == ProgramSize
    requires TokenV2In(t, s, i) == ScanV2(NoToken, span, next)
    ensures span.Some? ==> span.value.0 <= |s| && span.value.1 <= |s|
    ensures RunV2In(t, s, i, pos, prog, ds) == Returned(ds + Reported(s, span), pos, prog)
  {
  }

  /** Before the first line break, a position's index and column are the number of characters before it. */
  lemma {:induction false} OneLineCounts(u: string)
    requires forall j | 0 <= j < |u| :: u[j] != '\n'
    ensures Newlines(u) == 0 && CharsSinceNewline(u) == |u|
    decreases |u|
  {
    if 0 < |u| {
      OneLineCounts(u[..|u| - 1]);
    }
  }

  lemma OneLine(s: string, k: nat)
    requires k <= |s| && forall j | 0 <= j < k :: s[j] != '\n'
    ensures At(s, k) == CharPosition(k, 0, k)
  {
    PositionAfterCounts(s[..k]);
    OneLineCounts(s[..k]);
  }

  lemma IllegalStartsFirst(t: seq<Entry>, s: string)
    requires ExampleTable(t) && |s| == 18 && s[1] == '^' && s[2] == 'W'
    ensures TokenV2In(t, s, 1) == ScanV2(Read(Decoded(SimpleIns(Ids.MoveW))), None, 3)
  {
    ExampleNodes();
    SeekFollows(t, s, 1, 1, None, AfterCaret);
    FollowMatches(t, s, 1, 1, None, AfterCaret, 2, Id(Ids.MoveW));
    FollowSimple(t, s, 1, 2, None, Ids.MoveW, 3);
  }

  lemma IllegalStartsSecond(t: seq<Entry>, s: string)
    requires ExampleTable(t) && |s| == 18
    requires s[3] == s[4] == s[5] == s[6] == ']' && s[7] == '^' && s[8] == 'S'
    ensures TokenV2In(t, s, 3) == ScanV2(Read(Decoded(SimpleIns(Ids.MoveS))), Some((3, 6)), 9)
  {
    ExampleNodes();
    SeekSkips(t, s, 3, 3, None);
    SeekSkips(t, s, 4, 3, Some((3, 3)));
    SeekSkips(t, s, 5, 3, Some((3, 4)));
    SeekSkips(t, s, 6, 3, Some((3, 5)));
    SeekFollows(t, s, 7, 3, Some((3, 6)), AfterCaret);
    FollowMatches(t, s, 7, 3, Some((3, 6)), AfterCaret, 8, Id(Ids.MoveS));
    FollowSimple(t, s, 7, 8, Some((3, 6)), Ids.MoveS, 9);
  }

  lemma IllegalStartsThird(t: seq<Entry>, s: string)
    requires ExampleTable(t) && |s| == 18
    requires forall k | 9 <= k < 16 :: '~' < s[k]
    requires s[16] == '^' && s[17] == 'F'
    ensures TokenV2In(t, s, 9) == ScanV2(Read(Decoded(SimpleIns(Ids.MoveF))), Some((9, 15)), 18)
  {
    ExampleNodes();
    SeekSkips(t, s, 9, 9, None);
    SeekSkips(t, s, 10, 9, Some((9, 9)));
    SeekSkips(t, s, 11, 9, Some((9, 10)));
    SeekSkips(t, s, 12, 9, Some((9, 11)));
    SeekSkips(t, s, 13, 9, Some((9, 12)));
    SeekSkips(t, s, 14, 9, Some((9, 13)));
    SeekSkips(t, s, 15, 9, Some((9, 14)));
    SeekFollows(t, s, 16, 9, Some((9, 15)), AfterCaret);
    FollowMatches(t, s, 16, 9, Some((9, 15)), AfterCaret, 17, Id(Ids.MoveF));
    FollowSimple(t, s, 16, 17, Some((9, 15)), Ids.MoveF, 18);
  }

  /** The three tokens are written in the first three slots, each after the run before it is reported. */
  lemma IllegalStartsRun(t: seq<Entry>, s: string)
    requires ExampleTable(t) && |s| == 18 && s[0] == '$' && s[1] == '^' && s[2] == 'W'
    requires s[3] == s[4] == s[5] == s[6] == ']' && s[7] == '^' && s[8] == 'S'
    requires forall k | 9 <= k < 16 :: '~' < s[k]
    requires s[16] == '^' && s[17] == 'F'
    ensures DeserializeV2In(t, s, []) == Returned(
      [UnknownToken(At(s, 3), At(s, 6)), UnknownToken(At(s, 9), At(s, 15))], PositionOf(3),
      EmptyProgram()[0 := SimpleIns(Ids.MoveW)][1 := SimpleIns(Ids.MoveS)][2 := SimpleIns(Ids.MoveF)])
  {
    IllegalStartsFirst(t, s);
    IllegalStartsSecond(t, s);
    IllegalStartsThird(t, s);
    var p0 := EmptyProgram();
    var p1 := p0[0 := SimpleIns(Ids.MoveW)];
    var p2 := p1[1 := SimpleIns(Ids.MoveS)];
    var p3 := p2[2 := SimpleIns(Ids.MoveF)];
    var d := [UnknownToken(At(s, 3), At(s, 6))];
    assert Flat(DefaultPosition) == 0;
    RunWrites(t, s, 1, DefaultPosition, p0, [], SimpleIns(Ids.MoveW), None, 3);
    RunWrites(t, s, 3, PositionOf(1), p1, [], SimpleIns(Ids.MoveS), Some((3, 6)), 9);
    RunWrites(t, s, 9, PositionOf(2), p2, d, SimpleIns(Ids.MoveF), Some((9, 15)), 18);
    RunEnds(t, s, 18, PositionOf(3), p3, d + [UnknownToken(At(s, 9), At(s, 15))], None, 18);
    assert DeserializeV2In(t, s, []) == RunV2In(t, s, 1, DefaultPosition, p0, []);
    assert p0[Flat(DefaultPosition) := SimpleIns(Ids.MoveW)] == p1;
    assert [] + Reported(s, None) == [];
    assert RunV2In(t, s, 1, DefaultPosition, p0, []) == RunV2In(t, s, 3, PositionOf(1), p1, []);
    assert RunV2In(t, s, 3, PositionOf(1), p1, []) == RunV2In(t, s, 9, PositionOf(2), p2, d);
    assert RunV2In(t, s, 9, PositionOf(2), p2, d) == RunV2In(t, s, 18, PositionOf(3), p3, d + [UnknownToken(At(s, 9), At(s, 15))]);
  }

  /** The characters of the example, where the decoder looks at them. */
  lemma IllegalStartsText()
    ensures var s := IllegalStarts;
      && |s| == 18 && s[0] == '$' && s[1] == '^' && s[2] == 'W'
      && s[3] == s[4] == s[5] == s[6] == ']' && s[7] == '^' && s[8] == 'S'
      && (forall k | 9 <= k < 16 :: '~' < s[k])
      && s[16] == '^' && s[17] == 'F'
      && (forall k | 0 <= k < |s| :: s[k] != '\n')
  {
  }

  /**
   * The test with illegal start characters (deserializer.rs:115-163): MoveW, MoveS and MoveF in
   * the first three slots, and one report for the `]` from index 3 to 6 and one for the Cyrillic
   * letters from index 9 to 15, each on line 0 at the column of its index.
   */
  lemma IllegalStartChars()
    ensures TopLevel(NTF2I)
    ensures DeserializeV2In(NTF2I, IllegalStarts, []) == Returned(
      [UnknownToken(CharPosition(3, 0, 3), CharPosition(6, 0, 6)), UnknownToken(CharPosition(9, 0, 9), CharPosition(15, 0, 15))],
      InstructionPosition(0, 0, 3),
      EmptyProgram()[0 := SimpleIns(Ids.MoveW)][1 := SimpleIns(Ids.MoveS)][2 := SimpleIns(Ids.MoveF)])
  {
    var s := IllegalStarts;
    IllegalStartsText();
    OneLine(s, 3);
    OneLine(s, 6);
    OneLine(s, 9);
    OneLine(s, 15);
    assert PositionOf(3) == InstructionPosition(0, 0, 3);
    Ntf2iExampleTable();
    IllegalStartsRun(NTF2I, s);
  }

  // ----- `"$^W^a^SGEa^FGE"` (deserializer.rs:165-226) -----

  /** Tokens broken off by a character their table does not hold, and one cut by the end of the text. */
  const UnknownContinuation := "$^W^a^SGEa^FGE"

  /** `^` then `a`: the `a` breaks `^` off and is read as LookA, after the run `^` is reported. */
  lemma ContinuationCaret(t: seq<Entry>, s: string)
    requires ExampleTable(t) && |s| == 14 && s[3] == '^' && s[4] == 'a'
    ensures TokenV2In(t, s, 3) == ScanV2(Read(Decoded(SimpleIns(Ids.LookA))), Some((3, 3)), 5)
  {
    ExampleNodes();
    SeekFollows(t, s, 3, 3, None, AfterCaret);
    FollowMisses(t, s, 3, 3, None, AfterCaret, 4);
    SeekFollows(t, s, 4, 3, Some((3, 3)), Id(Ids.LookA));
    FollowSimple(t, s, 4, 3, Some((3, 3)), Ids.LookA, 5);
  }

  /** `GE` then `a`: the `a` breaks `GE` off and is read as LookA, after the run `GE` is reported. */
  lemma ContinuationGeo(t: seq<Entry>, s: string)
    requires ExampleTable(t) && |s| == 14 && s[7] == 'G' && s[8] == 'E' && s[9] == 'a'
    ensures TokenV2In(t, s, 7) == ScanV2(Read(Decoded(SimpleIns(Ids.LookA))), Some((7, 8)), 10)
  {
    ExampleNodes();
    var ge := AfterUpperG.table[0].node;
    SeekFollows(t, s, 7, 7, None, AfterUpperG);
    FollowMatches(t, s, 7, 7, None, AfterUpperG, 8, ge);
    FollowMisses(t, s, 7, 8, None, ge, 9);
    SeekFollows(t, s, 9, 8, Some((7, 8)), Id(Ids.LookA));
    FollowSimple(t, s, 9, 8, Some((7, 8)), Ids.LookA, 10);
  }

  /** `GE` at the end of the text: the broken-off token is reported, and nothing is read. */
  lemma ContinuationEnd(t: seq<Entry>, s: string)
    requires ExampleTable(t) && |s| == 14 && s[12] == 'G' && s[13] == 'E'
    ensures TokenV2In(t, s, 12) == ScanV2(NoToken, Some((12, 13)), 14)
  {
    ExampleNodes();
    var ge := AfterUpperG.table[0].node;
    SeekFollows(t, s, 12, 12, None, AfterUpperG);
    FollowMatches(t, s, 12, 12, None, AfterUpperG, 13, ge);
    FollowEnds(t, s, 12, 13, None, ge);
  }

  /** `^` and a letter its table holds: the move, with nothing reported. */
  lemma ContinuationMove(t: seq<Entry>, s: string, i: nat, c: char, id: Ids.InstructionId)
    requires ExampleTable(t) && i + 1 < |s| && s[i] == '^' && s[i + 1] == c && Leads(AfterCaret.table, c, Id(id))
    requires Kind(id) == Simple
    ensures TokenV2In(t, s, i) == ScanV2(Read(Decoded(SimpleIns(id))), None, i + 2)
  {
    ExampleNodes();
    SeekFollows(t, s, i, i, None, AfterCaret);
    FollowMatches(t, s, i, i, None, AfterCaret, i + 1, Id(id));
    FollowSimple(t, s, i, i + 1, None, id, i + 2);
  }

  /** The six calls of `parse_next_token` over the example. */
  lemma ContinuationTokens(t: seq<Entry>, s: string)
    requires ExampleTable(t) && |s| == 14 && s[0] == '$' && s[1] == '^' && s[2] == 'W'
    requires s[3] == '^' && s[4] == 'a' && s[5] == '^' && s[6] == 'S' && s[7] == 'G' && s[8] == 'E' && s[9] == 'a'
    requires s[10] == '^' && s[11] == 'F' && s[12] == 'G' && s[13] == 'E'
    ensures TokenV2In(t, s, 1) == ScanV2(Read(Decoded(SimpleIns(Ids.MoveW))), None, 3)
    ensures TokenV2In(t, s, 3) == ScanV2(Read(Decoded(SimpleIns(Ids.LookA))), Some((3, 3)), 5)
    ensures TokenV2In(t, s, 5) == ScanV2(Read(Decoded(SimpleIns(Ids.MoveS))), None, 7)
    ensures TokenV2In(t, s, 7) == ScanV2(Read(Decoded(SimpleIns(Ids.LookA))), Some((7, 8)), 10)
    ensures TokenV2In(t, s, 10) == ScanV2(Read(Decoded(SimpleIns(Ids.MoveF))), None, 12)
    ensures TokenV2In(t, s, 12) == ScanV2(NoToken, Some((12, 13)), 14)
  {
    ExampleNodes();
    ContinuationMove(t, s, 1, 'W', Ids.MoveW);
    ContinuationCaret(t, s);
    ContinuationMove(t, s, 5, 'S', Ids.MoveS);
    ContinuationGeo(t, s);
    ContinuationMove(t, s, 10, 'F', Ids.MoveF);
    ContinuationEnd(t, s);
  }

  /** The first three tokens of the example: MoveW, LookA and MoveS, with the run `^` reported. */
  lemma UnknownContinuationHead(t: seq<Entry>, s: string)
    requires TopLevel(t) && |s| == 14 && s[0] == '$'
    requires TokenV2In(t, s, 1) == ScanV2(Read(Decoded(SimpleIns(Ids.MoveW))), None, 3)
    requires TokenV2In(t, s, 3) == ScanV2(Read(Decoded(SimpleIns(Ids.LookA))), Some((3, 3)), 5)
    requires TokenV2In(t, s, 5) == ScanV2(Read(Decoded(SimpleIns(Ids.MoveS))), None, 7)
    ensures DeserializeV2In(t, s, []) == RunV2In(t, s, 7, PositionOf(3),
      EmptyProgram()[0 := SimpleIns(Ids.MoveW)][1 := SimpleIns(Ids.LookA)][2 := SimpleIns(Ids.MoveS)],
      [UnknownToken(At(s, 3), At(s, 3))])
  {
    var p0 := EmptyProgram();
    var p1 := p0[0 := SimpleIns(Ids.MoveW)];
    var p2 := p1[1 := SimpleIns(Ids.LookA)];
    var p3 := p2[2 := SimpleIns(Ids.MoveS)];
    var d1 := [UnknownToken(At(s, 3), At(s, 3))];
    assert Flat(DefaultPosition) == 0;
    RunWrites(t, s, 1, DefaultPosition, p0, [], SimpleIns(Ids.MoveW), None, 3);
    RunWrites(t, s, 3, PositionOf(1), p1, [], SimpleIns(Ids.LookA), Some((3, 3)), 5);
    RunWrites(t, s, 5, PositionOf(2), p2, d1, SimpleIns(Ids.MoveS), None, 7);
    assert DeserializeV2In(t, s, []) == RunV2In(t, s, 1, DefaultPosition, p0, []);
    assert p0[Flat(DefaultPosition) := SimpleIns(Ids.MoveW)] == p1;
    assert [] + Reported(s, None) == [];
    assert [] + Reported(s, Some((3, 3))) == d1;
    assert d1 + Reported(s, None) == d1;
    assert RunV2In(t, s, 1, DefaultPosition, p0, []) == RunV2In(t, s, 3, PositionOf(1), p1, []);
    assert RunV2In(t, s, 3, PositionOf(1), p1, []) == RunV2In(t, s, 5, PositionOf(2), p2, d1);
  }

  /** The last three tokens of the example: LookA and MoveF, with the runs `GE` and `GE` reported. */
  lemma UnknownContinuationTail(t: seq<Entry>, s: string, p3: seq<Instruction>, d1: seq<Diagnostic>)
    requires TopLevel(t) && |s| == 14 && |p3| == ProgramSize
    requires TokenV2In(t, s, 7) == ScanV2(Read(Decoded(SimpleIns(Ids.LookA))), Some((7, 8)), 10)
    requires TokenV2In(t, s, 10) == ScanV2(Read(Decoded(SimpleIns(Ids.MoveF))), None, 12)
    requires TokenV2In(t, s, 12) == ScanV2(NoToken, Some((12, 13)), 14)
    ensures RunV2In(t, s, 7, PositionOf(3), p3, d1) == Returned(
      d1 + [UnknownToken(At(s, 7), At(s, 8)), UnknownToken(At(s, 12), At(s, 13))],
      PositionOf(5), p3[3 := SimpleIns(Ids.LookA)][4 := SimpleIns(Ids.MoveF)])
  {
    var p4 := p3[3 := SimpleIns(Ids.LookA)];
    var p5 := p4[4 := SimpleIns(Ids.MoveF)];
    var d2 := d1 + [UnknownToken(At(s, 7), At(s, 8))];
    RunWrites(t, s, 7, PositionOf(3), p3, d1, SimpleIns(Ids.LookA), Some((7, 8)), 10);
    RunWrites(t, s, 10, PositionOf(4), p4, d2, SimpleIns(Ids.MoveF), None, 12);
    RunEnds(t, s, 12, PositionOf(5), p5, d2, Some((12, 13)), 14);
    assert d2 + Reported(s, None) == d2;
    assert d2 + Reported(s, Some((12, 13))) == d1 + [UnknownToken(At(s, 7), At(s, 8)), UnknownToken(At(s, 12), At(s, 13))];
    assert RunV2In(t, s, 7, PositionOf(3), p3, d1) == RunV2In(t, s, 10, PositionOf(4), p4, d2);
  }

  lemma UnknownContinuationText()
    ensures var s := UnknownContinuation;
      && |s| == 14 && s[0] == '$' && s[1] == '^' && s[2] == 'W'
      && s[3] == '^' && s[4] == 'a' && s[5] == '^' && s[6] == 'S' && s[7] == 'G' && s[8] == 'E' && s[9] == 'a'
      && s[10] == '^' && s[11] == 'F' && s[12] == 'G' && s[13] == 'E'
      && (forall k | 0 <= k < |s| :: s[k] != '\n')
  {
  }

  /**
   * The test with unknown continuations (deserializer.rs:165-226): MoveW, LookA, MoveS, LookA
   * and MoveF in the first five slots; `^` at 3 and `GE` at 7-8, each broken off by an `a` that
   * is then read as LookA, and `GE` at 12-13, cut by the end of the text, are reported.
   */
  lemma UnknownContinuationChars()
    ensures TopLevel(NTF2I)
    ensures DeserializeV2In(NTF2I, UnknownContinuation, []) == Returned(
      [UnknownToken(CharPosition(3, 0, 3), CharPosition(3, 0, 3)), UnknownToken(CharPosition(7, 0, 7), CharPosition(8, 0, 8)),
       UnknownToken(CharPosition(12, 0, 12), CharPosition(13, 0, 13))],
      InstructionPosition(0, 0, 5),
      EmptyProgram()[0 := SimpleIns(Ids.MoveW)][1 := SimpleIns(Ids.LookA)][2 := SimpleIns(Ids.MoveS)]
        [3 := SimpleIns(Ids.LookA)][4 := SimpleIns(Ids.MoveF)])
  {
    var s := UnknownContinuation;
    UnknownContinuationText();
    OneLine(s, 3);
    OneLine(s, 7);
    OneLine(s, 8);
    OneLine(s, 12);
    OneLine(s, 13);
    assert PositionOf(5) == InstructionPosition(0, 0, 5);
    Ntf2iExampleTable();
    ContinuationTokens(NTF2I, s);
    UnknownContinuationHead(NTF2I, s);
    UnknownContinuationTail(NTF2I, s, EmptyProgram()[0 := SimpleIns(Ids.MoveW)][1 := SimpleIns(Ids.LookA)][2 := SimpleIns(Ids.MoveS)],
      [UnknownToken(At(s, 3), At(s, 3))]);
  }

  // ----- Texts without tokens and without magic (deserializer.rs:47-96) -----

  /** The empty text (deserializer.rs:47-62): one NoMagicFound, and the program stays empty. */
  lemma EmptyText(t: seq<Entry>)
    requires TopLevel(t)
    ensures DeserializeV2In(t, "", []) == Returned([NoMagicFound], DefaultPosition, EmptyProgram())
  {
  }

  /** The text `$` alone (deserializer.rs:64-79): no diagnostics, and the program stays empty. */
  lemma OnlyMagic(t: seq<Entry>)
    requires TopLevel(t)
    ensures DeserializeV2In(t, "$", []) == Returned([], DefaultPosition, EmptyProgram())
  {
    assert "$"[0] == '$';
  }

  lemma NoMagicRun(t: seq<Entry>, s: string)
    requires ExampleTable(t) && |s| == 2 && s[0] == '^' && s[1] == 'W'
    ensures DeserializeV2In(t, s, []) == Returned([NoMagicFound], PositionOf(1), EmptyProgram()[0 := SimpleIns(Ids.MoveW)])
  {
    ExampleNodes();
    ContinuationMove(t, s, 0, 'W', Ids.MoveW);
    var p0 := EmptyProgram();
    assert Flat(DefaultPosition) == 0;
    RunWrites(t, s, 0, DefaultPosition, p0, [NoMagicFound], SimpleIns(Ids.MoveW), None, 2);
    RunEnds(t, s, 2, PositionOf(1), p0[0 := SimpleIns(Ids.MoveW)], [NoMagicFound], None, 2);
    assert [NoMagicFound] + Reported(s, None) == [NoMagicFound];
    assert [] + [NoMagicFound] == [NoMagicFound];
    assert p0[Flat(DefaultPosition) := SimpleIns(Ids.MoveW)] == p0[0 := SimpleIns(Ids.MoveW)];
    assert DeserializeV2In(t, s, []) == RunV2In(t, s, 0, DefaultPosition, p0, [NoMagicFound]);
  }

  /**
   * A token without magic (deserializer.rs:81-96): the text `^W` pushes one NoMagicFound and is
   * still decoded, MoveW in the first slot.
   */
  lemma NoMagicButMoveW()
    ensures TopLevel(NTF2I)
    ensures DeserializeV2In(NTF2I, "^W", []) == Returned([NoMagicFound], InstructionPosition(0, 0, 1), EmptyProgram()[0 := SimpleIns(Ids.MoveW)])
  {
    var s := "^W";
    assert |s| == 2 && s[0] == '^' && s[1] == 'W';
    assert PositionOf(1) == InstructionPosition(0, 0, 1);
    Ntf2iExampleTable();
    NoMagicRun(NTF2I, s);
  }

  // ----- A run of illegal characters that ends the text -----

  lemma TrailingRunReport(t: seq<Entry>, s: string)
    requires ExampleTable(t) && |s| == 3 && s[0] == '$' && s[1] == ']' && s[2] == ']'
    ensures DeserializeV2In(t, s, []) == Returned([UnknownToken(At(s, 1), At(s, 1))], DefaultPosition, EmptyProgram())
  {
    SeekSkips(t, s, 1, 1, None);
    assert SeekToken(t, s, 2, 1, Some((1, 1))) == ScanV2(NoToken, Some((1, 1)), 3);
    RunEnds(t, s, 1, DefaultPosition, EmptyProgram(), [], Some((1, 1)), 3);
    assert [] + Reported(s, Some((1, 1))) == [UnknownToken(At(s, 1), At(s, 1))];
  }

  /**
   * The outer loop skips an illegal first character without moving `last_char` (mod.rs:497-510),
   * and the end of the text reports the run up to `last_char` (mod.rs:574-588): in `$]]` the run
   * of both brackets is reported as the first bracket alone.
   */
  lemma TrailingRunEndsEarly()
    ensures TopLevel(NTF2I)
    ensures DeserializeV2In(NTF2I, "$]]", []) == Returned([UnknownToken(CharPosition(1, 0, 1), CharPosition(1, 0, 1))], DefaultPosition, EmptyProgram())
  {
    var s := "$]]";
    assert |s| == 3 && s[0] == '$' && s[1] == ']' && s[2] == ']';
    assert forall k | 0 <= k < |s| :: s[k] != '\n';
    OneLine(s, 1);
    Ntf2iExampleTable();
    TrailingRunReport(NTF2I, s);
  }
}
