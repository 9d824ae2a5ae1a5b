/**
 * The commands fixture of the fail-fast decoder (tests/common/mod.rs:29-30 with the program of
 * tests/common/internal.rs:147-161): instructions are written at the cursor, and the four
 * directives only move it.
 */
module DecoderV1Examples {
  import opened Wrappers
  import opened Instructions
  import opened NtfData
  import opened NtfTemplates
  import opened DecoderV1
  import NtfShape
  import TemplatePaths
  import TokenRoundTrip
  import Ids = InstructionIds
  import opened Literals

  /** A decoded instruction is written at the cursor before the cursor moves one slot on. */
  lemma RunWrites(t: seq<Entry>, s: string, i: nat, pos: InstructionPosition, prog: seq<Instruction>,
                  ins: Instruction, next: nat, pos': InstructionPosition)
    requires TopLevel(t) && i <= |s| && pos.Valid() && |prog| == ProgramSize
    requires TokenIn(t, s, i) == Scan(Ok(Some(Decoded(ins))), next) && MoveForward(pos) == Ok(pos')
    ensures RunIn(t, s, i, pos, prog) == RunIn(t, s, next, pos', prog[Flat(pos) := ins])
  {
  }

  /** A directive moves the cursor and writes nothing. */
  lemma RunMoves(t: seq<Entry>, s: string, i: nat, pos: InstructionPosition, prog: seq<Instruction>,
                 c: Command, next: nat, pos': InstructionPosition)
    requires TopLevel(t) && i <= |s| && pos.Valid() && |prog| == ProgramSize
    requires TokenIn(t, s, i) == Scan(Ok(Some(Directive(c))), next) && MoveBy(c, pos) == Ok(pos')
    ensures RunIn(t, s, i, pos, prog) == RunIn(t, s, next, pos', prog)
  {
  }

  /** The end of the text between tokens ends the loop without error. */
  lemma RunEnds(t: seq<Entry>, s: string, pos: InstructionPosition, prog: seq<Instruction>)
    requires TopLevel(t) && pos.Valid() && |prog| == ProgramSize
    ensures RunIn(t, s, |s|, pos, prog) == Outcome(Ok(()), |s|, pos, prog)
  {
  }

  /** A top-level directive character is read as its directive. */
  lemma DirectiveToken(s: string, i: nat, k: nat, c: Command)
    requires i < |s| && Find(NTF2I, s[i]) == Some(k) && NTF2I[k].node == Command(c)
    ensures TokenAt(s, i) == Scan(Ok(Some(Directive(c))), i + 1)
  {
    NtfShape.Ntf2iEntries();
  }

  /** `^` and a letter that spell a simple instruction's template are read as that instruction. */
  lemma CaretToken(s: string, i: nat, c: char, id: Ids.InstructionId)
    requires Kind(id) == Simple && i + 1 < |s| && s[i] == '^' && s[i + 1] == c
    requires WalkText(Root, ['^', c], 0) == Some(Id(id))
    ensures TokenAt(s, i) == Scan(Ok(Some(Decoded(Instruction(id, NoPayload)))), i + 2)
  {
    assert s[i..i + 2] == ['^', c];
    TokenRoundTrip.DecodeSimple(s, i, id, ['^', c]);
  }

  function SimpleIns(id: Ids.InstructionId): Instruction {
    Instruction(id, NoPayload)
  }

  /** The cursor moves of the example, slot by slot. */
  lemma CommandMoves()
    ensures MoveForward(InstructionPosition(0, 0, 0)) == Ok(InstructionPosition(0, 0, 1))
    ensures MoveBy(GoToNextRow, InstructionPosition(0, 0, 1)) == Ok(InstructionPosition(0, 1, 0))
    ensures MoveForward(InstructionPosition(0, 1, 0)) == Ok(InstructionPosition(0, 1, 1))
    ensures MoveBy(GoToNextPage, InstructionPosition(0, 1, 1)) == Ok(InstructionPosition(1, 0, 0))
    ensures MoveForward(InstructionPosition(1, 0, 0)) == Ok(InstructionPosition(1, 0, 1))
    ensures MoveBy(ThreeStepsForward, InstructionPosition(1, 0, 1)) == Ok(InstructionPosition(1, 0, 4))
    ensures MoveForward(InstructionPosition(1, 0, 4)) == Ok(InstructionPosition(1, 0, 5))
    ensures MoveBy(OneStepForward, InstructionPosition(1, 0, 5)) == Ok(InstructionPosition(1, 0, 6))
    ensures MoveForward(InstructionPosition(1, 0, 6)) == Ok(InstructionPosition(1, 0, 7))
  {
    PositionOfFlat(InstructionPosition(0, 0, 1));
    PositionOfFlat(InstructionPosition(0, 1, 1));
    PositionOfFlat(InstructionPosition(1, 0, 1));
    PositionOfFlat(InstructionPosition(1, 0, 4));
    PositionOfFlat(InstructionPosition(1, 0, 5));
    PositionOfFlat(InstructionPosition(1, 0, 6));
    PositionOfFlat(InstructionPosition(1, 0, 7));
  }

  /** The second half of the loop: from MoveD on the second page to the end of the text. */
  lemma CommandsRunTail(t: seq<Entry>, s: string, p2: seq<Instruction>)
    requires TopLevel(t) && |s| == 15 && |p2| == ProgramSize
    requires TokenIn(t, s, 7) == Scan(Ok(Some(Decoded(SimpleIns(Ids.MoveD)))), 9)
    requires TokenIn(t, s, 9) == Scan(Ok(Some(Directive(ThreeStepsForward))), 10)
    requires TokenIn(t, s, 10) == Scan(Ok(Some(Decoded(SimpleIns(Ids.MoveF)))), 12)
    requires TokenIn(t, s, 12) == Scan(Ok(Some(Directive(OneStepForward))), 13)
    requires TokenIn(t, s, 13) == Scan(Ok(Some(Decoded(SimpleIns(Ids.MoveS)))), 15)
    ensures RunIn(t, s, 7, InstructionPosition(1, 0, 0), p2) == Outcome(Ok(()), 15, InstructionPosition(1, 0, 7),
      p2[192 := SimpleIns(Ids.MoveD)][196 := SimpleIns(Ids.MoveF)][198 := SimpleIns(Ids.MoveS)])
  {
    CommandMoves();
    var p3 := p2[192 := SimpleIns(Ids.MoveD)];
    var p4 := p3[196 := SimpleIns(Ids.MoveF)];
    var p5 := p4[198 := SimpleIns(Ids.MoveS)];
    RunWrites(t, s, 7, InstructionPosition(1, 0, 0), p2, SimpleIns(Ids.MoveD), 9, InstructionPosition(1, 0, 1));
    RunMoves(t, s, 9, InstructionPosition(1, 0, 1), p3, ThreeStepsForward, 10, InstructionPosition(1, 0, 4));
    RunWrites(t, s, 10, InstructionPosition(1, 0, 4), p3, SimpleIns(Ids.MoveF), 12, InstructionPosition(1, 0, 5));
    RunMoves(t, s, 12, InstructionPosition(1, 0, 5), p4, OneStepForward, 13, InstructionPosition(1, 0, 6));
    RunWrites(t, s, 13, InstructionPosition(1, 0, 6), p4, SimpleIns(Ids.MoveS), 15, InstructionPosition(1, 0, 7));
    RunEnds(t, s, InstructionPosition(1, 0, 7), p5);
  }

  /** The loop of `deserialize` over the tokens of the example, one step after another. */
  lemma CommandsRun(t: seq<Entry>, s: string)
    requires TopLevel(t) && |s| == 15
    requires TokenIn(t, s, 1) == Scan(Ok(Some(Decoded(SimpleIns(Ids.MoveW)))), 3)
    requires TokenIn(t, s, 3) == Scan(Ok(Some(Directive(GoToNextRow))), 4)
    requires TokenIn(t, s, 4) == Scan(Ok(Some(Decoded(SimpleIns(Ids.MoveA)))), 6)
    requires TokenIn(t, s, 6) == Scan(Ok(Some(Directive(GoToNextPage))), 7)
    requires TokenIn(t, s, 7) == Scan(Ok(Some(Decoded(SimpleIns(Ids.MoveD)))), 9)
    requires TokenIn(t, s, 9) == Scan(Ok(Some(Directive(ThreeStepsForward))), 10)
    requires TokenIn(t, s, 10) == Scan(Ok(Some(Decoded(SimpleIns(Ids.MoveF)))), 12)
    requires TokenIn(t, s, 12) == Scan(Ok(Some(Directive(OneStepForward))), 13)
    requires TokenIn(t, s, 13) == Scan(Ok(Some(Decoded(SimpleIns(Ids.MoveS)))), 15)
    ensures RunIn(t, s, 1, DefaultPosition, EmptyProgram()) == Outcome(Ok(()), 15, InstructionPosition(1, 0, 7),
      EmptyProgram()[0 := SimpleIns(Ids.MoveW)][16 := SimpleIns(Ids.MoveA)][192 := SimpleIns(Ids.MoveD)]
        [196 := SimpleIns(Ids.MoveF)][198 := SimpleIns(Ids.MoveS)])
  {
    CommandMoves();
    var p0 := EmptyProgram();
    var p1 := p0[0 := SimpleIns(Ids.MoveW)];
    var p2 := p1[16 := SimpleIns(Ids.MoveA)];
    RunWrites(t, s, 1, InstructionPosition(0, 0, 0), p0, SimpleIns(Ids.MoveW), 3, InstructionPosition(0, 0, 1));
    RunMoves(t, s, 3, InstructionPosition(0, 0, 1), p1, GoToNextRow, 4, InstructionPosition(0, 1, 0));
    RunWrites(t, s, 4, InstructionPosition(0, 1, 0), p1, SimpleIns(Ids.MoveA), 6, InstructionPosition(0, 1, 1));
    RunMoves(t, s, 6, InstructionPosition(0, 1, 1), p2, GoToNextPage, 7, InstructionPosition(1, 0, 0));
    CommandsRunTail(t, s, p2);
  }

  const Commands := "$^W\n^A~^D_^F ^S"

  /** The path of each move through the trie, read off its template. */
  lemma PathMoveW()
    ensures Kind(Ids.MoveW) == Simple && WalkText(Root, ['^', 'W'], 0) == Some(Id(Ids.MoveW))
  {
    TemplatePaths.TemplateMoveW();
    TokenRoundTrip.SimpleWalk([Text("^W")], Id(Ids.MoveW));
  }

  lemma PathMoveA()
    ensures Kind(Ids.MoveA) == Simple && WalkText(Root, ['^', 'A'], 0) == Some(Id(Ids.MoveA))
  {
    TemplatePaths.TemplateMoveA();
    TokenRoundTrip.SimpleWalk([Text("^A")], Id(Ids.MoveA));
  }

  lemma PathMoveD()
    ensures Kind(Ids.MoveD) == Simple && WalkText(Root, ['^', 'D'], 0) == Some(Id(Ids.MoveD))
  {
    TemplatePaths.TemplateMoveD();
    TokenRoundTrip.SimpleWalk([Text("^D")], Id(Ids.MoveD));
  }

  lemma PathMoveF()
    ensures Kind(Ids.MoveF) == Simple && WalkText(Root, ['^', 'F'], 0) == Some(Id(Ids.MoveF))
  {
    TemplatePaths.TemplateMoveF();
    TokenRoundTrip.SimpleWalk([Text("^F")], Id(Ids.MoveF));
  }

  lemma PathMoveS()
    ensures Kind(Ids.MoveS) == Simple && WalkText(Root, ['^', 'S'], 0) == Some(Id(Ids.MoveS))
  {
    TemplatePaths.TemplateMoveS();
    TokenRoundTrip.SimpleWalk([Text("^S")], Id(Ids.MoveS));
  }

  /** The moves of the example, as `parse_next` reads them, one lemma per move. */
  lemma CommandsMoveW(s: string)
    requires |s| == 15 && s[1] == '^' && s[2] == 'W'
    ensures TokenAt(s, 1) == Scan(Ok(Some(Decoded(SimpleIns(Ids.MoveW)))), 3)
  {
    PathMoveW();
    CaretToken(s, 1, 'W', Ids.MoveW);
  }

  lemma CommandsMoveA(s: string)
    requires |s| == 15 && s[4] == '^' && s[5] == 'A'
    ensures TokenAt(s, 4) == Scan(Ok(Some(Decoded(SimpleIns(Ids.MoveA)))), 6)
  {
    PathMoveA();
    CaretToken(s, 4, 'A', Ids.MoveA);
  }

  lemma CommandsMoveD(s: string)
    requires |s| == 15 && s[7] == '^' && s[8] == 'D'
    ensures TokenAt(s, 7) == Scan(Ok(Some(Decoded(SimpleIns(Ids.MoveD)))), 9)
  {
    PathMoveD();
    CaretToken(s, 7, 'D', Ids.MoveD);
  }

  lemma CommandsMoveF(s: string)
    requires |s| == 15 && s[10] == '^' && s[11] == 'F'
    ensures TokenAt(s, 10) == Scan(Ok(Some(Decoded(SimpleIns(Ids.MoveF)))), 12)
  {
    PathMoveF();
    CaretToken(s, 10, 'F', Ids.MoveF);
  }

  lemma CommandsMoveS(s: string)
    requires |s| == 15 && s[13] == '^' && s[14] == 'S'
    ensures TokenAt(s, 13) == Scan(Ok(Some(Decoded(SimpleIns(Ids.MoveS)))), 15)
  {
    PathMoveS();
    CaretToken(s, 13, 'S', Ids.MoveS);
  }

  /** The directives of the example, as `parse_next` reads them. */
  lemma CommandsDirectives(s: string)
    requires |s| == 15 && s[3] == '\n' && s[6] == '~' && s[9] == '_' && s[12] == ' '
    ensures TokenAt(s, 3) == Scan(Ok(Some(Directive(GoToNextRow))), 4)
    ensures TokenAt(s, 6) == Scan(Ok(Some(Directive(GoToNextPage))), 7)
    ensures TokenAt(s, 9) == Scan(Ok(Some(Directive(ThreeStepsForward))), 10)
    ensures TokenAt(s, 12) == Scan(Ok(Some(Directive(OneStepForward))), 13)
  {
    NtfShape.Ntf2iDirectives();
    DirectiveToken(s, 3, 0, GoToNextRow);
    DirectiveToken(s, 6, 43, GoToNextPage);
    DirectiveToken(s, 9, 29, ThreeStepsForward);
    DirectiveToken(s, 12, 1, OneStepForward);
  }

  /**
   * The commands fixture (tests/common/mod.rs:29-30, tests/common/internal.rs:147-161): MoveW at
   * (0,0,0); a line break moves to (0,1,0) for MoveA; `~` to the next page, (1,0,0), for MoveD;
   * `_` three slots on to (1,0,4) for MoveF; a blank one slot on to (1,0,6) for MoveS. No other
   * slot is written and decoding ends without error.
   */
  lemma CommandsDecode(prog: seq<Instruction>)
    requires |prog| == ProgramSize
    ensures Decode(Commands, prog) == Outcome(Ok(()), 15, InstructionPosition(1, 0, 7),
      EmptyProgram()[Flat(InstructionPosition(0, 0, 0)) := SimpleIns(Ids.MoveW)]
        [Flat(InstructionPosition(0, 1, 0)) := SimpleIns(Ids.MoveA)]
        [Flat(InstructionPosition(1, 0, 0)) := SimpleIns(Ids.MoveD)]
        [Flat(InstructionPosition(1, 0, 4)) := SimpleIns(Ids.MoveF)]
        [Flat(InstructionPosition(1, 0, 6)) := SimpleIns(Ids.MoveS)])
  {
    var s := Commands;
    assert |s| == 15 && s[0] == '$' && s[1] == '^' && s[2] == 'W' && s[3] == '\n' && s[4] == '^' && s[5] == 'A';
    assert s[6] == '~' && s[7] == '^' && s[8] == 'D' && s[9] == '_' && s[10] == '^' && s[11] == 'F';
    assert s[12] == ' ' && s[13] == '^' && s[14] == 'S';
    CommandsMoveW(s);
    CommandsMoveA(s);
    CommandsMoveD(s);
    CommandsMoveF(s);
    CommandsMoveS(s);
    CommandsDirectives(s);
    NtfShape.Ntf2iEntries();
    CommandsRun(NTF2I, s);
  }
}
