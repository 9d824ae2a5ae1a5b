/**
 * Each template of `I2NTF` (src/serialization/native/new/data.rs:21-227) followed through the
 * trie `NTF2I` (data.rs:230-1202), one lemma per identifier.
 *
 * The walk is proved step by step: every step names the index of the table entry holding the
 * next character, and `StepRoot`/`StepText` turn the index into the lookup's result. The one
 * template with no path, `RotateCw`'s `^CW;`, is taken in its corrected spelling `CW;` here and
 * stated as written at the end of the module.
 */
module TemplatePaths {
  import opened Wrappers
  import opened Literals
  import opened NtfData
  import opened NtfTemplates
  import NtfShape
  import Ids = InstructionIds

  lemma TemplateEmpty()
    ensures EntryOk(I2ntfPart0[0])
  {
    assert I2ntfPart0[0] == (Ids.Empty, [Text(" ")]);
    StepRoot(" ", 1);
    assert NTF2I[1] == Ntf2iFirstHalf[1];
  }

  lemma TemplateBack()
    ensures EntryOk(I2ntfPart0[1])
  {
    assert I2ntfPart0[1] == (Ids.Back, [Text(",")]);
    StepRoot(",", 5);
    assert NTF2I[5] == Ntf2iFirstHalf[5];
  }

  lemma TemplateStart()
    ensures EntryOk(I2ntfPart0[2])
  {
    assert I2ntfPart0[2] == (Ids.Start, [Text("#S")]);
    StepRoot("#S", 3);
    assert NTF2I[3] == Ntf2iFirstHalf[3];
    var n0 := AfterHash;
    StepText(n0, [], "#S", 1, 2);
  }

  lemma TemplateEnd()
    ensures EntryOk(I2ntfPart0[3])
  {
    assert I2ntfPart0[3] == (Ids.End, [Text("#E")]);
    StepRoot("#E", 3);
    assert NTF2I[3] == Ntf2iFirstHalf[3];
    var n0 := AfterHash;
    StepText(n0, [], "#E", 1, 0);
  }

  lemma TemplateMoveW()
    ensures EntryOk(I2ntfPart0[4])
  {
    assert I2ntfPart0[4] == (Ids.MoveW, [Text("^W")]);
    StepRoot("^W", 28);
    assert NTF2I[28] == Ntf2iSecondHalf[6];
    var n0 := AfterCaret;
    StepText(n0, [], "^W", 1, 4);
  }

  lemma TemplateMoveA()
    ensures EntryOk(I2ntfPart0[5])
  {
    assert I2ntfPart0[5] == (Ids.MoveA, [Text("^A")]);
    StepRoot("^A", 28);
    assert NTF2I[28] == Ntf2iSecondHalf[6];
    var n0 := AfterCaret;
    StepText(n0, [], "^A", 1, 0);
  }

  lemma TemplateMoveS()
    ensures EntryOk(I2ntfPart0[6])
  {
    assert I2ntfPart0[6] == (Ids.MoveS, [Text("^S")]);
    StepRoot("^S", 28);
    assert NTF2I[28] == Ntf2iSecondHalf[6];
    var n0 := AfterCaret;
    StepText(n0, [], "^S", 1, 3);
  }

  lemma TemplateMoveD()
    ensures EntryOk(I2ntfPart0[7])
  {
    assert I2ntfPart0[7] == (Ids.MoveD, [Text("^D")]);
    StepRoot("^D", 28);
    assert NTF2I[28] == Ntf2iSecondHalf[6];
    var n0 := AfterCaret;
    StepText(n0, [], "^D", 1, 1);
  }

  lemma TemplateDigg()
    ensures EntryOk(I2ntfPart0[8])
  {
    assert I2ntfPart0[8] == (Ids.Digg, [Text("z")]);
    StepRoot("z", 40);
    assert NTF2I[40] == Ntf2iSecondHalf[18];
  }

  lemma TemplateLookW()
    ensures EntryOk(I2ntfPart0[9])
  {
    assert I2ntfPart0[9] == (Ids.LookW, [Text("w")]);
    StepRoot("w", 39);
    assert NTF2I[39] == Ntf2iSecondHalf[17];
  }

  lemma TemplateLookA()
    ensures EntryOk(I2ntfPart0[10])
  {
    assert I2ntfPart0[10] == (Ids.LookA, [Text("a")]);
    StepRoot("a", 30);
    assert NTF2I[30] == Ntf2iSecondHalf[8];
  }

  lemma TemplateLookS()
    ensures EntryOk(I2ntfPart0[11])
  {
    assert I2ntfPart0[11] == (Ids.LookS, [Text("s")]);
    StepRoot("s", 38);
    assert NTF2I[38] == Ntf2iSecondHalf[16];
  }

  lemma TemplateLookD()
    ensures EntryOk(I2ntfPart0[12])
  {
    assert I2ntfPart0[12] == (Ids.LookD, [Text("d")]);
    StepRoot("d", 32);
    assert NTF2I[32] == Ntf2iSecondHalf[10];
  }

  lemma TemplateMoveF()
    ensures EntryOk(I2ntfPart0[13])
  {
    assert I2ntfPart0[13] == (Ids.MoveF, [Text("^F")]);
    StepRoot("^F", 28);
    assert NTF2I[28] == Ntf2iSecondHalf[6];
    var n0 := AfterCaret;
    StepText(n0, [], "^F", 1, 2);
  }

  lemma PathRotateCcw()
    ensures WalkText(AfterUpperC, "CCW;", 1) == Some(Id(Ids.RotateCcw))
  {
    NtfShape.WellFormedAfterUpperC();
    var n0 := AfterUpperC;
    StepText(n0, [], "CCW;", 1, 1);
    var n1 := n0.table[1].node;
    StepText(n1, [], "CCW;", 2, 0);
    var n2 := n1.table[0].node;
    StepText(n2, [], "CCW;", 3, 0);
  }

  lemma TemplateRotateCcw()
    ensures EntryOk(I2ntfPart0[14])
  {
    assert I2ntfPart0[14] == (Ids.RotateCcw, [Text("CCW;")]);
    StepRoot("CCW;", 14);
    assert NTF2I[14] == Ntf2iFirstHalf[14];
    PathRotateCcw();
  }

  lemma PathRotateCw()
    ensures WalkText(AfterUpperC, "CW;", 1) == Some(Id(Ids.RotateCw))
  {
    NtfShape.WellFormedAfterUpperC();
    var n0 := AfterUpperC;
    StepText(n0, [], "CW;", 1, 3);
    var n1 := n0.table[3].node;
    StepText(n1, [], "CW;", 2, 0);
  }

  lemma TemplateRotateCw()
    ensures EntryOk(I2ntfPart0Corrected[15])
  {
    assert I2ntfPart0Corrected[15] == (Ids.RotateCw, [Text("CW;")]);
    StepRoot("CW;", 14);
    assert NTF2I[14] == Ntf2iFirstHalf[14];
    PathRotateCw();
  }

  lemma TemplateActionBuild()
    ensures EntryOk(I2ntfPart0[16])
  {
    assert I2ntfPart0[16] == (Ids.ActionBuild, [Text("b")]);
    StepRoot("b", 31);
    assert NTF2I[31] == Ntf2iSecondHalf[9];
  }

  lemma TemplateActionGeo()
    ensures EntryOk(I2ntfPart0[17])
  {
    assert I2ntfPart0[17] == (Ids.ActionGeo, [Text("g")]);
    StepRoot("g", 33);
    assert NTF2I[33] == Ntf2iSecondHalf[11];
  }

  lemma TemplateActionRoad()
    ensures EntryOk(I2ntfPart0[18])
  {
    assert I2ntfPart0[18] == (Ids.ActionRoad, [Text("r")]);
    StepRoot("r", 37);
    assert NTF2I[37] == Ntf2iSecondHalf[15];
  }

  lemma TemplateActionHeal()
    ensures EntryOk(I2ntfPart0[19])
  {
    assert I2ntfPart0[19] == (Ids.ActionHeal, [Text("h")]);
    StepRoot("h", 34);
    assert NTF2I[34] == Ntf2iSecondHalf[12];
  }

  lemma TemplateActionQuadro()
    ensures EntryOk(I2ntfPart0[20])
  {
    assert I2ntfPart0[20] == (Ids.ActionQuadro, [Text("q")]);
    StepRoot("q", 36);
    assert NTF2I[36] == Ntf2iSecondHalf[14];
  }

  lemma PathActionRandom()
    ensures WalkText(AfterUpperR, "RAND;", 1) == Some(Id(Ids.ActionRandom))
  {
    NtfShape.WellFormedAfterUpperR();
    var n0 := AfterUpperR;
    StepText(n0, [], "RAND;", 1, 0);
    var n1 := n0.table[0].node;
    StepText(n1, [], "RAND;", 2, 0);
    var n2 := n1.table[0].node;
    StepText(n2, [], "RAND;", 3, 0);
    var n3 := n2.table[0].node;
    StepText(n3, [], "RAND;", 4, 0);
  }

  lemma TemplateActionRandom()
    ensures EntryOk(I2ntfPart0[21])
  {
    assert I2ntfPart0[21] == (Ids.ActionRandom, [Text("RAND;")]);
    StepRoot("RAND;", 23);
    assert NTF2I[23] == Ntf2iSecondHalf[1];
    PathActionRandom();
  }

  lemma PathActionBibika()
    ensures WalkText(AfterUpperB, "BEEP;", 1) == Some(Id(Ids.ActionBibika))
  {
    NtfShape.WellFormedAfterUpperB();
    var n0 := AfterUpperB;
    StepText(n0, [], "BEEP;", 1, 3);
    var n1 := n0.table[3].node;
    StepText(n1, [], "BEEP;", 2, 0);
    var n2 := n1.table[0].node;
    StepText(n2, [], "BEEP;", 3, 0);
    var n3 := n2.table[0].node;
    StepText(n3, [], "BEEP;", 4, 0);
  }

  lemma TemplateActionBibika()
    ensures EntryOk(I2ntfPart1[0])
  {
    assert I2ntfPart1[0] == (Ids.ActionBibika, [Text("BEEP;")]);
    StepRoot("BEEP;", 13);
    assert NTF2I[13] == Ntf2iFirstHalf[13];
    PathActionBibika();
  }

  lemma TemplateGoTo()
    ensures EntryOk(I2ntfPart1[1])
  {
    assert I2ntfPart1[1] == (Ids.GoTo, [Text(">"), Placeholder(LabelIdentifierLiteral), Text("|")]);
    StepRoot(">", 10);
    assert NTF2I[10] == Ntf2iFirstHalf[10];
    var n0 := AfterGreater;
    var n1 := n0.next[0];
    StepText(n1, [] + [LabelIdentifierLiteral], "|", 0, 0);
  }

  lemma TemplateGoSub()
    ensures EntryOk(I2ntfPart1[2])
  {
    assert I2ntfPart1[2] == (Ids.GoSub, [Text(":>"), Placeholder(LabelIdentifierLiteral), Text(">")]);
    StepRoot(":>", 7);
    assert NTF2I[7] == Ntf2iFirstHalf[7];
    var n0 := AfterColon;
    StepText(n0, [], ":>", 1, 0);
    var n1 := n0.table[0].node;
    var n2 := n1.next[0];
    StepText(n2, [] + [LabelIdentifierLiteral], ">", 0, 0);
  }

  lemma TemplateGoSub1()
    ensures EntryOk(I2ntfPart1[3])
  {
    assert I2ntfPart1[3] == (Ids.GoSub1, [Text("->"), Placeholder(LabelIdentifierLiteral), Text(">")]);
    StepRoot("->", 6);
    assert NTF2I[6] == Ntf2iFirstHalf[6];
    var n0 := AfterMinus;
    StepText(n0, [], "->", 1, 0);
    var n1 := n0.table[0].node;
    var n2 := n1.next[0];
    StepText(n2, [] + [LabelIdentifierLiteral], ">", 0, 0);
  }

  lemma TemplateReturn()
    ensures EntryOk(I2ntfPart1[4])
  {
    assert I2ntfPart1[4] == (Ids.Return, [Text("<|")]);
    StepRoot("<|", 8);
    assert NTF2I[8] == Ntf2iFirstHalf[8];
    var n0 := AfterLess;
    StepText(n0, [], "<|", 1, 2);
  }

  lemma PathReturn1()
    ensures WalkText(AfterLess, "<-|", 1) == Some(Id(Ids.Return1))
  {
    NtfShape.WellFormedAfterLess();
    var n0 := AfterLess;
    StepText(n0, [], "<-|", 1, 0);
    var n1 := n0.table[0].node;
    StepText(n1, [], "<-|", 2, 0);
  }

  lemma TemplateReturn1()
    ensures EntryOk(I2ntfPart1[5])
  {
    assert I2ntfPart1[5] == (Ids.Return1, [Text("<-|")]);
    StepRoot("<-|", 8);
    assert NTF2I[8] == Ntf2iFirstHalf[8];
    PathReturn1();
  }

  lemma PathCellWa()
    ensures WalkText(AfterBracket, "[WA]", 1) == Some(Id(Ids.CellWa))
  {
    NtfShape.WellFormedAfterBracket();
    var n0 := AfterBracket;
    StepText(n0, [], "[WA]", 1, 4);
    var n1 := n0.table[4].node;
    StepText(n1, [], "[WA]", 2, 0);
    var n2 := n1.table[0].node;
    StepText(n2, [], "[WA]", 3, 0);
  }

  lemma TemplateCellWa()
    ensures EntryOk(I2ntfPart1[6])
  {
    assert I2ntfPart1[6] == (Ids.CellWa, [Text("[WA]")]);
    StepRoot("[WA]", 27);
    assert NTF2I[27] == Ntf2iSecondHalf[5];
    PathCellWa();
  }

  lemma PathCellSd()
    ensures WalkText(AfterBracket, "[SD]", 1) == Some(Id(Ids.CellSd))
  {
    NtfShape.WellFormedAfterBracket();
    var n0 := AfterBracket;
    StepText(n0, [], "[SD]", 1, 3);
    var n1 := n0.table[3].node;
    StepText(n1, [], "[SD]", 2, 0);
    var n2 := n1.table[0].node;
    StepText(n2, [], "[SD]", 3, 0);
  }

  lemma TemplateCellSd()
    ensures EntryOk(I2ntfPart1[7])
  {
    assert I2ntfPart1[7] == (Ids.CellSd, [Text("[SD]")]);
    StepRoot("[SD]", 27);
    assert NTF2I[27] == Ntf2iSecondHalf[5];
    PathCellSd();
  }

  lemma PathCellW()
    ensures WalkText(AfterBracket, "[W]", 1) == Some(Id(Ids.CellW))
  {
    NtfShape.WellFormedAfterBracket();
    var n0 := AfterBracket;
    StepText(n0, [], "[W]", 1, 4);
    var n1 := n0.table[4].node;
    StepText(n1, [], "[W]", 2, 1);
  }

  lemma TemplateCellW()
    ensures EntryOk(I2ntfPart1[8])
  {
    assert I2ntfPart1[8] == (Ids.CellW, [Text("[W]")]);
    StepRoot("[W]", 27);
    assert NTF2I[27] == Ntf2iSecondHalf[5];
    PathCellW();
  }

  lemma PathCellDw()
    ensures WalkText(AfterBracket, "[DW]", 1) == Some(Id(Ids.CellDw))
  {
    NtfShape.WellFormedAfterBracket();
    var n0 := AfterBracket;
    StepText(n0, [], "[DW]", 1, 1);
    var n1 := n0.table[1].node;
    StepText(n1, [], "[DW]", 2, 0);
    var n2 := n1.table[0].node;
    StepText(n2, [], "[DW]", 3, 0);
  }

  lemma TemplateCellDw()
    ensures EntryOk(I2ntfPart1[9])
  {
    assert I2ntfPart1[9] == (Ids.CellDw, [Text("[DW]")]);
    StepRoot("[DW]", 27);
    assert NTF2I[27] == Ntf2iSecondHalf[5];
    PathCellDw();
  }

  lemma PathCellA()
    ensures WalkText(AfterBracket, "[A]", 1) == Some(Id(Ids.CellA))
  {
    NtfShape.WellFormedAfterBracket();
    var n0 := AfterBracket;
    StepText(n0, [], "[A]", 1, 0);
    var n1 := n0.table[0].node;
    StepText(n1, [], "[A]", 2, 1);
  }

  lemma TemplateCellA()
    ensures EntryOk(I2ntfPart1[10])
  {
    assert I2ntfPart1[10] == (Ids.CellA, [Text("[A]")]);
    StepRoot("[A]", 27);
    assert NTF2I[27] == Ntf2iSecondHalf[5];
    PathCellA();
  }

  lemma PathCellD()
    ensures WalkText(AfterBracket, "[D]", 1) == Some(Id(Ids.CellD))
  {
    NtfShape.WellFormedAfterBracket();
    var n0 := AfterBracket;
    StepText(n0, [], "[D]", 1, 1);
    var n1 := n0.table[1].node;
    StepText(n1, [], "[D]", 2, 1);
  }

  lemma TemplateCellD()
    ensures EntryOk(I2ntfPart1[11])
  {
    assert I2ntfPart1[11] == (Ids.CellD, [Text("[D]")]);
    StepRoot("[D]", 27);
    assert NTF2I[27] == Ntf2iSecondHalf[5];
    PathCellD();
  }

  lemma PathCellAs()
    ensures WalkText(AfterBracket, "[AS]", 1) == Some(Id(Ids.CellAs))
  {
    NtfShape.WellFormedAfterBracket();
    var n0 := AfterBracket;
    StepText(n0, [], "[AS]", 1, 0);
    var n1 := n0.table[0].node;
    StepText(n1, [], "[AS]", 2, 0);
    var n2 := n1.table[0].node;
    StepText(n2, [], "[AS]", 3, 0);
  }

  lemma TemplateCellAs()
    ensures EntryOk(I2ntfPart1[12])
  {
    assert I2ntfPart1[12] == (Ids.CellAs, [Text("[AS]")]);
    StepRoot("[AS]", 27);
    assert NTF2I[27] == Ntf2iSecondHalf[5];
    PathCellAs();
  }

  lemma PathCellS()
    ensures WalkText(AfterBracket, "[S]", 1) == Some(Id(Ids.CellS))
  {
    NtfShape.WellFormedAfterBracket();
    var n0 := AfterBracket;
    StepText(n0, [], "[S]", 1, 3);
    var n1 := n0.table[3].node;
    StepText(n1, [], "[S]", 2, 1);
  }

  lemma TemplateCellS()
    ensures EntryOk(I2ntfPart1[13])
  {
    assert I2ntfPart1[13] == (Ids.CellS, [Text("[S]")]);
    StepRoot("[S]", 27);
    assert NTF2I[27] == Ntf2iSecondHalf[5];
    PathCellS();
  }

  lemma TemplateBoolModeOr()
    ensures EntryOk(I2ntfPart1[14])
  {
    assert I2ntfPart1[14] == (Ids.BoolModeOr, [Text("OR")]);
    StepRoot("OR", 21);
    assert NTF2I[21] == Ntf2iFirstHalf[21];
    var n0 := AfterUpperO;
    StepText(n0, [], "OR", 1, 0);
  }

  lemma PathBoolModeAnd()
    ensures WalkText(AfterUpperA, "AND", 1) == Some(Id(Ids.BoolModeAnd))
  {
    NtfShape.WellFormedAfterUpperA();
    var n0 := AfterUpperA;
    StepText(n0, [], "AND", 1, 1);
    var n1 := n0.table[1].node;
    StepText(n1, [], "AND", 2, 0);
  }

  lemma TemplateBoolModeAnd()
    ensures EntryOk(I2ntfPart1[15])
  {
    assert I2ntfPart1[15] == (Ids.BoolModeAnd, [Text("AND")]);
    StepRoot("AND", 12);
    assert NTF2I[12] == Ntf2iFirstHalf[12];
    PathBoolModeAnd();
  }

  lemma TemplateLabel()
    ensures EntryOk(I2ntfPart1[16])
  {
    assert I2ntfPart1[16] == (Ids.Label, [Text("|"), Placeholder(LabelIdentifierLiteral), Text(":")]);
    StepRoot("|", 42);
    assert NTF2I[42] == Ntf2iSecondHalf[20];
    var n0 := AfterBar;
    var n1 := n0.next[0];
    StepText(n1, [] + [LabelIdentifierLiteral], ":", 0, 0);
  }

  lemma TemplateCcNotEmpty()
    ensures EntryOk(I2ntfPart1[17])
  {
    assert I2ntfPart1[17] == (Ids.CcNotEmpty, [Text("=n")]);
    StepRoot("=n", 9);
    assert NTF2I[9] == Ntf2iFirstHalf[9];
    var n0 := AfterEquals;
    StepText(n0, [], "=n", 1, 15);
  }

  lemma TemplateCcEmpty()
    ensures EntryOk(I2ntfPart1[18])
  {
    assert I2ntfPart1[18] == (Ids.CcEmpty, [Text("=e")]);
    StepRoot("=e", 9);
    assert NTF2I[9] == Ntf2iFirstHalf[9];
    var n0 := AfterEquals;
    StepText(n0, [], "=e", 1, 10);
  }

  lemma TemplateCcGravity()
    ensures EntryOk(I2ntfPart1[19])
  {
    assert I2ntfPart1[19] == (Ids.CcGravity, [Text("=f")]);
    StepRoot("=f", 9);
    assert NTF2I[9] == Ntf2iFirstHalf[9];
    var n0 := AfterEquals;
    StepText(n0, [], "=f", 1, 11);
  }

  lemma TemplateCcCrystall()
    ensures EntryOk(I2ntfPart1[20])
  {
    assert I2ntfPart1[20] == (Ids.CcCrystall, [Text("=c")]);
    StepRoot("=c", 9);
    assert NTF2I[9] == Ntf2iFirstHalf[9];
    var n0 := AfterEquals;
    StepText(n0, [], "=c", 1, 8);
  }

  lemma TemplateCcAlive()
    ensures EntryOk(I2ntfPart1[21])
  {
    assert I2ntfPart1[21] == (Ids.CcAlive, [Text("=a")]);
    StepRoot("=a", 9);
    assert NTF2I[9] == Ntf2iFirstHalf[9];
    var n0 := AfterEquals;
    StepText(n0, [], "=a", 1, 6);
  }

  lemma TemplateCcBolder()
    ensures EntryOk(I2ntfPart2[0])
  {
    assert I2ntfPart2[0] == (Ids.CcBolder, [Text("=b")]);
    StepRoot("=b", 9);
    assert NTF2I[9] == Ntf2iFirstHalf[9];
    var n0 := AfterEquals;
    StepText(n0, [], "=b", 1, 7);
  }

  lemma TemplateCcSand()
    ensures EntryOk(I2ntfPart2[1])
  {
    assert I2ntfPart2[1] == (Ids.CcSand, [Text("=s")]);
    StepRoot("=s", 9);
    assert NTF2I[9] == Ntf2iFirstHalf[9];
    var n0 := AfterEquals;
    StepText(n0, [], "=s", 1, 19);
  }

  lemma TemplateCcRock()
    ensures EntryOk(I2ntfPart2[2])
  {
    assert I2ntfPart2[2] == (Ids.CcRock, [Text("=k")]);
    StepRoot("=k", 9);
    assert NTF2I[9] == Ntf2iFirstHalf[9];
    var n0 := AfterEquals;
    StepText(n0, [], "=k", 1, 14);
  }

  lemma TemplateCcDead()
    ensures EntryOk(I2ntfPart2[3])
  {
    assert I2ntfPart2[3] == (Ids.CcDead, [Text("=d")]);
    StepRoot("=d", 9);
    assert NTF2I[9] == Ntf2iFirstHalf[9];
    var n0 := AfterEquals;
    StepText(n0, [], "=d", 1, 9);
  }

  lemma TemplateCccRedRock()
    ensures EntryOk(I2ntfPart2[4])
  {
    assert I2ntfPart2[4] == (Ids.CccRedRock, [Text("=K")]);
    StepRoot("=K", 9);
    assert NTF2I[9] == Ntf2iFirstHalf[9];
    var n0 := AfterEquals;
    StepText(n0, [], "=K", 1, 4);
  }

  lemma TemplateCccBlackRock()
    ensures EntryOk(I2ntfPart2[5])
  {
    assert I2ntfPart2[5] == (Ids.CccBlackRock, [Text("=B")]);
    StepRoot("=B", 9);
    assert NTF2I[9] == Ntf2iFirstHalf[9];
    var n0 := AfterEquals;
    StepText(n0, [], "=B", 1, 2);
  }

  lemma TemplateCcAcid()
    ensures EntryOk(I2ntfPart2[6])
  {
    assert I2ntfPart2[6] == (Ids.CcAcid, [Text("=A")]);
    StepRoot("=A", 9);
    assert NTF2I[9] == Ntf2iFirstHalf[9];
    var n0 := AfterEquals;
    StepText(n0, [], "=A", 1, 1);
  }

  lemma TemplateCccQuadro()
    ensures EntryOk(I2ntfPart2[7])
  {
    assert I2ntfPart2[7] == (Ids.CccQuadro, [Text("=q")]);
    StepRoot("=q", 9);
    assert NTF2I[9] == Ntf2iFirstHalf[9];
    var n0 := AfterEquals;
    StepText(n0, [], "=q", 1, 17);
  }

  lemma TemplateCccRoad()
    ensures EntryOk(I2ntfPart2[8])
  {
    assert I2ntfPart2[8] == (Ids.CccRoad, [Text("=R")]);
    StepRoot("=R", 9);
    assert NTF2I[9] == Ntf2iFirstHalf[9];
    var n0 := AfterEquals;
    StepText(n0, [], "=R", 1, 5);
  }

  lemma TemplateCccRedBlock()
    ensures EntryOk(I2ntfPart2[9])
  {
    assert I2ntfPart2[9] == (Ids.CccRedBlock, [Text("=r")]);
    StepRoot("=r", 9);
    assert NTF2I[9] == Ntf2iFirstHalf[9];
    var n0 := AfterEquals;
    StepText(n0, [], "=r", 1, 18);
  }

  lemma TemplateCccYellowBlock()
    ensures EntryOk(I2ntfPart2[10])
  {
    assert I2ntfPart2[10] == (Ids.CccYellowBlock, [Text("=y")]);
    StepRoot("=y", 9);
    assert NTF2I[9] == Ntf2iFirstHalf[9];
    var n0 := AfterEquals;
    StepText(n0, [], "=y", 1, 21);
  }

  lemma TemplateCccBox()
    ensures EntryOk(I2ntfPart2[11])
  {
    assert I2ntfPart2[11] == (Ids.CccBox, [Text("=x")]);
    StepRoot("=x", 9);
    assert NTF2I[9] == Ntf2iFirstHalf[9];
    var n0 := AfterEquals;
    StepText(n0, [], "=x", 1, 20);
  }

  lemma TemplateCccOpor()
    ensures EntryOk(I2ntfPart2[12])
  {
    assert I2ntfPart2[12] == (Ids.CccOpor, [Text("=o")]);
    StepRoot("=o", 9);
    assert NTF2I[9] == Ntf2iFirstHalf[9];
    var n0 := AfterEquals;
    StepText(n0, [], "=o", 1, 16);
  }

  lemma TemplateCccGreenBlock()
    ensures EntryOk(I2ntfPart2[13])
  {
    assert I2ntfPart2[13] == (Ids.CccGreenBlock, [Text("=g")]);
    StepRoot("=g", 9);
    assert NTF2I[9] == Ntf2iFirstHalf[9];
    var n0 := AfterEquals;
    StepText(n0, [], "=g", 1, 12);
  }

  lemma TemplateVarMore()
    ensures EntryOk(I2ntfPart2[14])
  {
    assert I2ntfPart2[14] == (Ids.VarMore, [Text("("), Placeholder(VariableIdentifierLiteral), Text(">"), Placeholder(VariableValueLiteral), Text(")")]);
    StepRoot("(", 4);
    assert NTF2I[4] == Ntf2iFirstHalf[4];
    var n0 := AfterParen;
    var n1 := n0.next[0];
    StepText(n1, [] + [VariableIdentifierLiteral], ">", 0, 2);
    var n2 := n1.table[2].node;
    var n3 := n2.next[0];
    StepText(n3, [] + [VariableIdentifierLiteral] + [VariableValueLiteral], ")", 0, 0);
  }

  lemma TemplateVarLess()
    ensures EntryOk(I2ntfPart2[15])
  {
    assert I2ntfPart2[15] == (Ids.VarLess, [Text("("), Placeholder(VariableIdentifierLiteral), Text("<"), Placeholder(VariableValueLiteral), Text(")")]);
    StepRoot("(", 4);
    assert NTF2I[4] == Ntf2iFirstHalf[4];
    var n0 := AfterParen;
    var n1 := n0.next[0];
    StepText(n1, [] + [VariableIdentifierLiteral], "<", 0, 0);
    var n2 := n1.table[0].node;
    var n3 := n2.next[0];
    StepText(n3, [] + [VariableIdentifierLiteral] + [VariableValueLiteral], ")", 0, 0);
  }

  lemma TemplateVarEqual()
    ensures EntryOk(I2ntfPart2[16])
  {
    assert I2ntfPart2[16] == (Ids.VarEqual, [Text("("), Placeholder(VariableIdentifierLiteral), Text("="), Placeholder(VariableValueLiteral), Text(")")]);
    StepRoot("(", 4);
    assert NTF2I[4] == Ntf2iFirstHalf[4];
    var n0 := AfterParen;
    var n1 := n0.next[0];
    StepText(n1, [] + [VariableIdentifierLiteral], "=", 0, 1);
    var n2 := n1.table[1].node;
    var n3 := n2.next[0];
    StepText(n3, [] + [VariableIdentifierLiteral] + [VariableValueLiteral], ")", 0, 0);
  }

  lemma PathCellWw()
    ensures WalkText(AfterBracket, "[w]", 1) == Some(Id(Ids.CellWw))
  {
    NtfShape.WellFormedAfterBracket();
    var n0 := AfterBracket;
    StepText(n0, [], "[w]", 1, 11);
    var n1 := n0.table[11].node;
    StepText(n1, [], "[w]", 2, 0);
  }

  lemma TemplateCellWw()
    ensures EntryOk(I2ntfPart2[17])
  {
    assert I2ntfPart2[17] == (Ids.CellWw, [Text("[w]")]);
    StepRoot("[w]", 27);
    assert NTF2I[27] == Ntf2iSecondHalf[5];
    PathCellWw();
  }

  lemma PathCellAa()
    ensures WalkText(AfterBracket, "[a]", 1) == Some(Id(Ids.CellAa))
  {
    NtfShape.WellFormedAfterBracket();
    var n0 := AfterBracket;
    StepText(n0, [], "[a]", 1, 5);
    var n1 := n0.table[5].node;
    StepText(n1, [], "[a]", 2, 0);
  }

  lemma TemplateCellAa()
    ensures EntryOk(I2ntfPart2[18])
  {
    assert I2ntfPart2[18] == (Ids.CellAa, [Text("[a]")]);
    StepRoot("[a]", 27);
    assert NTF2I[27] == Ntf2iSecondHalf[5];
    PathCellAa();
  }

  lemma PathCellSs()
    ensures WalkText(AfterBracket, "[s]", 1) == Some(Id(Ids.CellSs))
  {
    NtfShape.WellFormedAfterBracket();
    var n0 := AfterBracket;
    StepText(n0, [], "[s]", 1, 10);
    var n1 := n0.table[10].node;
    StepText(n1, [], "[s]", 2, 0);
  }

  lemma TemplateCellSs()
    ensures EntryOk(I2ntfPart2[19])
  {
    assert I2ntfPart2[19] == (Ids.CellSs, [Text("[s]")]);
    StepRoot("[s]", 27);
    assert NTF2I[27] == Ntf2iSecondHalf[5];
    PathCellSs();
  }

  lemma PathCellDd()
    ensures WalkText(AfterBracket, "[d]", 1) == Some(Id(Ids.CellDd))
  {
    NtfShape.WellFormedAfterBracket();
    var n0 := AfterBracket;
    StepText(n0, [], "[d]", 1, 6);
    var n1 := n0.table[6].node;
    StepText(n1, [], "[d]", 2, 0);
  }

  lemma TemplateCellDd()
    ensures EntryOk(I2ntfPart2[20])
  {
    assert I2ntfPart2[20] == (Ids.CellDd, [Text("[d]")]);
    StepRoot("[d]", 27);
    assert NTF2I[27] == Ntf2iSecondHalf[5];
    PathCellDd();
  }

  lemma PathCellF()
    ensures WalkText(AfterBracket, "[F]", 1) == Some(Id(Ids.CellF))
  {
    NtfShape.WellFormedAfterBracket();
    var n0 := AfterBracket;
    StepText(n0, [], "[F]", 1, 2);
    var n1 := n0.table[2].node;
    StepText(n1, [], "[F]", 2, 0);
  }

  lemma TemplateCellF()
    ensures EntryOk(I2ntfPart2[21])
  {
    assert I2ntfPart2[21] == (Ids.CellF, [Text("[F]")]);
    StepRoot("[F]", 27);
    assert NTF2I[27] == Ntf2iSecondHalf[5];
    PathCellF();
  }

  lemma PathCellFf()
    ensures WalkText(AfterBracket, "[f]", 1) == Some(Id(Ids.CellFf))
  {
    NtfShape.WellFormedAfterBracket();
    var n0 := AfterBracket;
    StepText(n0, [], "[f]", 1, 7);
    var n1 := n0.table[7].node;
    StepText(n1, [], "[f]", 2, 0);
  }

  lemma TemplateCellFf()
    ensures EntryOk(I2ntfPart3[0])
  {
    assert I2ntfPart3[0] == (Ids.CellFf, [Text("[f]")]);
    StepRoot("[f]", 27);
    assert NTF2I[27] == Ntf2iSecondHalf[5];
    PathCellFf();
  }

  lemma TemplateGoSubF()
    ensures EntryOk(I2ntfPart3[1])
  {
    assert I2ntfPart3[1] == (Ids.GoSubF, [Text("=>"), Placeholder(LabelIdentifierLiteral), Text(">")]);
    StepRoot("=>", 9);
    assert NTF2I[9] == Ntf2iFirstHalf[9];
    var n0 := AfterEquals;
    StepText(n0, [], "=>", 1, 0);
    var n1 := n0.table[0].node;
    var n2 := n1.next[0];
    StepText(n2, [] + [LabelIdentifierLiteral], ">", 0, 0);
  }

  lemma PathReturnF()
    ensures WalkText(AfterLess, "<=|", 1) == Some(Id(Ids.ReturnF))
  {
    NtfShape.WellFormedAfterLess();
    var n0 := AfterLess;
    StepText(n0, [], "<=|", 1, 1);
    var n1 := n0.table[1].node;
    StepText(n1, [], "<=|", 2, 0);
  }

  lemma TemplateReturnF()
    ensures EntryOk(I2ntfPart3[2])
  {
    assert I2ntfPart3[2] == (Ids.ReturnF, [Text("<=|")]);
    StepRoot("<=|", 8);
    assert NTF2I[8] == Ntf2iFirstHalf[8];
    PathReturnF();
  }

  lemma TemplateIfNotGoTo()
    ensures EntryOk(I2ntfPart3[3])
  {
    assert I2ntfPart3[3] == (Ids.IfNotGoTo, [Text("?"), Placeholder(LabelIdentifierLiteral), Text("<")]);
    StepRoot("?", 11);
    assert NTF2I[11] == Ntf2iFirstHalf[11];
    var n0 := AfterQuestion;
    var n1 := n0.next[0];
    StepText(n1, [] + [LabelIdentifierLiteral], "<", 0, 0);
  }

  lemma TemplateIfGoTo()
    ensures EntryOk(I2ntfPart3[4])
  {
    assert I2ntfPart3[4] == (Ids.IfGoTo, [Text("!?"), Placeholder(LabelIdentifierLiteral), Text("<")]);
    StepRoot("!?", 2);
    assert NTF2I[2] == Ntf2iFirstHalf[2];
    var n0 := AfterBang;
    StepText(n0, [], "!?", 1, 0);
    var n1 := n0.table[0].node;
    var n2 := n1.next[0];
    StepText(n2, [] + [LabelIdentifierLiteral], "<", 0, 0);
  }

  lemma PathStdDigg()
    ensures WalkText(AfterUpperD, "DIGG;", 1) == Some(Id(Ids.StdDigg))
  {
    NtfShape.WellFormedAfterUpperD();
    var n0 := AfterUpperD;
    StepText(n0, [], "DIGG;", 1, 0);
    var n1 := n0.table[0].node;
    StepText(n1, [], "DIGG;", 2, 0);
    var n2 := n1.table[0].node;
    StepText(n2, [], "DIGG;", 3, 0);
    var n3 := n2.table[0].node;
    StepText(n3, [], "DIGG;", 4, 0);
  }

  lemma TemplateStdDigg()
    ensures EntryOk(I2ntfPart3[5])
  {
    assert I2ntfPart3[5] == (Ids.StdDigg, [Text("DIGG;")]);
    StepRoot("DIGG;", 15);
    assert NTF2I[15] == Ntf2iFirstHalf[15];
    PathStdDigg();
  }

  lemma PathStdBuild()
    ensures WalkText(AfterUpperB, "BUILD;", 1) == Some(Id(Ids.StdBuild))
  {
    NtfShape.WellFormedAfterUpperB();
    var n0 := AfterUpperB;
    StepText(n0, [], "BUILD;", 1, 4);
    var n1 := n0.table[4].node;
    StepText(n1, [], "BUILD;", 2, 0);
    var n2 := n1.table[0].node;
    StepText(n2, [], "BUILD;", 3, 0);
    var n3 := n2.table[0].node;
    StepText(n3, [], "BUILD;", 4, 0);
    var n4 := n3.table[0].node;
    StepText(n4, [], "BUILD;", 5, 0);
  }

  lemma TemplateStdBuild()
    ensures EntryOk(I2ntfPart3[6])
  {
    assert I2ntfPart3[6] == (Ids.StdBuild, [Text("BUILD;")]);
    StepRoot("BUILD;", 13);
    assert NTF2I[13] == Ntf2iFirstHalf[13];
    PathStdBuild();
  }

  lemma PathStdHeal()
    ensures WalkText(AfterUpperH, "HEAL;", 1) == Some(Id(Ids.StdHeal))
  {
    NtfShape.WellFormedAfterUpperH();
    var n0 := AfterUpperH;
    StepText(n0, [], "HEAL;", 1, 0);
    var n1 := n0.table[0].node;
    StepText(n1, [], "HEAL;", 2, 0);
    var n2 := n1.table[0].node;
    StepText(n2, [], "HEAL;", 3, 0);
    var n3 := n2.table[0].node;
    StepText(n3, [], "HEAL;", 4, 0);
  }

  lemma TemplateStdHeal()
    ensures EntryOk(I2ntfPart3[7])
  {
    assert I2ntfPart3[7] == (Ids.StdHeal, [Text("HEAL;")]);
    StepRoot("HEAL;", 18);
    assert NTF2I[18] == Ntf2iFirstHalf[18];
    PathStdHeal();
  }

  lemma PathProgFlip()
    ensures WalkText(AfterUpperF, "FLIP;", 1) == Some(Id(Ids.ProgFlip))
  {
    NtfShape.WellFormedAfterUpperF();
    var n0 := AfterUpperF;
    StepText(n0, [], "FLIP;", 1, 1);
    var n1 := n0.table[1].node;
    StepText(n1, [], "FLIP;", 2, 0);
    var n2 := n1.table[0].node;
    StepText(n2, [], "FLIP;", 3, 0);
    var n3 := n2.table[0].node;
    StepText(n3, [], "FLIP;", 4, 0);
  }

  lemma TemplateProgFlip()
    ensures EntryOk(I2ntfPart3[8])
  {
    assert I2ntfPart3[8] == (Ids.ProgFlip, [Text("FLIP;")]);
    StepRoot("FLIP;", 16);
    assert NTF2I[16] == Ntf2iFirstHalf[16];
    PathProgFlip();
  }

  lemma PathStdMine()
    ensures WalkText(AfterUpperM, "MINE;", 1) == Some(Id(Ids.StdMine))
  {
    NtfShape.WellFormedAfterUpperM();
    var n0 := AfterUpperM;
    StepText(n0, [], "MINE;", 1, 0);
    var n1 := n0.table[0].node;
    StepText(n1, [], "MINE;", 2, 0);
    var n2 := n1.table[0].node;
    StepText(n2, [], "MINE;", 3, 0);
    var n3 := n2.table[0].node;
    StepText(n3, [], "MINE;", 4, 0);
  }

  lemma TemplateStdMine()
    ensures EntryOk(I2ntfPart3[9])
  {
    assert I2ntfPart3[9] == (Ids.StdMine, [Text("MINE;")]);
    StepRoot("MINE;", 19);
    assert NTF2I[19] == Ntf2iFirstHalf[19];
    PathStdMine();
  }

  lemma TemplateCcGun()
    ensures EntryOk(I2ntfPart3[10])
  {
    assert I2ntfPart3[10] == (Ids.CcGun, [Text("=G")]);
    StepRoot("=G", 9);
    assert NTF2I[9] == Ntf2iFirstHalf[9];
    var n0 := AfterEquals;
    StepText(n0, [], "=G", 1, 3);
  }

  lemma PathFillGun()
    ensures WalkText(AfterUpperF, "FILL;", 1) == Some(Id(Ids.FillGun))
  {
    NtfShape.WellFormedAfterUpperF();
    var n0 := AfterUpperF;
    StepText(n0, [], "FILL;", 1, 0);
    var n1 := n0.table[0].node;
    StepText(n1, [], "FILL;", 2, 0);
    var n2 := n1.table[0].node;
    StepText(n2, [], "FILL;", 3, 0);
    var n3 := n2.table[0].node;
    StepText(n3, [], "FILL;", 4, 0);
  }

  lemma TemplateFillGun()
    ensures EntryOk(I2ntfPart3[11])
  {
    assert I2ntfPart3[11] == (Ids.FillGun, [Text("FILL;")]);
    StepRoot("FILL;", 16);
    assert NTF2I[16] == Ntf2iFirstHalf[16];
    PathFillGun();
  }

  lemma PathCbHp()
    ensures WalkText(AfterEquals, "=hp-", 1) == Some(Id(Ids.CbHp))
  {
    NtfShape.WellFormedAfterEquals();
    var n0 := AfterEquals;
    StepText(n0, [], "=hp-", 1, 13);
    var n1 := n0.table[13].node;
    StepText(n1, [], "=hp-", 2, 0);
    var n2 := n1.table[0].node;
    StepText(n2, [], "=hp-", 3, 0);
  }

  lemma TemplateCbHp()
    ensures EntryOk(I2ntfPart3[12])
  {
    assert I2ntfPart3[12] == (Ids.CbHp, [Text("=hp-")]);
    StepRoot("=hp-", 9);
    assert NTF2I[9] == Ntf2iFirstHalf[9];
    PathCbHp();
  }

  lemma PathCbHp50()
    ensures WalkText(AfterEquals, "=hp50", 1) == Some(Id(Ids.CbHp50))
  {
    NtfShape.WellFormedAfterEquals();
    var n0 := AfterEquals;
    StepText(n0, [], "=hp50", 1, 13);
    var n1 := n0.table[13].node;
    StepText(n1, [], "=hp50", 2, 0);
    var n2 := n1.table[0].node;
    StepText(n2, [], "=hp50", 3, 1);
    var n3 := n2.table[1].node;
    StepText(n3, [], "=hp50", 4, 0);
  }

  lemma TemplateCbHp50()
    ensures EntryOk(I2ntfPart3[13])
  {
    assert I2ntfPart3[13] == (Ids.CbHp50, [Text("=hp50")]);
    StepRoot("=hp50", 9);
    assert NTF2I[9] == Ntf2iFirstHalf[9];
    PathCbHp50();
  }

  lemma PathCellRightHand()
    ensures WalkText(AfterBracket, "[r]", 1) == Some(Id(Ids.CellRightHand))
  {
    NtfShape.WellFormedAfterBracket();
    var n0 := AfterBracket;
    StepText(n0, [], "[r]", 1, 9);
    var n1 := n0.table[9].node;
    StepText(n1, [], "[r]", 2, 0);
  }

  lemma TemplateCellRightHand()
    ensures EntryOk(I2ntfPart3[14])
  {
    assert I2ntfPart3[14] == (Ids.CellRightHand, [Text("[r]")]);
    StepRoot("[r]", 27);
    assert NTF2I[27] == Ntf2iSecondHalf[5];
    PathCellRightHand();
  }

  lemma PathCellLeftHand()
    ensures WalkText(AfterBracket, "[l]", 1) == Some(Id(Ids.CellLeftHand))
  {
    NtfShape.WellFormedAfterBracket();
    var n0 := AfterBracket;
    StepText(n0, [], "[l]", 1, 8);
    var n1 := n0.table[8].node;
    StepText(n1, [], "[l]", 2, 0);
  }

  lemma TemplateCellLeftHand()
    ensures EntryOk(I2ntfPart3[15])
  {
    assert I2ntfPart3[15] == (Ids.CellLeftHand, [Text("[l]")]);
    StepRoot("[l]", 27);
    assert NTF2I[27] == Ntf2iSecondHalf[5];
    PathCellLeftHand();
  }

  lemma PathModeAutodiggOn()
    ensures WalkText(AfterUpperA, "AUT+", 1) == Some(Id(Ids.ModeAutodiggOn))
  {
    NtfShape.WellFormedAfterUpperA();
    var n0 := AfterUpperA;
    StepText(n0, [], "AUT+", 1, 2);
    var n1 := n0.table[2].node;
    StepText(n1, [], "AUT+", 2, 0);
    var n2 := n1.table[0].node;
    StepText(n2, [], "AUT+", 3, 0);
  }

  lemma TemplateModeAutodiggOn()
    ensures EntryOk(I2ntfPart3[16])
  {
    assert I2ntfPart3[16] == (Ids.ModeAutodiggOn, [Text("AUT+")]);
    StepRoot("AUT+", 12);
    assert NTF2I[12] == Ntf2iFirstHalf[12];
    PathModeAutodiggOn();
  }

  lemma PathModeAutodiggOff()
    ensures WalkText(AfterUpperA, "AUT-", 1) == Some(Id(Ids.ModeAutodiggOff))
  {
    NtfShape.WellFormedAfterUpperA();
    var n0 := AfterUpperA;
    StepText(n0, [], "AUT-", 1, 2);
    var n1 := n0.table[2].node;
    StepText(n1, [], "AUT-", 2, 0);
    var n2 := n1.table[0].node;
    StepText(n2, [], "AUT-", 3, 1);
  }

  lemma TemplateModeAutodiggOff()
    ensures EntryOk(I2ntfPart3[17])
  {
    assert I2ntfPart3[17] == (Ids.ModeAutodiggOff, [Text("AUT-")]);
    StepRoot("AUT-", 12);
    assert NTF2I[12] == Ntf2iFirstHalf[12];
    PathModeAutodiggOff();
  }

  lemma PathModeAgrOn()
    ensures WalkText(AfterUpperA, "AGR+", 1) == Some(Id(Ids.ModeAgrOn))
  {
    NtfShape.WellFormedAfterUpperA();
    var n0 := AfterUpperA;
    StepText(n0, [], "AGR+", 1, 0);
    var n1 := n0.table[0].node;
    StepText(n1, [], "AGR+", 2, 0);
    var n2 := n1.table[0].node;
    StepText(n2, [], "AGR+", 3, 0);
  }

  lemma TemplateModeAgrOn()
    ensures EntryOk(I2ntfPart3[18])
  {
    assert I2ntfPart3[18] == (Ids.ModeAgrOn, [Text("AGR+")]);
    StepRoot("AGR+", 12);
    assert NTF2I[12] == Ntf2iFirstHalf[12];
    PathModeAgrOn();
  }

  lemma PathModeAgrOff()
    ensures WalkText(AfterUpperA, "AGR-", 1) == Some(Id(Ids.ModeAgrOff))
  {
    NtfShape.WellFormedAfterUpperA();
    var n0 := AfterUpperA;
    StepText(n0, [], "AGR-", 1, 0);
    var n1 := n0.table[0].node;
    StepText(n1, [], "AGR-", 2, 0);
    var n2 := n1.table[0].node;
    StepText(n2, [], "AGR-", 3, 1);
  }

  lemma TemplateModeAgrOff()
    ensures EntryOk(I2ntfPart3[19])
  {
    assert I2ntfPart3[19] == (Ids.ModeAgrOff, [Text("AGR-")]);
    StepRoot("AGR-", 12);
    assert NTF2I[12] == Ntf2iFirstHalf[12];
    PathModeAgrOff();
  }

  lemma PathActionB1()
    ensures WalkText(AfterUpperB, "B1;", 1) == Some(Id(Ids.ActionB1))
  {
    NtfShape.WellFormedAfterUpperB();
    var n0 := AfterUpperB;
    StepText(n0, [], "B1;", 1, 0);
    var n1 := n0.table[0].node;
    StepText(n1, [], "B1;", 2, 0);
  }

  lemma TemplateActionB1()
    ensures EntryOk(I2ntfPart3[20])
  {
    assert I2ntfPart3[20] == (Ids.ActionB1, [Text("B1;")]);
    StepRoot("B1;", 13);
    assert NTF2I[13] == Ntf2iFirstHalf[13];
    PathActionB1();
  }

  lemma PathActionB3()
    ensures WalkText(AfterUpperB, "B2;", 1) == Some(Id(Ids.ActionB3))
  {
    NtfShape.WellFormedAfterUpperB();
    var n0 := AfterUpperB;
    StepText(n0, [], "B2;", 1, 1);
    var n1 := n0.table[1].node;
    StepText(n1, [], "B2;", 2, 0);
  }

  lemma TemplateActionB3()
    ensures EntryOk(I2ntfPart3[21])
  {
    assert I2ntfPart3[21] == (Ids.ActionB3, [Text("B2;")]);
    StepRoot("B2;", 13);
    assert NTF2I[13] == Ntf2iFirstHalf[13];
    PathActionB3();
  }

  lemma PathActionB2()
    ensures WalkText(AfterUpperB, "B3;", 1) == Some(Id(Ids.ActionB2))
  {
    NtfShape.WellFormedAfterUpperB();
    var n0 := AfterUpperB;
    StepText(n0, [], "B3;", 1, 2);
    var n1 := n0.table[2].node;
    StepText(n1, [], "B3;", 2, 0);
  }

  lemma TemplateActionB2()
    ensures EntryOk(I2ntfPart4[0])
  {
    assert I2ntfPart4[0] == (Ids.ActionB2, [Text("B3;")]);
    StepRoot("B3;", 13);
    assert NTF2I[13] == Ntf2iFirstHalf[13];
    PathActionB2();
  }

  lemma PathActionWb()
    ensures WalkText(AfterUpperV, "VB;", 1) == Some(Id(Ids.ActionWb))
  {
    NtfShape.WellFormedAfterUpperV();
    var n0 := AfterUpperV;
    StepText(n0, [], "VB;", 1, 0);
    var n1 := n0.table[0].node;
    StepText(n1, [], "VB;", 2, 0);
  }

  lemma TemplateActionWb()
    ensures EntryOk(I2ntfPart4[1])
  {
    assert I2ntfPart4[1] == (Ids.ActionWb, [Text("VB;")]);
    StepRoot("VB;", 25);
    assert NTF2I[25] == Ntf2iSecondHalf[3];
    PathActionWb();
  }

  lemma TemplateOnResp()
    ensures EntryOk(I2ntfPart4[2])
  {
    assert I2ntfPart4[2] == (Ids.OnResp, [Text("#R"), Placeholder(LabelIdentifierLiteral), Text("<")]);
    StepRoot("#R", 3);
    assert NTF2I[3] == Ntf2iFirstHalf[3];
    var n0 := AfterHash;
    StepText(n0, [], "#R", 1, 1);
    var n1 := n0.table[1].node;
    var n2 := n1.next[0];
    StepText(n2, [] + [LabelIdentifierLiteral], "<", 0, 0);
  }

  lemma PathActionGeopack()
    ensures WalkText(AfterUpperG, "GEO;", 1) == Some(Id(Ids.ActionGeopack))
  {
    NtfShape.WellFormedAfterUpperG();
    var n0 := AfterUpperG;
    StepText(n0, [], "GEO;", 1, 0);
    var n1 := n0.table[0].node;
    StepText(n1, [], "GEO;", 2, 0);
    var n2 := n1.table[0].node;
    StepText(n2, [], "GEO;", 3, 0);
  }

  lemma TemplateActionGeopack()
    ensures EntryOk(I2ntfPart4[3])
  {
    assert I2ntfPart4[3] == (Ids.ActionGeopack, [Text("GEO;")]);
    StepRoot("GEO;", 17);
    assert NTF2I[17] == Ntf2iFirstHalf[17];
    PathActionGeopack();
  }

  lemma PathActionZm()
    ensures WalkText(AfterUpperZ, "ZZ;", 1) == Some(Id(Ids.ActionZm))
  {
    NtfShape.WellFormedAfterUpperZ();
    var n0 := AfterUpperZ;
    StepText(n0, [], "ZZ;", 1, 0);
    var n1 := n0.table[0].node;
    StepText(n1, [], "ZZ;", 2, 0);
  }

  lemma TemplateActionZm()
    ensures EntryOk(I2ntfPart4[4])
  {
    assert I2ntfPart4[4] == (Ids.ActionZm, [Text("ZZ;")]);
    StepRoot("ZZ;", 26);
    assert NTF2I[26] == Ntf2iSecondHalf[4];
    PathActionZm();
  }

  lemma PathActionC190()
    ensures WalkText(AfterUpperC, "C190;", 1) == Some(Id(Ids.ActionC190))
  {
    NtfShape.WellFormedAfterUpperC();
    var n0 := AfterUpperC;
    StepText(n0, [], "C190;", 1, 0);
    var n1 := n0.table[0].node;
    StepText(n1, [], "C190;", 2, 0);
    var n2 := n1.table[0].node;
    StepText(n2, [], "C190;", 3, 0);
    var n3 := n2.table[0].node;
    StepText(n3, [], "C190;", 4, 0);
  }

  lemma TemplateActionC190()
    ensures EntryOk(I2ntfPart4[5])
  {
    assert I2ntfPart4[5] == (Ids.ActionC190, [Text("C190;")]);
    StepRoot("C190;", 14);
    assert NTF2I[14] == Ntf2iFirstHalf[14];
    PathActionC190();
  }

  lemma PathActionPoly()
    ensures WalkText(AfterUpperP, "POLY;", 1) == Some(Id(Ids.ActionPoly))
  {
    NtfShape.WellFormedAfterUpperP();
    var n0 := AfterUpperP;
    StepText(n0, [], "POLY;", 1, 0);
    var n1 := n0.table[0].node;
    StepText(n1, [], "POLY;", 2, 0);
    var n2 := n1.table[0].node;
    StepText(n2, [], "POLY;", 3, 0);
    var n3 := n2.table[0].node;
    StepText(n3, [], "POLY;", 4, 0);
  }

  lemma TemplateActionPoly()
    ensures EntryOk(I2ntfPart4[6])
  {
    assert I2ntfPart4[6] == (Ids.ActionPoly, [Text("POLY;")]);
    StepRoot("POLY;", 22);
    assert NTF2I[22] == Ntf2iSecondHalf[0];
    PathActionPoly();
  }

  lemma PathActionUp()
    ensures WalkText(AfterUpperU, "UP;", 1) == Some(Id(Ids.ActionUp))
  {
    NtfShape.WellFormedAfterUpperU();
    var n0 := AfterUpperU;
    StepText(n0, [], "UP;", 1, 0);
    var n1 := n0.table[0].node;
    StepText(n1, [], "UP;", 2, 0);
  }

  lemma TemplateActionUp()
    ensures EntryOk(I2ntfPart4[7])
  {
    assert I2ntfPart4[7] == (Ids.ActionUp, [Text("UP;")]);
    StepRoot("UP;", 24);
    assert NTF2I[24] == Ntf2iSecondHalf[2];
    PathActionUp();
  }

  lemma PathActionCraft()
    ensures WalkText(AfterUpperC, "CRAFT;", 1) == Some(Id(Ids.ActionCraft))
  {
    NtfShape.WellFormedAfterUpperC();
    var n0 := AfterUpperC;
    StepText(n0, [], "CRAFT;", 1, 2);
    var n1 := n0.table[2].node;
    StepText(n1, [], "CRAFT;", 2, 0);
    var n2 := n1.table[0].node;
    StepText(n2, [], "CRAFT;", 3, 0);
    var n3 := n2.table[0].node;
    StepText(n3, [], "CRAFT;", 4, 0);
    var n4 := n3.table[0].node;
    StepText(n4, [], "CRAFT;", 5, 0);
  }

  lemma TemplateActionCraft()
    ensures EntryOk(I2ntfPart4[8])
  {
    assert I2ntfPart4[8] == (Ids.ActionCraft, [Text("CRAFT;")]);
    StepRoot("CRAFT;", 14);
    assert NTF2I[14] == Ntf2iFirstHalf[14];
    PathActionCraft();
  }

  lemma PathActionNano()
    ensures WalkText(AfterUpperN, "NANO;", 1) == Some(Id(Ids.ActionNano))
  {
    NtfShape.WellFormedAfterUpperN();
    var n0 := AfterUpperN;
    StepText(n0, [], "NANO;", 1, 0);
    var n1 := n0.table[0].node;
    StepText(n1, [], "NANO;", 2, 0);
    var n2 := n1.table[0].node;
    StepText(n2, [], "NANO;", 3, 0);
    var n3 := n2.table[0].node;
    StepText(n3, [], "NANO;", 4, 0);
  }

  lemma TemplateActionNano()
    ensures EntryOk(I2ntfPart4[9])
  {
    assert I2ntfPart4[9] == (Ids.ActionNano, [Text("NANO;")]);
    StepRoot("NANO;", 20);
    assert NTF2I[20] == Ntf2iFirstHalf[20];
    PathActionNano();
  }

  lemma PathActionRembot()
    ensures WalkText(AfterUpperR, "REM;", 1) == Some(Id(Ids.ActionRembot))
  {
    NtfShape.WellFormedAfterUpperR();
    var n0 := AfterUpperR;
    StepText(n0, [], "REM;", 1, 1);
    var n1 := n0.table[1].node;
    StepText(n1, [], "REM;", 2, 0);
    var n2 := n1.table[0].node;
    StepText(n2, [], "REM;", 3, 0);
  }

  lemma TemplateActionRembot()
    ensures EntryOk(I2ntfPart4[10])
  {
    assert I2ntfPart4[10] == (Ids.ActionRembot, [Text("REM;")]);
    StepRoot("REM;", 23);
    assert NTF2I[23] == Ntf2iSecondHalf[1];
    PathActionRembot();
  }

  lemma TemplateInvDirW()
    ensures EntryOk(I2ntfPart4[11])
  {
    assert I2ntfPart4[11] == (Ids.InvDirW, [Text("iw")]);
    StepRoot("iw", 35);
    assert NTF2I[35] == Ntf2iSecondHalf[13];
    var n0 := AfterLowerI;
    StepText(n0, [], "iw", 1, 3);
  }

  lemma TemplateInvDirA()
    ensures EntryOk(I2ntfPart4[12])
  {
    assert I2ntfPart4[12] == (Ids.InvDirA, [Text("ia")]);
    StepRoot("ia", 35);
    assert NTF2I[35] == Ntf2iSecondHalf[13];
    var n0 := AfterLowerI;
    StepText(n0, [], "ia", 1, 0);
  }

  lemma TemplateInvDirS()
    ensures EntryOk(I2ntfPart4[13])
  {
    assert I2ntfPart4[13] == (Ids.InvDirS, [Text("is")]);
    StepRoot("is", 35);
    assert NTF2I[35] == Ntf2iSecondHalf[13];
    var n0 := AfterLowerI;
    StepText(n0, [], "is", 1, 2);
  }

  lemma TemplateInvDirD()
    ensures EntryOk(I2ntfPart4[14])
  {
    assert I2ntfPart4[14] == (Ids.InvDirD, [Text("id")]);
    StepRoot("id", 35);
    assert NTF2I[35] == Ntf2iSecondHalf[13];
    var n0 := AfterLowerI;
    StepText(n0, [], "id", 1, 1);
  }

  lemma PathHandModeOn()
    ensures WalkText(AfterUpperH, "Hand+", 1) == Some(Id(Ids.HandModeOn))
  {
    NtfShape.WellFormedAfterUpperH();
    var n0 := AfterUpperH;
    StepText(n0, [], "Hand+", 1, 1);
    var n1 := n0.table[1].node;
    StepText(n1, [], "Hand+", 2, 0);
    var n2 := n1.table[0].node;
    StepText(n2, [], "Hand+", 3, 0);
    var n3 := n2.table[0].node;
    StepText(n3, [], "Hand+", 4, 0);
  }

  lemma TemplateHandModeOn()
    ensures EntryOk(I2ntfPart4[15])
  {
    assert I2ntfPart4[15] == (Ids.HandModeOn, [Text("Hand+")]);
    StepRoot("Hand+", 18);
    assert NTF2I[18] == Ntf2iFirstHalf[18];
    PathHandModeOn();
  }

  lemma PathHandModeOff()
    ensures WalkText(AfterUpperH, "Hand-", 1) == Some(Id(Ids.HandModeOff))
  {
    NtfShape.WellFormedAfterUpperH();
    var n0 := AfterUpperH;
    StepText(n0, [], "Hand-", 1, 1);
    var n1 := n0.table[1].node;
    StepText(n1, [], "Hand-", 2, 0);
    var n2 := n1.table[0].node;
    StepText(n2, [], "Hand-", 3, 0);
    var n3 := n2.table[0].node;
    StepText(n3, [], "Hand-", 4, 1);
  }

  lemma TemplateHandModeOff()
    ensures EntryOk(I2ntfPart4[16])
  {
    assert I2ntfPart4[16] == (Ids.HandModeOff, [Text("Hand-")]);
    StepRoot("Hand-", 18);
    assert NTF2I[18] == Ntf2iFirstHalf[18];
    PathHandModeOff();
  }

  lemma TemplateDebugBreak()
    ensures EntryOk(I2ntfPart4[17])
  {
    assert I2ntfPart4[17] == (Ids.DebugBreak, [Text("!{"), Placeholder(StringLiteral), Text("}")]);
    StepRoot("!{", 2);
    assert NTF2I[2] == Ntf2iFirstHalf[2];
    var n0 := AfterBang;
    StepText(n0, [], "!{", 1, 1);
    var n1 := n0.table[1].node;
    var n2 := n1.next[0];
    StepText(n2, [] + [StringLiteral], "}", 0, 0);
  }

  lemma TemplateDebugSet()
    ensures EntryOk(I2ntfPart4[18])
  {
    assert I2ntfPart4[18] == (Ids.DebugSet, [Text("{"), Placeholder(StringLiteral), Text("}")]);
    StepRoot("{", 41);
    assert NTF2I[41] == Ntf2iSecondHalf[19];
    var n0 := AfterBrace;
    var n1 := n0.next[0];
    StepText(n1, [] + [StringLiteral], "}", 0, 0);
  }

  /** Every template of part 0 of the corrected table leads to what it stands for. */
  lemma Part0Paths()
    ensures |I2ntfPart0Corrected| == 22 && forall i | 0 <= i < |I2ntfPart0Corrected| :: EntryOk(I2ntfPart0Corrected[i])
  {
    forall i | 0 <= i < |I2ntfPart0Corrected|
      ensures EntryOk(I2ntfPart0Corrected[i])
    {
      if i == 0 {
        TemplateEmpty();
      } else if i == 1 {
        TemplateBack();
      } else if i == 2 {
        TemplateStart();
      } else if i == 3 {
        TemplateEnd();
      } else if i == 4 {
        TemplateMoveW();
      } else if i == 5 {
        TemplateMoveA();
      } else if i == 6 {
        TemplateMoveS();
      } else if i == 7 {
        TemplateMoveD();
      } else if i == 8 {
        TemplateDigg();
      } else if i == 9 {
        TemplateLookW();
      } else if i == 10 {
        TemplateLookA();
      } else if i == 11 {
        TemplateLookS();
      } else if i == 12 {
        TemplateLookD();
      } else if i == 13 {
        TemplateMoveF();
      } else if i == 14 {
        TemplateRotateCcw();
      } else if i == 15 {
        TemplateRotateCw();
      } else if i == 16 {
        TemplateActionBuild();
      } else if i == 17 {
        TemplateActionGeo();
      } else if i == 18 {
        TemplateActionRoad();
      } else if i == 19 {
        TemplateActionHeal();
      } else if i == 20 {
        TemplateActionQuadro();
      } else {
        TemplateActionRandom();
      }
    }
  }

  /** Every template of part 1 of the corrected table leads to what it stands for. */
  lemma Part1Paths()
    ensures |I2ntfPart1| == 22 && forall i | 0 <= i < |I2ntfPart1| :: EntryOk(I2ntfPart1[i])
  {
    forall i | 0 <= i < |I2ntfPart1|
      ensures EntryOk(I2ntfPart1[i])
    {
      if i == 0 {
        TemplateActionBibika();
      } else if i == 1 {
        TemplateGoTo();
      } else if i == 2 {
        TemplateGoSub();
      } else if i == 3 {
        TemplateGoSub1();
      } else if i == 4 {
        TemplateReturn();
      } else if i == 5 {
        TemplateReturn1();
      } else if i == 6 {
        TemplateCellWa();
      } else if i == 7 {
        TemplateCellSd();
      } else if i == 8 {
        TemplateCellW();
      } else if i == 9 {
        TemplateCellDw();
      } else if i == 10 {
        TemplateCellA();
      } else if i == 11 {
        TemplateCellD();
      } else if i == 12 {
        TemplateCellAs();
      } else if i == 13 {
        TemplateCellS();
      } else if i == 14 {
        TemplateBoolModeOr();
      } else if i == 15 {
        TemplateBoolModeAnd();
      } else if i == 16 {
        TemplateLabel();
      } else if i == 17 {
        TemplateCcNotEmpty();
      } else if i == 18 {
        TemplateCcEmpty();
      } else if i == 19 {
        TemplateCcGravity();
      } else if i == 20 {
        TemplateCcCrystall();
      } else {
        TemplateCcAlive();
      }
    }
  }

  /** Every template of part 2 of the corrected table leads to what it stands for. */
  lemma Part2Paths()
    ensures |I2ntfPart2| == 22 && forall i | 0 <= i < |I2ntfPart2| :: EntryOk(I2ntfPart2[i])
  {
    forall i | 0 <= i < |I2ntfPart2|
      ensures EntryOk(I2ntfPart2[i])
    {
      if i == 0 {
        TemplateCcBolder();
      } else if i == 1 {
        TemplateCcSand();
      } else if i == 2 {
        TemplateCcRock();
      } else if i == 3 {
        TemplateCcDead();
      } else if i == 4 {
        TemplateCccRedRock();
      } else if i == 5 {
        TemplateCccBlackRock();
      } else if i == 6 {
        TemplateCcAcid();
      } else if i == 7 {
        TemplateCccQuadro();
      } else if i == 8 {
        TemplateCccRoad();
      } else if i == 9 {
        TemplateCccRedBlock();
      } else if i == 10 {
        TemplateCccYellowBlock();
      } else if i == 11 {
        TemplateCccBox();
      } else if i == 12 {
        TemplateCccOpor();
      } else if i == 13 {
        TemplateCccGreenBlock();
      } else if i == 14 {
        TemplateVarMore();
      } else if i == 15 {
        TemplateVarLess();
      } else if i == 16 {
        TemplateVarEqual();
      } else if i == 17 {
        TemplateCellWw();
      } else if i == 18 {
        TemplateCellAa();
      } else if i == 19 {
        TemplateCellSs();
      } else if i == 20 {
        TemplateCellDd();
      } else {
        TemplateCellF();
      }
    }
  }

  /** Every template of part 3 of the corrected table leads to what it stands for. */
  lemma Part3Paths()
    ensures |I2ntfPart3| == 22 && forall i | 0 <= i < |I2ntfPart3| :: EntryOk(I2ntfPart3[i])
  {
    forall i | 0 <= i < |I2ntfPart3|
      ensures EntryOk(I2ntfPart3[i])
    {
      if i == 0 {
        TemplateCellFf();
      } else if i == 1 {
        TemplateGoSubF();
      } else if i == 2 {
        TemplateReturnF();
      } else if i == 3 {
        TemplateIfNotGoTo();
      } else if i == 4 {
        TemplateIfGoTo();
      } else if i == 5 {
        TemplateStdDigg();
      } else if i == 6 {
        TemplateStdBuild();
      } else if i == 7 {
        TemplateStdHeal();
      } else if i == 8 {
        TemplateProgFlip();
      } else if i == 9 {
        TemplateStdMine();
      } else if i == 10 {
        TemplateCcGun();
      } else if i == 11 {
        TemplateFillGun();
      } else if i == 12 {
        TemplateCbHp();
      } else if i == 13 {
        TemplateCbHp50();
      } else if i == 14 {
        TemplateCellRightHand();
      } else if i == 15 {
        TemplateCellLeftHand();
      } else if i == 16 {
        TemplateModeAutodiggOn();
      } else if i == 17 {
        TemplateModeAutodiggOff();
      } else if i == 18 {
        TemplateModeAgrOn();
      } else if i == 19 {
        TemplateModeAgrOff();
      } else if i == 20 {
        TemplateActionB1();
      } else {
        TemplateActionB3();
      }
    }
  }

  /** Every template of part 4 of the corrected table leads to what it stands for. */
  lemma Part4Paths()
    ensures |I2ntfPart4| == 19 && forall i | 0 <= i < |I2ntfPart4| :: EntryOk(I2ntfPart4[i])
  {
    forall i | 0 <= i < |I2ntfPart4|
      ensures EntryOk(I2ntfPart4[i])
    {
      if i == 0 {
        TemplateActionB2();
      } else if i == 1 {
        TemplateActionWb();
      } else if i == 2 {
        TemplateOnResp();
      } else if i == 3 {
        TemplateActionGeopack();
      } else if i == 4 {
        TemplateActionZm();
      } else if i == 5 {
        TemplateActionC190();
      } else if i == 6 {
        TemplateActionPoly();
      } else if i == 7 {
        TemplateActionUp();
      } else if i == 8 {
        TemplateActionCraft();
      } else if i == 9 {
        TemplateActionNano();
      } else if i == 10 {
        TemplateActionRembot();
      } else if i == 11 {
        TemplateInvDirW();
      } else if i == 12 {
        TemplateInvDirA();
      } else if i == 13 {
        TemplateInvDirS();
      } else if i == 14 {
        TemplateInvDirD();
      } else if i == 15 {
        TemplateHandModeOn();
      } else if i == 16 {
        TemplateHandModeOff();
      } else if i == 17 {
        TemplateDebugBreak();
      } else {
        TemplateDebugSet();
      }
    }
  }

  /** Every template of the corrected table leads through the trie to what it stands for. */
  lemma CorrectedTemplatesLead()
    ensures |I2NTFCorrected| == 107
    ensures forall k | 0 <= k < |I2NTFCorrected| :: EntryOk(I2NTFCorrected[k])
  {
    Part0Paths();
    Part1Paths();
    Part2Paths();
    Part3Paths();
    Part4Paths();
    var t := I2NTFCorrected;
    forall k | 0 <= k < |t|
      ensures EntryOk(t[k])
    {
      if k < 22 {
        assert t[k] == I2ntfPart0Corrected[k];
      } else if k < 44 {
        assert t[k] == I2ntfPart1[k - 22];
      } else if k < 66 {
        assert t[k] == I2ntfPart2[k - 44];
      } else if k < 88 {
        assert t[k] == I2ntfPart3[k - 66];
      } else {
        assert t[k] == I2ntfPart4[k - 88];
      }
    }
  }

  /**
   * As written, the template of `RotateCw` is `^CW;` (data.rs:38), but the `^` table holds only
   * `A`, `D`, `F`, `S` and `W` (data.rs:1127-1141): the template leaves the trie at its second
   * character. Every other entry of the table is the corrected one.
   */
  lemma RotateCwTemplateAsWritten()
    ensures I2NTF[15] == (Ids.RotateCw, [Text("^CW;")])
    ensures WalkText(Root, "^CW;", 0) == None && TemplateTarget(I2NTF[15].1) == None
    ensures !EntryOk(I2NTF[15])
    ensures |I2NTF| == |I2NTFCorrected| && forall k | 0 <= k < |I2NTF| && k != 15 :: I2NTF[k] == I2NTFCorrected[k]
  {
    assert I2NTF[15] == I2ntfPart0[15];
    StepRoot("^CW;", 28);
    assert NTF2I[28] == Ntf2iSecondHalf[6];
    FindFromFails(AfterCaret.table, 'C', 0);
    assert WalkText(AfterCaret, "^CW;", 1) == None;
    var t, c := I2NTF, I2NTFCorrected;
    forall k | 0 <= k < |t| && k != 15
      ensures t[k] == c[k]
    {
      if k < 22 {
        assert t[k] == I2ntfPart0[k] && c[k] == I2ntfPart0Corrected[k];
      }
    }
  }
}
