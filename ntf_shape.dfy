/**
 * The shape of the trie, checked entry by entry (src/serialization/native/new/data.rs:230-1202).
 *
 * The verifier unfolds the recursive table predicates only a step or two at a time, so each
 * lemma below checks one table of the trie, one entry per assertion, and relies on the lemmas
 * for the tables nested in it. Lemma names follow the path of indices from a top-level node.
 */
module NtfShape {
  import opened Wrappers
  import opened Literals
  import opened NtfData

  lemma WellFormedAfterBang_1_0()
    ensures WellFormed(AfterBang.table[1].node.next[0], [] + [StringLiteral])
  {
    assert ChildrenWellFormed(AfterBang.table[1].node.next[0], 1, [] + [StringLiteral]);
  }

  lemma WellFormedAfterBang_1()
    ensures WellFormed(AfterBang.table[1].node, [])
  {
    WellFormedAfterBang_1_0();
  }

  lemma WellFormedAfterBang_0_0()
    ensures WellFormed(AfterBang.table[0].node.next[0], [] + [LabelIdentifierLiteral])
  {
    assert ChildrenWellFormed(AfterBang.table[0].node.next[0], 1, [] + [LabelIdentifierLiteral]);
  }

  lemma WellFormedAfterBang_0()
    ensures WellFormed(AfterBang.table[0].node, [])
  {
    WellFormedAfterBang_0_0();
  }

  lemma WellFormedAfterBang()
    ensures WellFormed(AfterBang, [])
  {
    WellFormedAfterBang_1();
    WellFormedAfterBang_0();
    assert AscendingFrom(AfterBang.table, 1);
    assert ChildrenWellFormed(AfterBang, 2, []);
    assert ChildrenWellFormed(AfterBang, 1, []);
  }

  lemma WellFormedAfterHash_1_0()
    ensures WellFormed(AfterHash.table[1].node.next[0], [] + [LabelIdentifierLiteral])
  {
    assert ChildrenWellFormed(AfterHash.table[1].node.next[0], 1, [] + [LabelIdentifierLiteral]);
  }

  lemma WellFormedAfterHash_1()
    ensures WellFormed(AfterHash.table[1].node, [])
  {
    WellFormedAfterHash_1_0();
  }

  lemma WellFormedAfterHash()
    ensures WellFormed(AfterHash, [])
  {
    WellFormedAfterHash_1();
    assert AscendingFrom(AfterHash.table, 2);
    assert AscendingFrom(AfterHash.table, 1);
    assert ChildrenWellFormed(AfterHash, 3, []);
    assert ChildrenWellFormed(AfterHash, 2, []);
    assert ChildrenWellFormed(AfterHash, 1, []);
  }

  lemma WellFormedAfterParen_0_2_0()
    ensures WellFormed(AfterParen.next[0].table[2].node.next[0], [] + [VariableIdentifierLiteral] + [VariableValueLiteral])
  {
    assert ChildrenWellFormed(AfterParen.next[0].table[2].node.next[0], 1, [] + [VariableIdentifierLiteral] + [VariableValueLiteral]);
  }

  lemma WellFormedAfterParen_0_2()
    ensures WellFormed(AfterParen.next[0].table[2].node, [] + [VariableIdentifierLiteral])
  {
    WellFormedAfterParen_0_2_0();
  }

  lemma WellFormedAfterParen_0_1_0()
    ensures WellFormed(AfterParen.next[0].table[1].node.next[0], [] + [VariableIdentifierLiteral] + [VariableValueLiteral])
  {
    assert ChildrenWellFormed(AfterParen.next[0].table[1].node.next[0], 1, [] + [VariableIdentifierLiteral] + [VariableValueLiteral]);
  }

  lemma WellFormedAfterParen_0_1()
    ensures WellFormed(AfterParen.next[0].table[1].node, [] + [VariableIdentifierLiteral])
  {
    WellFormedAfterParen_0_1_0();
  }

  lemma WellFormedAfterParen_0_0_0()
    ensures WellFormed(AfterParen.next[0].table[0].node.next[0], [] + [VariableIdentifierLiteral] + [VariableValueLiteral])
  {
    assert ChildrenWellFormed(AfterParen.next[0].table[0].node.next[0], 1, [] + [VariableIdentifierLiteral] + [VariableValueLiteral]);
  }

  lemma WellFormedAfterParen_0_0()
    ensures WellFormed(AfterParen.next[0].table[0].node, [] + [VariableIdentifierLiteral])
  {
    WellFormedAfterParen_0_0_0();
  }

  lemma WellFormedAfterParen_0()
    ensures WellFormed(AfterParen.next[0], [] + [VariableIdentifierLiteral])
  {
    WellFormedAfterParen_0_2();
    WellFormedAfterParen_0_1();
    WellFormedAfterParen_0_0();
    assert AscendingFrom(AfterParen.next[0].table, 2);
    assert AscendingFrom(AfterParen.next[0].table, 1);
    assert ChildrenWellFormed(AfterParen.next[0], 3, [] + [VariableIdentifierLiteral]);
    assert ChildrenWellFormed(AfterParen.next[0], 2, [] + [VariableIdentifierLiteral]);
    assert ChildrenWellFormed(AfterParen.next[0], 1, [] + [VariableIdentifierLiteral]);
  }

  lemma WellFormedAfterParen()
    ensures WellFormed(AfterParen, [])
  {
    WellFormedAfterParen_0();
  }

  lemma WellFormedAfterMinus_0_0()
    ensures WellFormed(AfterMinus.table[0].node.next[0], [] + [LabelIdentifierLiteral])
  {
    assert ChildrenWellFormed(AfterMinus.table[0].node.next[0], 1, [] + [LabelIdentifierLiteral]);
  }

  lemma WellFormedAfterMinus_0()
    ensures WellFormed(AfterMinus.table[0].node, [])
  {
    WellFormedAfterMinus_0_0();
  }

  lemma WellFormedAfterMinus()
    ensures WellFormed(AfterMinus, [])
  {
    WellFormedAfterMinus_0();
    assert ChildrenWellFormed(AfterMinus, 1, []);
  }

  lemma WellFormedAfterColon_0_0()
    ensures WellFormed(AfterColon.table[0].node.next[0], [] + [LabelIdentifierLiteral])
  {
    assert ChildrenWellFormed(AfterColon.table[0].node.next[0], 1, [] + [LabelIdentifierLiteral]);
  }

  lemma WellFormedAfterColon_0()
    ensures WellFormed(AfterColon.table[0].node, [])
  {
    WellFormedAfterColon_0_0();
  }

  lemma WellFormedAfterColon()
    ensures WellFormed(AfterColon, [])
  {
    WellFormedAfterColon_0();
    assert ChildrenWellFormed(AfterColon, 1, []);
  }

  lemma WellFormedAfterLess_1()
    ensures WellFormed(AfterLess.table[1].node, [])
  {
    assert ChildrenWellFormed(AfterLess.table[1].node, 1, []);
  }

  lemma WellFormedAfterLess_0()
    ensures WellFormed(AfterLess.table[0].node, [])
  {
    assert ChildrenWellFormed(AfterLess.table[0].node, 1, []);
  }

  lemma WellFormedAfterLess()
    ensures WellFormed(AfterLess, [])
  {
    WellFormedAfterLess_1();
    WellFormedAfterLess_0();
    assert AscendingFrom(AfterLess.table, 2);
    assert AscendingFrom(AfterLess.table, 1);
    assert ChildrenWellFormed(AfterLess, 3, []);
    assert ChildrenWellFormed(AfterLess, 2, []);
    assert ChildrenWellFormed(AfterLess, 1, []);
  }

  lemma WellFormedAfterEquals_13_0_1()
    ensures WellFormed(AfterEquals.table[13].node.table[0].node.table[1].node, [])
  {
    assert ChildrenWellFormed(AfterEquals.table[13].node.table[0].node.table[1].node, 1, []);
  }

  lemma WellFormedAfterEquals_13_0()
    ensures WellFormed(AfterEquals.table[13].node.table[0].node, [])
  {
    WellFormedAfterEquals_13_0_1();
    assert AscendingFrom(AfterEquals.table[13].node.table[0].node.table, 1);
    assert ChildrenWellFormed(AfterEquals.table[13].node.table[0].node, 2, []);
    assert ChildrenWellFormed(AfterEquals.table[13].node.table[0].node, 1, []);
  }

  lemma WellFormedAfterEquals_13()
    ensures WellFormed(AfterEquals.table[13].node, [])
  {
    WellFormedAfterEquals_13_0();
    assert ChildrenWellFormed(AfterEquals.table[13].node, 1, []);
  }

  lemma WellFormedAfterEquals_0_0()
    ensures WellFormed(AfterEquals.table[0].node.next[0], [] + [LabelIdentifierLiteral])
  {
    assert ChildrenWellFormed(AfterEquals.table[0].node.next[0], 1, [] + [LabelIdentifierLiteral]);
  }

  lemma WellFormedAfterEquals_0()
    ensures WellFormed(AfterEquals.table[0].node, [])
  {
    WellFormedAfterEquals_0_0();
  }

  lemma WellFormedAfterEqualsSorted()
    ensures AscendingFrom(AfterEquals.table, 0)
  {
    assert AscendingFrom(AfterEquals.table, 21);
    assert AscendingFrom(AfterEquals.table, 20);
    assert AscendingFrom(AfterEquals.table, 19);
    assert AscendingFrom(AfterEquals.table, 18);
    assert AscendingFrom(AfterEquals.table, 17);
    assert AscendingFrom(AfterEquals.table, 16);
    assert AscendingFrom(AfterEquals.table, 15);
    assert AscendingFrom(AfterEquals.table, 14);
    assert AscendingFrom(AfterEquals.table, 13);
    assert AscendingFrom(AfterEquals.table, 12);
    assert AscendingFrom(AfterEquals.table, 11);
    assert AscendingFrom(AfterEquals.table, 10);
    assert AscendingFrom(AfterEquals.table, 9);
    assert AscendingFrom(AfterEquals.table, 8);
    assert AscendingFrom(AfterEquals.table, 7);
    assert AscendingFrom(AfterEquals.table, 6);
    assert AscendingFrom(AfterEquals.table, 5);
    assert AscendingFrom(AfterEquals.table, 4);
    assert AscendingFrom(AfterEquals.table, 3);
    assert AscendingFrom(AfterEquals.table, 2);
    assert AscendingFrom(AfterEquals.table, 1);
  }

  lemma WellFormedAfterEqualsFrom16()
    ensures ChildrenWellFormed(AfterEquals, 16, [])
  {
    assert ChildrenWellFormed(AfterEquals, 22, []);
    assert ChildrenWellFormed(AfterEquals, 21, []);
    assert ChildrenWellFormed(AfterEquals, 20, []);
    assert ChildrenWellFormed(AfterEquals, 19, []);
    assert ChildrenWellFormed(AfterEquals, 18, []);
    assert ChildrenWellFormed(AfterEquals, 17, []);
  }

  lemma WellFormedAfterEqualsFrom10()
    ensures ChildrenWellFormed(AfterEquals, 10, [])
  {
    WellFormedAfterEqualsFrom16();
    WellFormedAfterEquals_13();
    assert ChildrenWellFormed(AfterEquals, 16, []);
    assert ChildrenWellFormed(AfterEquals, 15, []);
    assert ChildrenWellFormed(AfterEquals, 14, []);
    assert ChildrenWellFormed(AfterEquals, 13, []);
    assert ChildrenWellFormed(AfterEquals, 12, []);
    assert ChildrenWellFormed(AfterEquals, 11, []);
  }

  lemma WellFormedAfterEqualsFrom4()
    ensures ChildrenWellFormed(AfterEquals, 4, [])
  {
    WellFormedAfterEqualsFrom10();
    assert ChildrenWellFormed(AfterEquals, 10, []);
    assert ChildrenWellFormed(AfterEquals, 9, []);
    assert ChildrenWellFormed(AfterEquals, 8, []);
    assert ChildrenWellFormed(AfterEquals, 7, []);
    assert ChildrenWellFormed(AfterEquals, 6, []);
    assert ChildrenWellFormed(AfterEquals, 5, []);
  }

  lemma WellFormedAfterEqualsFrom0()
    ensures ChildrenWellFormed(AfterEquals, 0, [])
  {
    WellFormedAfterEqualsFrom4();
    WellFormedAfterEquals_0();
    assert ChildrenWellFormed(AfterEquals, 4, []);
    assert ChildrenWellFormed(AfterEquals, 3, []);
    assert ChildrenWellFormed(AfterEquals, 2, []);
    assert ChildrenWellFormed(AfterEquals, 1, []);
  }

  lemma WellFormedAfterEquals()
    ensures WellFormed(AfterEquals, [])
  {
    WellFormedAfterEqualsSorted();
    WellFormedAfterEqualsFrom0();
  }

  lemma WellFormedAfterGreater_0()
    ensures WellFormed(AfterGreater.next[0], [] + [LabelIdentifierLiteral])
  {
    assert ChildrenWellFormed(AfterGreater.next[0], 1, [] + [LabelIdentifierLiteral]);
  }

  lemma WellFormedAfterGreater()
    ensures WellFormed(AfterGreater, [])
  {
    WellFormedAfterGreater_0();
  }

  lemma WellFormedAfterQuestion_0()
    ensures WellFormed(AfterQuestion.next[0], [] + [LabelIdentifierLiteral])
  {
    assert ChildrenWellFormed(AfterQuestion.next[0], 1, [] + [LabelIdentifierLiteral]);
  }

  lemma WellFormedAfterQuestion()
    ensures WellFormed(AfterQuestion, [])
  {
    WellFormedAfterQuestion_0();
  }

  lemma WellFormedAfterUpperA_2_0()
    ensures WellFormed(AfterUpperA.table[2].node.table[0].node, [])
  {
    assert AscendingFrom(AfterUpperA.table[2].node.table[0].node.table, 1);
    assert ChildrenWellFormed(AfterUpperA.table[2].node.table[0].node, 2, []);
    assert ChildrenWellFormed(AfterUpperA.table[2].node.table[0].node, 1, []);
  }

  lemma WellFormedAfterUpperA_2()
    ensures WellFormed(AfterUpperA.table[2].node, [])
  {
    WellFormedAfterUpperA_2_0();
    assert ChildrenWellFormed(AfterUpperA.table[2].node, 1, []);
  }

  lemma WellFormedAfterUpperA_1()
    ensures WellFormed(AfterUpperA.table[1].node, [])
  {
    assert ChildrenWellFormed(AfterUpperA.table[1].node, 1, []);
  }

  lemma WellFormedAfterUpperA_0_0()
    ensures WellFormed(AfterUpperA.table[0].node.table[0].node, [])
  {
    assert AscendingFrom(AfterUpperA.table[0].node.table[0].node.table, 1);
    assert ChildrenWellFormed(AfterUpperA.table[0].node.table[0].node, 2, []);
    assert ChildrenWellFormed(AfterUpperA.table[0].node.table[0].node, 1, []);
  }

  lemma WellFormedAfterUpperA_0()
    ensures WellFormed(AfterUpperA.table[0].node, [])
  {
    WellFormedAfterUpperA_0_0();
    assert ChildrenWellFormed(AfterUpperA.table[0].node, 1, []);
  }

  lemma WellFormedAfterUpperA()
    ensures WellFormed(AfterUpperA, [])
  {
    WellFormedAfterUpperA_2();
    WellFormedAfterUpperA_1();
    WellFormedAfterUpperA_0();
    assert AscendingFrom(AfterUpperA.table, 2);
    assert AscendingFrom(AfterUpperA.table, 1);
    assert ChildrenWellFormed(AfterUpperA, 3, []);
    assert ChildrenWellFormed(AfterUpperA, 2, []);
    assert ChildrenWellFormed(AfterUpperA, 1, []);
  }

  lemma WellFormedAfterUpperB_4_0_0_0()
    ensures WellFormed(AfterUpperB.table[4].node.table[0].node.table[0].node.table[0].node, [])
  {
    assert ChildrenWellFormed(AfterUpperB.table[4].node.table[0].node.table[0].node.table[0].node, 1, []);
  }

  lemma WellFormedAfterUpperB_4_0_0()
    ensures WellFormed(AfterUpperB.table[4].node.table[0].node.table[0].node, [])
  {
    WellFormedAfterUpperB_4_0_0_0();
    assert ChildrenWellFormed(AfterUpperB.table[4].node.table[0].node.table[0].node, 1, []);
  }

  lemma WellFormedAfterUpperB_4_0()
    ensures WellFormed(AfterUpperB.table[4].node.table[0].node, [])
  {
    WellFormedAfterUpperB_4_0_0();
    assert ChildrenWellFormed(AfterUpperB.table[4].node.table[0].node, 1, []);
  }

  lemma WellFormedAfterUpperB_4()
    ensures WellFormed(AfterUpperB.table[4].node, [])
  {
    WellFormedAfterUpperB_4_0();
    assert ChildrenWellFormed(AfterUpperB.table[4].node, 1, []);
  }

  lemma WellFormedAfterUpperB_3_0_0()
    ensures WellFormed(AfterUpperB.table[3].node.table[0].node.table[0].node, [])
  {
    assert ChildrenWellFormed(AfterUpperB.table[3].node.table[0].node.table[0].node, 1, []);
  }

  lemma WellFormedAfterUpperB_3_0()
    ensures WellFormed(AfterUpperB.table[3].node.table[0].node, [])
  {
    WellFormedAfterUpperB_3_0_0();
    assert ChildrenWellFormed(AfterUpperB.table[3].node.table[0].node, 1, []);
  }

  lemma WellFormedAfterUpperB_3()
    ensures WellFormed(AfterUpperB.table[3].node, [])
  {
    WellFormedAfterUpperB_3_0();
    assert ChildrenWellFormed(AfterUpperB.table[3].node, 1, []);
  }

  lemma WellFormedAfterUpperB_2()
    ensures WellFormed(AfterUpperB.table[2].node, [])
  {
    assert ChildrenWellFormed(AfterUpperB.table[2].node, 1, []);
  }

  lemma WellFormedAfterUpperB_1()
    ensures WellFormed(AfterUpperB.table[1].node, [])
  {
    assert ChildrenWellFormed(AfterUpperB.table[1].node, 1, []);
  }

  lemma WellFormedAfterUpperB_0()
    ensures WellFormed(AfterUpperB.table[0].node, [])
  {
    assert ChildrenWellFormed(AfterUpperB.table[0].node, 1, []);
  }

  lemma WellFormedAfterUpperB()
    ensures WellFormed(AfterUpperB, [])
  {
    WellFormedAfterUpperB_4();
    WellFormedAfterUpperB_3();
    WellFormedAfterUpperB_2();
    WellFormedAfterUpperB_1();
    WellFormedAfterUpperB_0();
    assert AscendingFrom(AfterUpperB.table, 4);
    assert AscendingFrom(AfterUpperB.table, 3);
    assert AscendingFrom(AfterUpperB.table, 2);
    assert AscendingFrom(AfterUpperB.table, 1);
    assert ChildrenWellFormed(AfterUpperB, 5, []);
    assert ChildrenWellFormed(AfterUpperB, 4, []);
    assert ChildrenWellFormed(AfterUpperB, 3, []);
    assert ChildrenWellFormed(AfterUpperB, 2, []);
    assert ChildrenWellFormed(AfterUpperB, 1, []);
  }

  lemma WellFormedAfterUpperC_3()
    ensures WellFormed(AfterUpperC.table[3].node, [])
  {
    assert ChildrenWellFormed(AfterUpperC.table[3].node, 1, []);
  }

  lemma WellFormedAfterUpperC_2_0_0_0()
    ensures WellFormed(AfterUpperC.table[2].node.table[0].node.table[0].node.table[0].node, [])
  {
    assert ChildrenWellFormed(AfterUpperC.table[2].node.table[0].node.table[0].node.table[0].node, 1, []);
  }

  lemma WellFormedAfterUpperC_2_0_0()
    ensures WellFormed(AfterUpperC.table[2].node.table[0].node.table[0].node, [])
  {
    WellFormedAfterUpperC_2_0_0_0();
    assert ChildrenWellFormed(AfterUpperC.table[2].node.table[0].node.table[0].node, 1, []);
  }

  lemma WellFormedAfterUpperC_2_0()
    ensures WellFormed(AfterUpperC.table[2].node.table[0].node, [])
  {
    WellFormedAfterUpperC_2_0_0();
    assert ChildrenWellFormed(AfterUpperC.table[2].node.table[0].node, 1, []);
  }

  lemma WellFormedAfterUpperC_2()
    ensures WellFormed(AfterUpperC.table[2].node, [])
  {
    WellFormedAfterUpperC_2_0();
    assert ChildrenWellFormed(AfterUpperC.table[2].node, 1, []);
  }

  lemma WellFormedAfterUpperC_1_0()
    ensures WellFormed(AfterUpperC.table[1].node.table[0].node, [])
  {
    assert ChildrenWellFormed(AfterUpperC.table[1].node.table[0].node, 1, []);
  }

  lemma WellFormedAfterUpperC_1()
    ensures WellFormed(AfterUpperC.table[1].node, [])
  {
    WellFormedAfterUpperC_1_0();
    assert ChildrenWellFormed(AfterUpperC.table[1].node, 1, []);
  }

  lemma WellFormedAfterUpperC_0_0_0()
    ensures WellFormed(AfterUpperC.table[0].node.table[0].node.table[0].node, [])
  {
    assert ChildrenWellFormed(AfterUpperC.table[0].node.table[0].node.table[0].node, 1, []);
  }

  lemma WellFormedAfterUpperC_0_0()
    ensures WellFormed(AfterUpperC.table[0].node.table[0].node, [])
  {
    WellFormedAfterUpperC_0_0_0();
    assert ChildrenWellFormed(AfterUpperC.table[0].node.table[0].node, 1, []);
  }

  lemma WellFormedAfterUpperC_0()
    ensures WellFormed(AfterUpperC.table[0].node, [])
  {
    WellFormedAfterUpperC_0_0();
    assert ChildrenWellFormed(AfterUpperC.table[0].node, 1, []);
  }

  lemma WellFormedAfterUpperC()
    ensures WellFormed(AfterUpperC, [])
  {
    WellFormedAfterUpperC_3();
    WellFormedAfterUpperC_2();
    WellFormedAfterUpperC_1();
    WellFormedAfterUpperC_0();
    assert AscendingFrom(AfterUpperC.table, 3);
    assert AscendingFrom(AfterUpperC.table, 2);
    assert AscendingFrom(AfterUpperC.table, 1);
    assert ChildrenWellFormed(AfterUpperC, 4, []);
    assert ChildrenWellFormed(AfterUpperC, 3, []);
    assert ChildrenWellFormed(AfterUpperC, 2, []);
    assert ChildrenWellFormed(AfterUpperC, 1, []);
  }

  lemma WellFormedAfterUpperD_0_0_0()
    ensures WellFormed(AfterUpperD.table[0].node.table[0].node.table[0].node, [])
  {
    assert ChildrenWellFormed(AfterUpperD.table[0].node.table[0].node.table[0].node, 1, []);
  }

  lemma WellFormedAfterUpperD_0_0()
    ensures WellFormed(AfterUpperD.table[0].node.table[0].node, [])
  {
    WellFormedAfterUpperD_0_0_0();
    assert ChildrenWellFormed(AfterUpperD.table[0].node.table[0].node, 1, []);
  }

  lemma WellFormedAfterUpperD_0()
    ensures WellFormed(AfterUpperD.table[0].node, [])
  {
    WellFormedAfterUpperD_0_0();
    assert ChildrenWellFormed(AfterUpperD.table[0].node, 1, []);
  }

  lemma WellFormedAfterUpperD()
    ensures WellFormed(AfterUpperD, [])
  {
    WellFormedAfterUpperD_0();
    assert ChildrenWellFormed(AfterUpperD, 1, []);
  }

  lemma WellFormedAfterUpperF_1_0_0()
    ensures WellFormed(AfterUpperF.table[1].node.table[0].node.table[0].node, [])
  {
    assert ChildrenWellFormed(AfterUpperF.table[1].node.table[0].node.table[0].node, 1, []);
  }

  lemma WellFormedAfterUpperF_1_0()
    ensures WellFormed(AfterUpperF.table[1].node.table[0].node, [])
  {
    WellFormedAfterUpperF_1_0_0();
    assert ChildrenWellFormed(AfterUpperF.table[1].node.table[0].node, 1, []);
  }

  lemma WellFormedAfterUpperF_1()
    ensures WellFormed(AfterUpperF.table[1].node, [])
  {
    WellFormedAfterUpperF_1_0();
    assert ChildrenWellFormed(AfterUpperF.table[1].node, 1, []);
  }

  lemma WellFormedAfterUpperF_0_0_0()
    ensures WellFormed(AfterUpperF.table[0].node.table[0].node.table[0].node, [])
  {
    assert ChildrenWellFormed(AfterUpperF.table[0].node.table[0].node.table[0].node, 1, []);
  }

  lemma WellFormedAfterUpperF_0_0()
    ensures WellFormed(AfterUpperF.table[0].node.table[0].node, [])
  {
    WellFormedAfterUpperF_0_0_0();
    assert ChildrenWellFormed(AfterUpperF.table[0].node.table[0].node, 1, []);
  }

  lemma WellFormedAfterUpperF_0()
    ensures WellFormed(AfterUpperF.table[0].node, [])
  {
    WellFormedAfterUpperF_0_0();
    assert ChildrenWellFormed(AfterUpperF.table[0].node, 1, []);
  }

  lemma WellFormedAfterUpperF()
    ensures WellFormed(AfterUpperF, [])
  {
    WellFormedAfterUpperF_1();
    WellFormedAfterUpperF_0();
    assert AscendingFrom(AfterUpperF.table, 1);
    assert ChildrenWellFormed(AfterUpperF, 2, []);
    assert ChildrenWellFormed(AfterUpperF, 1, []);
  }

  lemma WellFormedAfterUpperG_0_0()
    ensures WellFormed(AfterUpperG.table[0].node.table[0].node, [])
  {
    assert ChildrenWellFormed(AfterUpperG.table[0].node.table[0].node, 1, []);
  }

  lemma WellFormedAfterUpperG_0()
    ensures WellFormed(AfterUpperG.table[0].node, [])
  {
    WellFormedAfterUpperG_0_0();
    assert ChildrenWellFormed(AfterUpperG.table[0].node, 1, []);
  }

  lemma WellFormedAfterUpperG()
    ensures WellFormed(AfterUpperG, [])
  {
    WellFormedAfterUpperG_0();
    assert ChildrenWellFormed(AfterUpperG, 1, []);
  }

  lemma WellFormedAfterUpperH_1_0_0()
    ensures WellFormed(AfterUpperH.table[1].node.table[0].node.table[0].node, [])
  {
    assert AscendingFrom(AfterUpperH.table[1].node.table[0].node.table[0].node.table, 1);
    assert ChildrenWellFormed(AfterUpperH.table[1].node.table[0].node.table[0].node, 2, []);
    assert ChildrenWellFormed(AfterUpperH.table[1].node.table[0].node.table[0].node, 1, []);
  }

  lemma WellFormedAfterUpperH_1_0()
    ensures WellFormed(AfterUpperH.table[1].node.table[0].node, [])
  {
    WellFormedAfterUpperH_1_0_0();
    assert ChildrenWellFormed(AfterUpperH.table[1].node.table[0].node, 1, []);
  }

  lemma WellFormedAfterUpperH_1()
    ensures WellFormed(AfterUpperH.table[1].node, [])
  {
    WellFormedAfterUpperH_1_0();
    assert ChildrenWellFormed(AfterUpperH.table[1].node, 1, []);
  }

  lemma WellFormedAfterUpperH_0_0_0()
    ensures WellFormed(AfterUpperH.table[0].node.table[0].node.table[0].node, [])
  {
    assert ChildrenWellFormed(AfterUpperH.table[0].node.table[0].node.table[0].node, 1, []);
  }

  lemma WellFormedAfterUpperH_0_0()
    ensures WellFormed(AfterUpperH.table[0].node.table[0].node, [])
  {
    WellFormedAfterUpperH_0_0_0();
    assert ChildrenWellFormed(AfterUpperH.table[0].node.table[0].node, 1, []);
  }

  lemma WellFormedAfterUpperH_0()
    ensures WellFormed(AfterUpperH.table[0].node, [])
  {
    WellFormedAfterUpperH_0_0();
    assert ChildrenWellFormed(AfterUpperH.table[0].node, 1, []);
  }

  lemma WellFormedAfterUpperH()
    ensures WellFormed(AfterUpperH, [])
  {
    WellFormedAfterUpperH_1();
    WellFormedAfterUpperH_0();
    assert AscendingFrom(AfterUpperH.table, 1);
    assert ChildrenWellFormed(AfterUpperH, 2, []);
    assert ChildrenWellFormed(AfterUpperH, 1, []);
  }

  lemma WellFormedAfterUpperM_0_0_0()
    ensures WellFormed(AfterUpperM.table[0].node.table[0].node.table[0].node, [])
  {
    assert ChildrenWellFormed(AfterUpperM.table[0].node.table[0].node.table[0].node, 1, []);
  }

  lemma WellFormedAfterUpperM_0_0()
    ensures WellFormed(AfterUpperM.table[0].node.table[0].node, [])
  {
    WellFormedAfterUpperM_0_0_0();
    assert ChildrenWellFormed(AfterUpperM.table[0].node.table[0].node, 1, []);
  }

  lemma WellFormedAfterUpperM_0()
    ensures WellFormed(AfterUpperM.table[0].node, [])
  {
    WellFormedAfterUpperM_0_0();
    assert ChildrenWellFormed(AfterUpperM.table[0].node, 1, []);
  }

  lemma WellFormedAfterUpperM()
    ensures WellFormed(AfterUpperM, [])
  {
    WellFormedAfterUpperM_0();
    assert ChildrenWellFormed(AfterUpperM, 1, []);
  }

  lemma WellFormedAfterUpperN_0_0_0()
    ensures WellFormed(AfterUpperN.table[0].node.table[0].node.table[0].node, [])
  {
    assert ChildrenWellFormed(AfterUpperN.table[0].node.table[0].node.table[0].node, 1, []);
  }

  lemma WellFormedAfterUpperN_0_0()
    ensures WellFormed(AfterUpperN.table[0].node.table[0].node, [])
  {
    WellFormedAfterUpperN_0_0_0();
    assert ChildrenWellFormed(AfterUpperN.table[0].node.table[0].node, 1, []);
  }

  lemma WellFormedAfterUpperN_0()
    ensures WellFormed(AfterUpperN.table[0].node, [])
  {
    WellFormedAfterUpperN_0_0();
    assert ChildrenWellFormed(AfterUpperN.table[0].node, 1, []);
  }

  lemma WellFormedAfterUpperN()
    ensures WellFormed(AfterUpperN, [])
  {
    WellFormedAfterUpperN_0();
    assert ChildrenWellFormed(AfterUpperN, 1, []);
  }

  lemma WellFormedAfterUpperO()
    ensures WellFormed(AfterUpperO, [])
  {
    assert ChildrenWellFormed(AfterUpperO, 1, []);
  }

  lemma WellFormedAfterUpperP_0_0_0()
    ensures WellFormed(AfterUpperP.table[0].node.table[0].node.table[0].node, [])
  {
    assert ChildrenWellFormed(AfterUpperP.table[0].node.table[0].node.table[0].node, 1, []);
  }

  lemma WellFormedAfterUpperP_0_0()
    ensures WellFormed(AfterUpperP.table[0].node.table[0].node, [])
  {
    WellFormedAfterUpperP_0_0_0();
    assert ChildrenWellFormed(AfterUpperP.table[0].node.table[0].node, 1, []);
  }

  lemma WellFormedAfterUpperP_0()
    ensures WellFormed(AfterUpperP.table[0].node, [])
  {
    WellFormedAfterUpperP_0_0();
    assert ChildrenWellFormed(AfterUpperP.table[0].node, 1, []);
  }

  lemma WellFormedAfterUpperP()
    ensures WellFormed(AfterUpperP, [])
  {
    WellFormedAfterUpperP_0();
    assert ChildrenWellFormed(AfterUpperP, 1, []);
  }

  lemma WellFormedAfterUpperR_1_0()
    ensures WellFormed(AfterUpperR.table[1].node.table[0].node, [])
  {
    assert ChildrenWellFormed(AfterUpperR.table[1].node.table[0].node, 1, []);
  }

  lemma WellFormedAfterUpperR_1()
    ensures WellFormed(AfterUpperR.table[1].node, [])
  {
    WellFormedAfterUpperR_1_0();
    assert ChildrenWellFormed(AfterUpperR.table[1].node, 1, []);
  }

  lemma WellFormedAfterUpperR_0_0_0()
    ensures WellFormed(AfterUpperR.table[0].node.table[0].node.table[0].node, [])
  {
    assert ChildrenWellFormed(AfterUpperR.table[0].node.table[0].node.table[0].node, 1, []);
  }

  lemma WellFormedAfterUpperR_0_0()
    ensures WellFormed(AfterUpperR.table[0].node.table[0].node, [])
  {
    WellFormedAfterUpperR_0_0_0();
    assert ChildrenWellFormed(AfterUpperR.table[0].node.table[0].node, 1, []);
  }

  lemma WellFormedAfterUpperR_0()
    ensures WellFormed(AfterUpperR.table[0].node, [])
  {
    WellFormedAfterUpperR_0_0();
    assert ChildrenWellFormed(AfterUpperR.table[0].node, 1, []);
  }

  lemma WellFormedAfterUpperR()
    ensures WellFormed(AfterUpperR, [])
  {
    WellFormedAfterUpperR_1();
    WellFormedAfterUpperR_0();
    assert AscendingFrom(AfterUpperR.table, 1);
    assert ChildrenWellFormed(AfterUpperR, 2, []);
    assert ChildrenWellFormed(AfterUpperR, 1, []);
  }

  lemma WellFormedAfterUpperU_0()
    ensures WellFormed(AfterUpperU.table[0].node, [])
  {
    assert ChildrenWellFormed(AfterUpperU.table[0].node, 1, []);
  }

  lemma WellFormedAfterUpperU()
    ensures WellFormed(AfterUpperU, [])
  {
    WellFormedAfterUpperU_0();
    assert ChildrenWellFormed(AfterUpperU, 1, []);
  }

  lemma WellFormedAfterUpperV_0()
    ensures WellFormed(AfterUpperV.table[0].node, [])
  {
    assert ChildrenWellFormed(AfterUpperV.table[0].node, 1, []);
  }

  lemma WellFormedAfterUpperV()
    ensures WellFormed(AfterUpperV, [])
  {
    WellFormedAfterUpperV_0();
    assert ChildrenWellFormed(AfterUpperV, 1, []);
  }

  lemma WellFormedAfterUpperZ_0()
    ensures WellFormed(AfterUpperZ.table[0].node, [])
  {
    assert ChildrenWellFormed(AfterUpperZ.table[0].node, 1, []);
  }

  lemma WellFormedAfterUpperZ()
    ensures WellFormed(AfterUpperZ, [])
  {
    WellFormedAfterUpperZ_0();
    assert ChildrenWellFormed(AfterUpperZ, 1, []);
  }

  lemma WellFormedAfterBracket_11()
    ensures WellFormed(AfterBracket.table[11].node, [])
  {
    assert ChildrenWellFormed(AfterBracket.table[11].node, 1, []);
  }

  lemma WellFormedAfterBracket_10()
    ensures WellFormed(AfterBracket.table[10].node, [])
  {
    assert ChildrenWellFormed(AfterBracket.table[10].node, 1, []);
  }

  lemma WellFormedAfterBracket_9()
    ensures WellFormed(AfterBracket.table[9].node, [])
  {
    assert ChildrenWellFormed(AfterBracket.table[9].node, 1, []);
  }

  lemma WellFormedAfterBracket_8()
    ensures WellFormed(AfterBracket.table[8].node, [])
  {
    assert ChildrenWellFormed(AfterBracket.table[8].node, 1, []);
  }

  lemma WellFormedAfterBracket_7()
    ensures WellFormed(AfterBracket.table[7].node, [])
  {
    assert ChildrenWellFormed(AfterBracket.table[7].node, 1, []);
  }

  lemma WellFormedAfterBracket_6()
    ensures WellFormed(AfterBracket.table[6].node, [])
  {
    assert ChildrenWellFormed(AfterBracket.table[6].node, 1, []);
  }

  lemma WellFormedAfterBracket_5()
    ensures WellFormed(AfterBracket.table[5].node, [])
  {
    assert ChildrenWellFormed(AfterBracket.table[5].node, 1, []);
  }

  lemma WellFormedAfterBracket_4_0()
    ensures WellFormed(AfterBracket.table[4].node.table[0].node, [])
  {
    assert ChildrenWellFormed(AfterBracket.table[4].node.table[0].node, 1, []);
  }

  lemma WellFormedAfterBracket_4()
    ensures WellFormed(AfterBracket.table[4].node, [])
  {
    WellFormedAfterBracket_4_0();
    assert AscendingFrom(AfterBracket.table[4].node.table, 1);
    assert ChildrenWellFormed(AfterBracket.table[4].node, 2, []);
    assert ChildrenWellFormed(AfterBracket.table[4].node, 1, []);
  }

  lemma WellFormedAfterBracket_3_0()
    ensures WellFormed(AfterBracket.table[3].node.table[0].node, [])
  {
    assert ChildrenWellFormed(AfterBracket.table[3].node.table[0].node, 1, []);
  }

  lemma WellFormedAfterBracket_3()
    ensures WellFormed(AfterBracket.table[3].node, [])
  {
    WellFormedAfterBracket_3_0();
    assert AscendingFrom(AfterBracket.table[3].node.table, 1);
    assert ChildrenWellFormed(AfterBracket.table[3].node, 2, []);
    assert ChildrenWellFormed(AfterBracket.table[3].node, 1, []);
  }

  lemma WellFormedAfterBracket_2()
    ensures WellFormed(AfterBracket.table[2].node, [])
  {
    assert ChildrenWellFormed(AfterBracket.table[2].node, 1, []);
  }

  lemma WellFormedAfterBracket_1_0()
    ensures WellFormed(AfterBracket.table[1].node.table[0].node, [])
  {
    assert ChildrenWellFormed(AfterBracket.table[1].node.table[0].node, 1, []);
  }

  lemma WellFormedAfterBracket_1()
    ensures WellFormed(AfterBracket.table[1].node, [])
  {
    WellFormedAfterBracket_1_0();
    assert AscendingFrom(AfterBracket.table[1].node.table, 1);
    assert ChildrenWellFormed(AfterBracket.table[1].node, 2, []);
    assert ChildrenWellFormed(AfterBracket.table[1].node, 1, []);
  }

  lemma WellFormedAfterBracket_0_0()
    ensures WellFormed(AfterBracket.table[0].node.table[0].node, [])
  {
    assert ChildrenWellFormed(AfterBracket.table[0].node.table[0].node, 1, []);
  }

  lemma WellFormedAfterBracket_0()
    ensures WellFormed(AfterBracket.table[0].node, [])
  {
    WellFormedAfterBracket_0_0();
    assert AscendingFrom(AfterBracket.table[0].node.table, 1);
    assert ChildrenWellFormed(AfterBracket.table[0].node, 2, []);
    assert ChildrenWellFormed(AfterBracket.table[0].node, 1, []);
  }

  lemma WellFormedAfterBracketSorted()
    ensures AscendingFrom(AfterBracket.table, 0)
  {
    assert AscendingFrom(AfterBracket.table, 11);
    assert AscendingFrom(AfterBracket.table, 10);
    assert AscendingFrom(AfterBracket.table, 9);
    assert AscendingFrom(AfterBracket.table, 8);
    assert AscendingFrom(AfterBracket.table, 7);
    assert AscendingFrom(AfterBracket.table, 6);
    assert AscendingFrom(AfterBracket.table, 5);
    assert AscendingFrom(AfterBracket.table, 4);
    assert AscendingFrom(AfterBracket.table, 3);
    assert AscendingFrom(AfterBracket.table, 2);
    assert AscendingFrom(AfterBracket.table, 1);
  }

  lemma WellFormedAfterBracketFrom6()
    ensures ChildrenWellFormed(AfterBracket, 6, [])
  {
    WellFormedAfterBracket_11();
    WellFormedAfterBracket_10();
    WellFormedAfterBracket_9();
    WellFormedAfterBracket_8();
    WellFormedAfterBracket_7();
    WellFormedAfterBracket_6();
    assert ChildrenWellFormed(AfterBracket, 12, []);
    assert ChildrenWellFormed(AfterBracket, 11, []);
    assert ChildrenWellFormed(AfterBracket, 10, []);
    assert ChildrenWellFormed(AfterBracket, 9, []);
    assert ChildrenWellFormed(AfterBracket, 8, []);
    assert ChildrenWellFormed(AfterBracket, 7, []);
  }

  lemma WellFormedAfterBracketFrom0()
    ensures ChildrenWellFormed(AfterBracket, 0, [])
  {
    WellFormedAfterBracketFrom6();
    WellFormedAfterBracket_5();
    WellFormedAfterBracket_4();
    WellFormedAfterBracket_3();
    WellFormedAfterBracket_2();
    WellFormedAfterBracket_1();
    WellFormedAfterBracket_0();
    assert ChildrenWellFormed(AfterBracket, 6, []);
    assert ChildrenWellFormed(AfterBracket, 5, []);
    assert ChildrenWellFormed(AfterBracket, 4, []);
    assert ChildrenWellFormed(AfterBracket, 3, []);
    assert ChildrenWellFormed(AfterBracket, 2, []);
    assert ChildrenWellFormed(AfterBracket, 1, []);
  }

  lemma WellFormedAfterBracket()
    ensures WellFormed(AfterBracket, [])
  {
    WellFormedAfterBracketSorted();
    WellFormedAfterBracketFrom0();
  }

  lemma WellFormedAfterCaret()
    ensures WellFormed(AfterCaret, [])
  {
    assert AscendingFrom(AfterCaret.table, 4);
    assert AscendingFrom(AfterCaret.table, 3);
    assert AscendingFrom(AfterCaret.table, 2);
    assert AscendingFrom(AfterCaret.table, 1);
    assert ChildrenWellFormed(AfterCaret, 5, []);
    assert ChildrenWellFormed(AfterCaret, 4, []);
    assert ChildrenWellFormed(AfterCaret, 3, []);
    assert ChildrenWellFormed(AfterCaret, 2, []);
    assert ChildrenWellFormed(AfterCaret, 1, []);
  }

  lemma WellFormedAfterLowerI()
    ensures WellFormed(AfterLowerI, [])
  {
    assert AscendingFrom(AfterLowerI.table, 3);
    assert AscendingFrom(AfterLowerI.table, 2);
    assert AscendingFrom(AfterLowerI.table, 1);
    assert ChildrenWellFormed(AfterLowerI, 4, []);
    assert ChildrenWellFormed(AfterLowerI, 3, []);
    assert ChildrenWellFormed(AfterLowerI, 2, []);
    assert ChildrenWellFormed(AfterLowerI, 1, []);
  }

  lemma WellFormedAfterBrace_0()
    ensures WellFormed(AfterBrace.next[0], [] + [StringLiteral])
  {
    assert ChildrenWellFormed(AfterBrace.next[0], 1, [] + [StringLiteral]);
  }

  lemma WellFormedAfterBrace()
    ensures WellFormed(AfterBrace, [])
  {
    WellFormedAfterBrace_0();
  }

  lemma WellFormedAfterBar_0()
    ensures WellFormed(AfterBar.next[0], [] + [LabelIdentifierLiteral])
  {
    assert ChildrenWellFormed(AfterBar.next[0], 1, [] + [LabelIdentifierLiteral]);
  }

  lemma WellFormedAfterBar()
    ensures WellFormed(AfterBar, [])
  {
    WellFormedAfterBar_0();
  }

  lemma Ntf2iFirstHalfSorted()
    ensures AscendingFrom(Ntf2iFirstHalf, 0)
  {
    assert AscendingFrom(Ntf2iFirstHalf, 21);
    assert AscendingFrom(Ntf2iFirstHalf, 20);
    assert AscendingFrom(Ntf2iFirstHalf, 19);
    assert AscendingFrom(Ntf2iFirstHalf, 18);
    assert AscendingFrom(Ntf2iFirstHalf, 17);
    assert AscendingFrom(Ntf2iFirstHalf, 16);
    assert AscendingFrom(Ntf2iFirstHalf, 15);
    assert AscendingFrom(Ntf2iFirstHalf, 14);
    assert AscendingFrom(Ntf2iFirstHalf, 13);
    assert AscendingFrom(Ntf2iFirstHalf, 12);
    assert AscendingFrom(Ntf2iFirstHalf, 11);
    assert AscendingFrom(Ntf2iFirstHalf, 10);
    assert AscendingFrom(Ntf2iFirstHalf, 9);
    assert AscendingFrom(Ntf2iFirstHalf, 8);
    assert AscendingFrom(Ntf2iFirstHalf, 7);
    assert AscendingFrom(Ntf2iFirstHalf, 6);
    assert AscendingFrom(Ntf2iFirstHalf, 5);
    assert AscendingFrom(Ntf2iFirstHalf, 4);
    assert AscendingFrom(Ntf2iFirstHalf, 3);
    assert AscendingFrom(Ntf2iFirstHalf, 2);
    assert AscendingFrom(Ntf2iFirstHalf, 1);
  }

  lemma Ntf2iFirstHalfFrom16()
    ensures TopLevelFrom(Ntf2iFirstHalf, 16)
  {
    WellFormedAfterUpperO();
    WellFormedAfterUpperN();
    WellFormedAfterUpperM();
    WellFormedAfterUpperH();
    WellFormedAfterUpperG();
    WellFormedAfterUpperF();
    assert TopLevelFrom(Ntf2iFirstHalf, 22);
    assert TopLevelFrom(Ntf2iFirstHalf, 21);
    assert TopLevelFrom(Ntf2iFirstHalf, 20);
    assert TopLevelFrom(Ntf2iFirstHalf, 19);
    assert TopLevelFrom(Ntf2iFirstHalf, 18);
    assert TopLevelFrom(Ntf2iFirstHalf, 17);
  }

  lemma Ntf2iFirstHalfFrom10()
    ensures TopLevelFrom(Ntf2iFirstHalf, 10)
  {
    Ntf2iFirstHalfFrom16();
    WellFormedAfterUpperD();
    WellFormedAfterUpperC();
    WellFormedAfterUpperB();
    WellFormedAfterUpperA();
    WellFormedAfterQuestion();
    WellFormedAfterGreater();
    assert TopLevelFrom(Ntf2iFirstHalf, 16);
    assert TopLevelFrom(Ntf2iFirstHalf, 15);
    assert TopLevelFrom(Ntf2iFirstHalf, 14);
    assert TopLevelFrom(Ntf2iFirstHalf, 13);
    assert TopLevelFrom(Ntf2iFirstHalf, 12);
    assert TopLevelFrom(Ntf2iFirstHalf, 11);
  }

  lemma Ntf2iFirstHalfFrom4()
    ensures TopLevelFrom(Ntf2iFirstHalf, 4)
  {
    Ntf2iFirstHalfFrom10();
    WellFormedAfterEquals();
    WellFormedAfterLess();
    WellFormedAfterColon();
    WellFormedAfterMinus();
    WellFormedAfterParen();
    assert TopLevelFrom(Ntf2iFirstHalf, 10);
    assert TopLevelFrom(Ntf2iFirstHalf, 9);
    assert TopLevelFrom(Ntf2iFirstHalf, 8);
    assert TopLevelFrom(Ntf2iFirstHalf, 7);
    assert TopLevelFrom(Ntf2iFirstHalf, 6);
    assert TopLevelFrom(Ntf2iFirstHalf, 5);
  }

  lemma Ntf2iFirstHalfFrom0()
    ensures TopLevelFrom(Ntf2iFirstHalf, 0)
  {
    Ntf2iFirstHalfFrom4();
    WellFormedAfterHash();
    WellFormedAfterBang();
    assert TopLevelFrom(Ntf2iFirstHalf, 4);
    assert TopLevelFrom(Ntf2iFirstHalf, 3);
    assert TopLevelFrom(Ntf2iFirstHalf, 2);
    assert TopLevelFrom(Ntf2iFirstHalf, 1);
  }

  lemma Ntf2iSecondHalfSorted()
    ensures AscendingFrom(Ntf2iSecondHalf, 0)
  {
    assert AscendingFrom(Ntf2iSecondHalf, 21);
    assert AscendingFrom(Ntf2iSecondHalf, 20);
    assert AscendingFrom(Ntf2iSecondHalf, 19);
    assert AscendingFrom(Ntf2iSecondHalf, 18);
    assert AscendingFrom(Ntf2iSecondHalf, 17);
    assert AscendingFrom(Ntf2iSecondHalf, 16);
    assert AscendingFrom(Ntf2iSecondHalf, 15);
    assert AscendingFrom(Ntf2iSecondHalf, 14);
    assert AscendingFrom(Ntf2iSecondHalf, 13);
    assert AscendingFrom(Ntf2iSecondHalf, 12);
    assert AscendingFrom(Ntf2iSecondHalf, 11);
    assert AscendingFrom(Ntf2iSecondHalf, 10);
    assert AscendingFrom(Ntf2iSecondHalf, 9);
    assert AscendingFrom(Ntf2iSecondHalf, 8);
    assert AscendingFrom(Ntf2iSecondHalf, 7);
    assert AscendingFrom(Ntf2iSecondHalf, 6);
    assert AscendingFrom(Ntf2iSecondHalf, 5);
    assert AscendingFrom(Ntf2iSecondHalf, 4);
    assert AscendingFrom(Ntf2iSecondHalf, 3);
    assert AscendingFrom(Ntf2iSecondHalf, 2);
    assert AscendingFrom(Ntf2iSecondHalf, 1);
  }

  lemma Ntf2iSecondHalfFrom16()
    ensures TopLevelFrom(Ntf2iSecondHalf, 16)
  {
    WellFormedAfterBar();
    WellFormedAfterBrace();
    assert TopLevelFrom(Ntf2iSecondHalf, 22);
    assert TopLevelFrom(Ntf2iSecondHalf, 21);
    assert TopLevelFrom(Ntf2iSecondHalf, 20);
    assert TopLevelFrom(Ntf2iSecondHalf, 19);
    assert TopLevelFrom(Ntf2iSecondHalf, 18);
    assert TopLevelFrom(Ntf2iSecondHalf, 17);
  }

  lemma Ntf2iSecondHalfFrom10()
    ensures TopLevelFrom(Ntf2iSecondHalf, 10)
  {
    Ntf2iSecondHalfFrom16();
    WellFormedAfterLowerI();
    assert TopLevelFrom(Ntf2iSecondHalf, 16);
    assert TopLevelFrom(Ntf2iSecondHalf, 15);
    assert TopLevelFrom(Ntf2iSecondHalf, 14);
    assert TopLevelFrom(Ntf2iSecondHalf, 13);
    assert TopLevelFrom(Ntf2iSecondHalf, 12);
    assert TopLevelFrom(Ntf2iSecondHalf, 11);
  }

  lemma Ntf2iSecondHalfFrom4()
    ensures TopLevelFrom(Ntf2iSecondHalf, 4)
  {
    Ntf2iSecondHalfFrom10();
    WellFormedAfterCaret();
    WellFormedAfterBracket();
    WellFormedAfterUpperZ();
    assert TopLevelFrom(Ntf2iSecondHalf, 10);
    assert TopLevelFrom(Ntf2iSecondHalf, 9);
    assert TopLevelFrom(Ntf2iSecondHalf, 8);
    assert TopLevelFrom(Ntf2iSecondHalf, 7);
    assert TopLevelFrom(Ntf2iSecondHalf, 6);
    assert TopLevelFrom(Ntf2iSecondHalf, 5);
  }

  lemma Ntf2iSecondHalfFrom0()
    ensures TopLevelFrom(Ntf2iSecondHalf, 0)
  {
    Ntf2iSecondHalfFrom4();
    WellFormedAfterUpperV();
    WellFormedAfterUpperU();
    WellFormedAfterUpperR();
    WellFormedAfterUpperP();
    assert TopLevelFrom(Ntf2iSecondHalf, 4);
    assert TopLevelFrom(Ntf2iSecondHalf, 3);
    assert TopLevelFrom(Ntf2iSecondHalf, 2);
    assert TopLevelFrom(Ntf2iSecondHalf, 1);
  }

  /** The top-level table is sorted, as the binary search over it requires (data.rs:230-1202). */
  lemma Ntf2iSorted()
    ensures KeysAscending(NTF2I)
  {
    Ntf2iFirstHalfSorted();
    Ntf2iSecondHalfSorted();
    AscendingConcat(Ntf2iFirstHalf, Ntf2iSecondHalf);
  }

  /**
   * Every top-level entry is a directive under its own character or a well-formed node:
   * every table below is sorted, every literal is followed by one table, and the literals on
   * the way to each id are the ones its kind carries.
   */
  lemma Ntf2iEntries()
    ensures forall i | 0 <= i < |NTF2I| :: TopLevelEntryOk(NTF2I[i])
  {
    Ntf2iFirstHalfFrom0();
    Ntf2iSecondHalfFrom0();
    forall i | 0 <= i < |NTF2I|
      ensures TopLevelEntryOk(NTF2I[i])
    {
      if i < |Ntf2iFirstHalf| {
        TopLevelFromAt(Ntf2iFirstHalf, 0, i);
      } else {
        TopLevelFromAt(Ntf2iSecondHalf, 0, i - |Ntf2iFirstHalf|);
      }
    }
  }

  /** One top-level entry, as `Ntf2iEntries` states for all of them. */
  lemma Ntf2iEntry(k: nat)
    requires k < |NTF2I|
    ensures TopLevelEntryOk(NTF2I[k])
  {
    Ntf2iEntries();
  }

  /** The four directives sit at the top level under their characters (data.rs:233, 235, 1143, 1201). */
  lemma Ntf2iDirectives()
    ensures Find(NTF2I, '\n') == Some(0) && NTF2I[0].node == Command(GoToNextRow)
    ensures Find(NTF2I, ' ') == Some(1) && NTF2I[1].node == Command(OneStepForward)
    ensures Find(NTF2I, '_') == Some(29) && NTF2I[29].node == Command(ThreeStepsForward)
    ensures Find(NTF2I, '~') == Some(43) && NTF2I[43].node == Command(GoToNextPage)
  {
    Ntf2iSorted();
    FindInSorted(NTF2I, 0);
    FindInSorted(NTF2I, 1);
    FindInSorted(NTF2I, 29);
    FindInSorted(NTF2I, 43);
  }
}
