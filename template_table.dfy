/**
 * The table `I2NTF` as a whole (src/serialization/native/new/data.rs:21-227): one template per
 * identifier in ascending order of code, placeholders that match each identifier's kind, and
 * the lookup an encoder makes in it.
 */
module TemplateTable {
  import opened Wrappers
  import opened Instructions
  import opened NtfData
  import opened NtfTemplates
  import TemplatePaths
  import Ids = InstructionIds

  lemma Part0CoversFrom11()
    ensures CoversFrom(I2ntfPart0, 11)
  {
    assert CoversFrom(I2ntfPart0, 20);
    assert CoversFrom(I2ntfPart0, 19);
    assert CoversFrom(I2ntfPart0, 18);
    assert CoversFrom(I2ntfPart0, 17);
    assert CoversFrom(I2ntfPart0, 16);
    assert CoversFrom(I2ntfPart0, 15);
    assert CoversFrom(I2ntfPart0, 14);
    assert CoversFrom(I2ntfPart0, 13);
    assert CoversFrom(I2ntfPart0, 12);
  }

  lemma Part0Covers()
    ensures CoversFrom(I2ntfPart0, 0)
  {
    Part0CoversFrom11();
    assert CoversFrom(I2ntfPart0, 10);
    assert CoversFrom(I2ntfPart0, 9);
    assert CoversFrom(I2ntfPart0, 8);
    assert CoversFrom(I2ntfPart0, 7);
    assert CoversFrom(I2ntfPart0, 6);
    assert CoversFrom(I2ntfPart0, 5);
    assert CoversFrom(I2ntfPart0, 4);
    assert CoversFrom(I2ntfPart0, 3);
    assert CoversFrom(I2ntfPart0, 2);
    assert CoversFrom(I2ntfPart0, 1);
  }

  lemma Part0CorrectedCoversFrom11()
    ensures CoversFrom(I2ntfPart0Corrected, 11)
  {
    assert CoversFrom(I2ntfPart0Corrected, 20);
    assert CoversFrom(I2ntfPart0Corrected, 19);
    assert CoversFrom(I2ntfPart0Corrected, 18);
    assert CoversFrom(I2ntfPart0Corrected, 17);
    assert CoversFrom(I2ntfPart0Corrected, 16);
    assert CoversFrom(I2ntfPart0Corrected, 15);
    assert CoversFrom(I2ntfPart0Corrected, 14);
    assert CoversFrom(I2ntfPart0Corrected, 13);
    assert CoversFrom(I2ntfPart0Corrected, 12);
  }

  lemma Part0CorrectedCovers()
    ensures CoversFrom(I2ntfPart0Corrected, 0)
  {
    Part0CorrectedCoversFrom11();
    assert CoversFrom(I2ntfPart0Corrected, 10);
    assert CoversFrom(I2ntfPart0Corrected, 9);
    assert CoversFrom(I2ntfPart0Corrected, 8);
    assert CoversFrom(I2ntfPart0Corrected, 7);
    assert CoversFrom(I2ntfPart0Corrected, 6);
    assert CoversFrom(I2ntfPart0Corrected, 5);
    assert CoversFrom(I2ntfPart0Corrected, 4);
    assert CoversFrom(I2ntfPart0Corrected, 3);
    assert CoversFrom(I2ntfPart0Corrected, 2);
    assert CoversFrom(I2ntfPart0Corrected, 1);
  }

  lemma Part1CoversFrom11()
    ensures CoversFrom(I2ntfPart1, 11)
  {
    assert CoversFrom(I2ntfPart1, 20);
    assert CoversFrom(I2ntfPart1, 19);
    assert CoversFrom(I2ntfPart1, 18);
    assert CoversFrom(I2ntfPart1, 17);
    assert CoversFrom(I2ntfPart1, 16);
    assert CoversFrom(I2ntfPart1, 15);
    assert CoversFrom(I2ntfPart1, 14);
    assert CoversFrom(I2ntfPart1, 13);
    assert CoversFrom(I2ntfPart1, 12);
  }

  lemma Part1Covers()
    ensures CoversFrom(I2ntfPart1, 0)
  {
    Part1CoversFrom11();
    assert CoversFrom(I2ntfPart1, 10);
    assert CoversFrom(I2ntfPart1, 9);
    assert CoversFrom(I2ntfPart1, 8);
    assert CoversFrom(I2ntfPart1, 7);
    assert CoversFrom(I2ntfPart1, 6);
    assert CoversFrom(I2ntfPart1, 5);
    assert CoversFrom(I2ntfPart1, 4);
    assert CoversFrom(I2ntfPart1, 3);
    assert CoversFrom(I2ntfPart1, 2);
    assert CoversFrom(I2ntfPart1, 1);
  }

  lemma Part2CoversFrom11()
    ensures CoversFrom(I2ntfPart2, 11)
  {
    assert CoversFrom(I2ntfPart2, 20);
    assert CoversFrom(I2ntfPart2, 19);
    assert CoversFrom(I2ntfPart2, 18);
    assert CoversFrom(I2ntfPart2, 17);
    assert CoversFrom(I2ntfPart2, 16);
    assert CoversFrom(I2ntfPart2, 15);
    assert CoversFrom(I2ntfPart2, 14);
    assert CoversFrom(I2ntfPart2, 13);
    assert CoversFrom(I2ntfPart2, 12);
  }

  lemma Part2Covers()
    ensures CoversFrom(I2ntfPart2, 0)
  {
    Part2CoversFrom11();
    assert CoversFrom(I2ntfPart2, 10);
    assert CoversFrom(I2ntfPart2, 9);
    assert CoversFrom(I2ntfPart2, 8);
    assert CoversFrom(I2ntfPart2, 7);
    assert CoversFrom(I2ntfPart2, 6);
    assert CoversFrom(I2ntfPart2, 5);
    assert CoversFrom(I2ntfPart2, 4);
    assert CoversFrom(I2ntfPart2, 3);
    assert CoversFrom(I2ntfPart2, 2);
    assert CoversFrom(I2ntfPart2, 1);
  }

  lemma Part3CoversFrom11()
    ensures CoversFrom(I2ntfPart3, 11)
  {
    assert CoversFrom(I2ntfPart3, 20);
    assert CoversFrom(I2ntfPart3, 19);
    assert CoversFrom(I2ntfPart3, 18);
    assert CoversFrom(I2ntfPart3, 17);
    assert CoversFrom(I2ntfPart3, 16);
    assert CoversFrom(I2ntfPart3, 15);
    assert CoversFrom(I2ntfPart3, 14);
    assert CoversFrom(I2ntfPart3, 13);
    assert CoversFrom(I2ntfPart3, 12);
  }

  lemma Part3Covers()
    ensures CoversFrom(I2ntfPart3, 0)
  {
    Part3CoversFrom11();
    assert CoversFrom(I2ntfPart3, 10);
    assert CoversFrom(I2ntfPart3, 9);
    assert CoversFrom(I2ntfPart3, 8);
    assert CoversFrom(I2ntfPart3, 7);
    assert CoversFrom(I2ntfPart3, 6);
    assert CoversFrom(I2ntfPart3, 5);
    assert CoversFrom(I2ntfPart3, 4);
    assert CoversFrom(I2ntfPart3, 3);
    assert CoversFrom(I2ntfPart3, 2);
    assert CoversFrom(I2ntfPart3, 1);
  }

  lemma Part4CoversFrom9()
    ensures CoversFrom(I2ntfPart4, 9)
  {
    assert CoversFrom(I2ntfPart4, 17);
    assert CoversFrom(I2ntfPart4, 16);
    assert CoversFrom(I2ntfPart4, 15);
    assert CoversFrom(I2ntfPart4, 14);
    assert CoversFrom(I2ntfPart4, 13);
    assert CoversFrom(I2ntfPart4, 12);
    assert CoversFrom(I2ntfPart4, 11);
    assert CoversFrom(I2ntfPart4, 10);
  }

  lemma Part4Covers()
    ensures CoversFrom(I2ntfPart4, 0)
  {
    Part4CoversFrom9();
    assert CoversFrom(I2ntfPart4, 8);
    assert CoversFrom(I2ntfPart4, 7);
    assert CoversFrom(I2ntfPart4, 6);
    assert CoversFrom(I2ntfPart4, 5);
    assert CoversFrom(I2ntfPart4, 4);
    assert CoversFrom(I2ntfPart4, 3);
    assert CoversFrom(I2ntfPart4, 2);
    assert CoversFrom(I2ntfPart4, 1);
  }

  /** The five parts join without a missing identifier between them. */
  lemma PartsJoin()
    ensures Ids.Code(I2ntfPart0[21].0) + 1 == Ids.Code(I2ntfPart1[0].0)
    ensures Ids.Code(I2ntfPart1[21].0) + 1 == Ids.Code(I2ntfPart2[0].0)
    ensures Ids.Code(I2ntfPart2[21].0) + 1 == Ids.Code(I2ntfPart3[0].0)
    ensures Ids.Code(I2ntfPart3[21].0) + 1 == Ids.Code(I2ntfPart4[0].0)
    ensures Ids.Code(I2ntfPart0[0].0) == 0 && Ids.Code(I2ntfPart4[18].0) == 182
  {
  }

  lemma {:induction false} JoinCovers(a: seq<TemplateEntry>, b: seq<TemplateEntry>)
    requires 0 < |a| && 0 < |b| && CoversFrom(a, 0) && CoversFrom(b, 0)
    requires Ids.Code(a[|a| - 1].0) + 1 == Ids.Code(b[0].0)
    ensures CoversFrom(a + b, 0) && (a + b)[0] == a[0] && (a + b)[|a + b| - 1] == b[|b| - 1]
  {
    CoversConcat(a, b, 0);
  }

  /** The table as written holds 107 entries, exactly one per identifier, in strictly ascending order of code. */
  lemma WrittenCoversAllIds()
    ensures |I2NTF| == 107 && CoversAllIds(I2NTF)
  {
    Part0Covers();
    Part1Covers();
    Part2Covers();
    Part3Covers();
    Part4Covers();
    PartsJoin();
    JoinCovers(I2ntfPart0, I2ntfPart1);
    JoinCovers(I2ntfPart0 + I2ntfPart1, I2ntfPart2);
    JoinCovers(I2ntfPart0 + I2ntfPart1 + I2ntfPart2, I2ntfPart3);
    JoinCovers(I2ntfPart0 + I2ntfPart1 + I2ntfPart2 + I2ntfPart3, I2ntfPart4);
  }

  /** So does the corrected table. */
  lemma CorrectedCoversAllIds()
    ensures |I2NTFCorrected| == 107 && CoversAllIds(I2NTFCorrected)
  {
    Part0CorrectedCovers();
    Part1Covers();
    Part2Covers();
    Part3Covers();
    Part4Covers();
    PartsJoin();
    assert |I2ntfPart0Corrected| == 22 && I2ntfPart0Corrected[21].0 == I2ntfPart0[21].0 && I2ntfPart0Corrected[0].0 == I2ntfPart0[0].0;
    JoinCovers(I2ntfPart0Corrected, I2ntfPart1);
    JoinCovers(I2ntfPart0Corrected + I2ntfPart1, I2ntfPart2);
    JoinCovers(I2ntfPart0Corrected + I2ntfPart1 + I2ntfPart2, I2ntfPart3);
    JoinCovers(I2ntfPart0Corrected + I2ntfPart1 + I2ntfPart2 + I2ntfPart3, I2ntfPart4);
  }

  /** Both tables hold 107 entries, exactly one per identifier, in strictly ascending order of code. */
  lemma TemplatesCoverAllIds()
    ensures |I2NTF| == 107 && CoversAllIds(I2NTF)
    ensures |I2NTFCorrected| == 107 && CoversAllIds(I2NTFCorrected)
  {
    WrittenCoversAllIds();
    CorrectedCoversAllIds();
  }

  /** Every identifier has exactly one entry in the table as written. */
  lemma OneTemplatePerId(id: Ids.InstructionId)
    ensures FindTemplateFrom(I2NTF, id, 0).Some?
    ensures forall k | 0 <= k < |I2NTF| && I2NTF[k].0 == id :: k == FindTemplateFrom(I2NTF, id, 0).value
  {
    TemplatesCoverAllIds();
    EveryIdOnce(I2NTF, id);
  }

  /** The placeholders of every template are the literals its identifier's kind carries (data.rs:21-227). */
  lemma PlaceholdersMatchKind()
    ensures forall k | 0 <= k < |I2NTF| :: Placeholders(I2NTF[k].1, 0) == KindLiterals(Kind(I2NTF[k].0))
  {
    TemplatePaths.CorrectedTemplatesLead();
    TemplatePaths.RotateCwTemplateAsWritten();
    forall k | 0 <= k < |I2NTF|
      ensures Placeholders(I2NTF[k].1, 0) == KindLiterals(Kind(I2NTF[k].0))
    {
      if k == 15 {
        assert Placeholders(I2NTF[k].1, 1) == [];
      } else {
        ShapedPlaceholders(I2NTF[k].0, I2NTF[k].1);
      }
    }
  }

  /**
   * `ActionB3` is spelled `B2;` and `ActionB2` is spelled `B3;` (data.rs:186-187), and the trie
   * maps the two tokens back the same crossed way (data.rs:546-561).
   */
  lemma B2B3Crossed()
    ensures I2NTF[87] == (Ids.ActionB3, [Text("B2;")]) && I2NTF[88] == (Ids.ActionB2, [Text("B3;")])
    ensures TemplateTarget([Text("B2;")]) == Some(Id(Ids.ActionB3))
    ensures TemplateTarget([Text("B3;")]) == Some(Id(Ids.ActionB2))
  {
    assert I2NTF[87] == I2ntfPart3[21] && I2NTF[88] == I2ntfPart4[0];
    TemplatePaths.TemplateActionB3();
    TemplatePaths.TemplateActionB2();
  }

  // ----- the lookup -----

  /** The template of an identifier in the corrected table. */
  function TemplateOf(id: Ids.InstructionId): (parts: seq<TemplatePart>)
  {
    TemplatesCoverAllIds();
    EveryIdOnce(I2NTFCorrected, id);
    I2NTFCorrected[FindTemplateFrom(I2NTFCorrected, id, 0).value].1
  }

  /** Every template is shaped for its id's kind and leads through the trie to what it stands for. */
  lemma TemplateOfLeads(id: Ids.InstructionId)
    ensures Shaped(id, TemplateOf(id)) && TemplateTarget(TemplateOf(id)) == Some(Expected(id))
  {
    TemplatesCoverAllIds();
    EveryIdOnce(I2NTFCorrected, id);
    TemplatePaths.CorrectedTemplatesLead();
  }

  /** The template of `id` is the one its entry in the corrected table holds. */
  lemma TemplateOfAt(id: Ids.InstructionId, k: nat)
    requires k < |I2NTFCorrected| && I2NTFCorrected[k].0 == id
    ensures TemplateOf(id) == I2NTFCorrected[k].1
  {
    TemplatesCoverAllIds();
    EveryIdOnce(I2NTFCorrected, id);
  }

  /** The token of an instruction: its template with the payload's literals written in. */
  function TokenText(ins: Instruction): string {
    Render(TemplateOf(ins.id), ins.payload, 0)
  }
}
