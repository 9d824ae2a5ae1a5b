/**
 * The client's names of the instructions (src/serialization/custom/assembly/mod.rs:8-202).
 *
 * `INSTRUCTIONS_NAMES` is indexed by an identifier's code; the codes no identifier uses hold
 * the empty string. The table is written out here in blocks of at most twenty entries, each
 * block starting at the code given in its name.
 */
module AssemblyNames {
  import opened InstructionIds

  const Names0: seq<string> := [
    "EMPTY", "BACK", "START", "END", "MOVE_W", "MOVE_A", "MOVE_S", "MOVE_D", "DIGG", "LOOK_W",
    "LOOK_A", "LOOK_S", "LOOK_D", "", "MOVE_F", "ROTATE_CCW", "ROTATE_CW", "ACTION_BUILD",
    "ACTION_GEO", "ACTION_ROAD"
  ]

  const Names20: seq<string> := [
    "ACTION_HEAL", "ACTION_QUADRO", "ACTION_RANDOM", "ACTION_BIBIKA", "GOTO", "GOSUB", "GOSUB1",
    "RETURN", "RETURN1", "CELL_WA", "CELL_SD", "CELL_W", "CELL_DW", "CELL_A", "", "CELL_D",
    "CELL_AS", "CELL_S", "BOOLMODE_OR", "BOOLMODE_AND"
  ]

  const Names40: seq<string> := [
    "LABEL", "", "", "CC_NOTEMPTY", "CC_EMPTY", "CC_GRAVITY", "CC_CRYSTALL", "CC_ALIVE",
    "CC_BOLDER", "CC_SAND", "CC_ROCK", "CC_DEAD", "CCC_REDROCK", "CCC_BLACKROCK", "CC_ACID", "",
    "", "CCC_QUADRO", "CCC_ROAD", "CCC_REDBLOCK"
  ]

  const Names60: seq<string> := [
    "CCC_YELLOWBLOCK", "", "", "", "", "", "", "", "", "", "", "", "", "", "CCC_BOX", "",
    "CCC_OPOR", "CCC_GREENBLOCK", "", ""
  ]

  const Names80: seq<string> := [
    "", "", "", "", "", "", "", "", "", "", "", "", "", "", "", "", "", "", "", ""
  ]

  const Names100: seq<string> := [
    "", "", "", "", "", "", "", "", "", "", "", "", "", "", "", "", "", "", "", "VAR_MORE"
  ]

  const Names120: seq<string> := [
    "VAR_LESS", "", "", "VAR_EQUAL", "", "", "", "", "", "", "", "CELL_WW", "CELL_AA", "CELL_SS",
    "CELL_DD", "CELL_F", "CELL_FF", "GOSUBF", "RETURNF", "IF_NOT_GOTO"
  ]

  const Names140: seq<string> := [
    "IF_GOTO", "STD_DIGG", "STD_BUILD", "STD_HEAL", "PROG_FLIP", "STD_MINE", "CC_GUN",
    "FILL_GUN", "CB_HP", "CB_HP50", "", "", "", "", "", "", "CELL_RIGHT_HAND", "CELL_LEFT_HAND",
    "MODE_AUTODIGG_ON", "MODE_AUTODIGG_OFF"
  ]

  const Names160: seq<string> := [
    "MODE_AGR_ON", "MODE_AGR_OFF", "ACTION_B1", "ACTION_B3", "ACTION_B2", "ACTION_WB", "ON_RESP",
    "ACTION_GEOPACK", "ACTION_ZM", "ACTION_C190", "ACTION_POLY", "ACTION_UP", "ACTION_CRAFT",
    "ACTION_NANO", "ACTION_REMBOT", "INVDIR_W", "INVDIR_A", "INVDIR_S", "INVDIR_D", "HANDMODE_ON"
  ]

  const Names180: seq<string> := [
    "HANDMODE_OFF", "DEBUG_BREAK", "DEBUG_SET"
  ]

  /** `INSTRUCTIONS_NAMES`: 183 names, one per code 0..182, the blocks laid end to end. */
  function InstructionsNames(): (names: seq<string>)
    ensures |names| == 183
  {
    seq(183, NameAt)
  }

  /** The name of code `k`, read from the block that holds it. */
  function NameAt(k: int): string
  {
    if k < 0 then "" else if k < 20 then Names0[k]
    else if k < 40 then Names20[k - 20]
    else if k < 60 then Names40[k - 40]
    else if k < 80 then Names60[k - 60]
    else if k < 100 then Names80[k - 80]
    else if k < 120 then Names100[k - 100]
    else if k < 140 then Names120[k - 120]
    else if k < 160 then Names140[k - 140]
    else if k < 180 then Names160[k - 160]
    else if k < 183 then Names180[k - 180] else ""
  }

  /** Entries `i` and on of a block are empty exactly at the gap codes. */
  predicate BlockMatchesGaps(block: seq<string>, base: nat, i: nat)
    decreases |block| - i
  {
    i >= |block| || ((block[i] == "" <==> IsGapCode(base + i)) && BlockMatchesGaps(block, base, i + 1))
  }

  lemma {:induction false} BlockMatchesGapsAt(block: seq<string>, base: nat, i: nat, j: nat)
    requires BlockMatchesGaps(block, base, i) && i <= j < |block|
    ensures block[j] == "" <==> IsGapCode(base + j)
    decreases j - i
  {
    if i < j {
      BlockMatchesGapsAt(block, base, i + 1, j);
    }
  }

  lemma Block0MatchesGaps()
    ensures BlockMatchesGaps(Names0, 0, 0)
  {
    assert BlockMatchesGaps(Names0, 0, 16);
    assert BlockMatchesGaps(Names0, 0, 12);
    assert BlockMatchesGaps(Names0, 0, 8);
    assert BlockMatchesGaps(Names0, 0, 4);
  }

  lemma Block20MatchesGaps()
    ensures BlockMatchesGaps(Names20, 20, 0)
  {
    assert BlockMatchesGaps(Names20, 20, 15);
    assert BlockMatchesGaps(Names20, 20, 10);
    assert BlockMatchesGaps(Names20, 20, 5);
  }

  lemma Block40MatchesGaps()
    ensures BlockMatchesGaps(Names40, 40, 0)
  {
    assert BlockMatchesGaps(Names40, 40, 15);
    assert BlockMatchesGaps(Names40, 40, 10);
    assert BlockMatchesGaps(Names40, 40, 5);
  }

  lemma Block60MatchesGaps()
    ensures BlockMatchesGaps(Names60, 60, 0)
  {
    assert BlockMatchesGaps(Names60, 60, 15);
    assert BlockMatchesGaps(Names60, 60, 10);
    assert BlockMatchesGaps(Names60, 60, 5);
  }

  lemma Block80MatchesGaps()
    ensures BlockMatchesGaps(Names80, 80, 0)
  {
    assert BlockMatchesGaps(Names80, 80, 15);
    assert BlockMatchesGaps(Names80, 80, 10);
    assert BlockMatchesGaps(Names80, 80, 5);
  }

  lemma Block100MatchesGaps()
    ensures BlockMatchesGaps(Names100, 100, 0)
  {
    assert BlockMatchesGaps(Names100, 100, 15);
    assert BlockMatchesGaps(Names100, 100, 10);
    assert BlockMatchesGaps(Names100, 100, 5);
  }

  lemma Block120MatchesGaps()
    ensures BlockMatchesGaps(Names120, 120, 0)
  {
    assert BlockMatchesGaps(Names120, 120, 15);
    assert BlockMatchesGaps(Names120, 120, 10);
    assert BlockMatchesGaps(Names120, 120, 5);
  }

  lemma Block140MatchesGaps()
    ensures BlockMatchesGaps(Names140, 140, 0)
  {
    assert BlockMatchesGaps(Names140, 140, 15);
    assert BlockMatchesGaps(Names140, 140, 10);
    assert BlockMatchesGaps(Names140, 140, 5);
  }

  lemma Block160MatchesGaps()
    ensures BlockMatchesGaps(Names160, 160, 0)
  {
    assert BlockMatchesGaps(Names160, 160, 15);
    assert BlockMatchesGaps(Names160, 160, 10);
    assert BlockMatchesGaps(Names160, 160, 5);
  }

  lemma Block180MatchesGaps()
    ensures BlockMatchesGaps(Names180, 180, 0)
  {
  }

  /** The entry of code `k` is empty exactly when `k` is a gap: codes 0 to 99. */
  lemma NameAtGapLow(k: nat)
    requires 0 <= k < 100
    ensures NameAt(k) == "" <==> IsGapCode(k)
  {
    if k < 20 {
      Block0MatchesGaps();
      BlockMatchesGapsAt(Names0, 0, 0, k - 0);
    } else if k < 40 {
      Block20MatchesGaps();
      BlockMatchesGapsAt(Names20, 20, 0, k - 20);
    } else if k < 60 {
      Block40MatchesGaps();
      BlockMatchesGapsAt(Names40, 40, 0, k - 40);
    } else if k < 80 {
      Block60MatchesGaps();
      BlockMatchesGapsAt(Names60, 60, 0, k - 60);
    } else {
      Block80MatchesGaps();
      BlockMatchesGapsAt(Names80, 80, 0, k - 80);
    }
  }

  /** The same for codes 100 to 182. */
  lemma NameAtGapHigh(k: nat)
    requires 100 <= k < 183
    ensures NameAt(k) == "" <==> IsGapCode(k)
  {
    if k < 120 {
      Block100MatchesGaps();
      BlockMatchesGapsAt(Names100, 100, 0, k - 100);
    } else if k < 140 {
      Block120MatchesGaps();
      BlockMatchesGapsAt(Names120, 120, 0, k - 120);
    } else if k < 160 {
      Block140MatchesGaps();
      BlockMatchesGapsAt(Names140, 140, 0, k - 140);
    } else if k < 180 {
      Block160MatchesGaps();
      BlockMatchesGapsAt(Names160, 160, 0, k - 160);
    } else {
      Block180MatchesGaps();
      BlockMatchesGapsAt(Names180, 180, 0, k - 180);
    }
  }

  /**
   * The table has one entry per code in [0, 182], and an entry is empty exactly when its code
   * is one of the documented gaps.
   */
  lemma NamesMatchGaps()
    ensures |InstructionsNames()| == 183
    ensures forall k | 0 <= k < 183 :: InstructionsNames()[k] == "" <==> IsGapCode(k)
  {
    forall k | 0 <= k < 183
      ensures InstructionsNames()[k] == "" <==> IsGapCode(k)
    {
      if k < 100 { NameAtGapLow(k); } else { NameAtGapHigh(k); }
    }
  }

  /**
   * `client_identifier`: the name at the identifier's code. The index is in bounds because
   * every code is at most 182, and the name is never empty because no identifier has a gap code.
   */
  function ClientIdentifier(id: InstructionId): (name: string)
    ensures name != ""
  {
    NamesMatchGaps();
    InstructionsNames()[Code(id)]
  }

  /** The lookups of the source's unit test. */
  lemma ClientIdentifierExamples()
    ensures ClientIdentifier(Empty) == "EMPTY" && ClientIdentifier(LookD) == "LOOK_D"
    ensures ClientIdentifier(MoveF) == "MOVE_F" && ClientIdentifier(CellA) == "CELL_A"
    ensures ClientIdentifier(CellD) == "CELL_D" && ClientIdentifier(Label) == "LABEL"
    ensures ClientIdentifier(CcNotEmpty) == "CC_NOTEMPTY" && ClientIdentifier(CcAcid) == "CC_ACID"
    ensures ClientIdentifier(CccQuadro) == "CCC_QUADRO"
    ensures ClientIdentifier(CccYellowBlock) == "CCC_YELLOWBLOCK"
  {
  }

  lemma ClientIdentifierExamplesContinued()
    ensures ClientIdentifier(CccBox) == "CCC_BOX" && ClientIdentifier(CccOpor) == "CCC_OPOR"
    ensures ClientIdentifier(CccGreenBlock) == "CCC_GREENBLOCK"
    ensures ClientIdentifier(VarMore) == "VAR_MORE" && ClientIdentifier(VarLess) == "VAR_LESS"
    ensures ClientIdentifier(VarEqual) == "VAR_EQUAL" && ClientIdentifier(CellWw) == "CELL_WW"
    ensures ClientIdentifier(CbHp50) == "CB_HP50"
    ensures ClientIdentifier(CellRightHand) == "CELL_RIGHT_HAND"
    ensures ClientIdentifier(DebugSet) == "DEBUG_SET"
  {
  }
}
