/**
 * The instruction identifiers of the game client (src/formats/internal/mod.rs).
 *
 * The source declares them as a field-less enumeration with explicit discriminants taken from the
 * client. An identifier is modelled here by its discriminant (`id as u8`), so that the documented
 * range [0, 182] and the documented unused codes become the constraint of the type: each named
 * constant below is checked against that constraint when it is declared. The enumeration has no
 * variant for `LAST` (code 13) or `RESTART`.
 */
module InstructionIds {

  /** The codes that no identifier uses: 13, 34, 41-42, 55-56, 61-73, 75, 78-118, 121-122, 124-130, 150-155. */
  predicate IsGapCode(k: int) {
    || k == 13 || k == 34 || 41 <= k <= 42 || 55 <= k <= 56 || 61 <= k <= 73 || k == 75
    || 78 <= k <= 118 || 121 <= k <= 122 || 124 <= k <= 130 || 150 <= k <= 155
  }

  /** A code that may carry an identifier: in [0, 182] and not a gap. */
  predicate IsIdCode(k: int) {
    0 <= k <= 182 && !IsGapCode(k)
  }

  newtype InstructionId = c: int | IsIdCode(c)

  const Empty: InstructionId := 0
  const Back: InstructionId := 1
  const Start: InstructionId := 2
  const End: InstructionId := 3
  const MoveW: InstructionId := 4
  const MoveA: InstructionId := 5
  const MoveS: InstructionId := 6
  const MoveD: InstructionId := 7
  const Digg: InstructionId := 8
  const LookW: InstructionId := 9
  const LookA: InstructionId := 10
  const LookS: InstructionId := 11
  const LookD: InstructionId := 12
  const MoveF: InstructionId := 14
  const RotateCcw: InstructionId := 15
  const RotateCw: InstructionId := 16
  const ActionBuild: InstructionId := 17
  const ActionGeo: InstructionId := 18
  const ActionRoad: InstructionId := 19
  const ActionHeal: InstructionId := 20
  const ActionQuadro: InstructionId := 21
  const ActionRandom: InstructionId := 22
  const ActionBibika: InstructionId := 23
  const GoTo: InstructionId := 24
  const GoSub: InstructionId := 25
  const GoSub1: InstructionId := 26
  const Return: InstructionId := 27
  const Return1: InstructionId := 28
  const CellWa: InstructionId := 29
  const CellSd: InstructionId := 30
  const CellW: InstructionId := 31
  const CellDw: InstructionId := 32
  const CellA: InstructionId := 33
  const CellD: InstructionId := 35
  const CellAs: InstructionId := 36
  const CellS: InstructionId := 37
  const BoolModeOr: InstructionId := 38
  const BoolModeAnd: InstructionId := 39
  const Label: InstructionId := 40
  const CcNotEmpty: InstructionId := 43
  const CcEmpty: InstructionId := 44
  const CcGravity: InstructionId := 45
  const CcCrystall: InstructionId := 46
  const CcAlive: InstructionId := 47
  const CcBolder: InstructionId := 48
  const CcSand: InstructionId := 49
  const CcRock: InstructionId := 50
  const CcDead: InstructionId := 51
  const CccRedRock: InstructionId := 52
  const CccBlackRock: InstructionId := 53
  const CcAcid: InstructionId := 54
  const CccQuadro: InstructionId := 57
  const CccRoad: InstructionId := 58
  const CccRedBlock: InstructionId := 59
  const CccYellowBlock: InstructionId := 60
  const CccBox: InstructionId := 74
  const CccOpor: InstructionId := 76
  const CccGreenBlock: InstructionId := 77
  const VarMore: InstructionId := 119
  const VarLess: InstructionId := 120
  const VarEqual: InstructionId := 123
  const CellWw: InstructionId := 131
  const CellAa: InstructionId := 132
  const CellSs: InstructionId := 133
  const CellDd: InstructionId := 134
  const CellF: InstructionId := 135
  const CellFf: InstructionId := 136
  const GoSubF: InstructionId := 137
  const ReturnF: InstructionId := 138
  const IfNotGoTo: InstructionId := 139
  const IfGoTo: InstructionId := 140
  const StdDigg: InstructionId := 141
  const StdBuild: InstructionId := 142
  const StdHeal: InstructionId := 143
  const ProgFlip: InstructionId := 144
  const StdMine: InstructionId := 145
  const CcGun: InstructionId := 146
  const FillGun: InstructionId := 147
  const CbHp: InstructionId := 148
  const CbHp50: InstructionId := 149
  const CellRightHand: InstructionId := 156
  const CellLeftHand: InstructionId := 157
  const ModeAutodiggOn: InstructionId := 158
  const ModeAutodiggOff: InstructionId := 159
  const ModeAgrOn: InstructionId := 160
  const ModeAgrOff: InstructionId := 161
  const ActionB1: InstructionId := 162
  const ActionB3: InstructionId := 163
  const ActionB2: InstructionId := 164
  const ActionWb: InstructionId := 165
  const OnResp: InstructionId := 166
  const ActionGeopack: InstructionId := 167
  const ActionZm: InstructionId := 168
  const ActionC190: InstructionId := 169
  const ActionPoly: InstructionId := 170
  const ActionUp: InstructionId := 171
  const ActionCraft: InstructionId := 172
  const ActionNano: InstructionId := 173
  const ActionRembot: InstructionId := 174
  const InvDirW: InstructionId := 175
  const InvDirA: InstructionId := 176
  const InvDirS: InstructionId := 177
  const InvDirD: InstructionId := 178
  const HandModeOn: InstructionId := 179
  const HandModeOff: InstructionId := 180
  const DebugBreak: InstructionId := 181
  const DebugSet: InstructionId := 182


  /** The discriminant of an identifier (`id as u8`): in [0, 182] and never a documented gap. */
  function Code(id: InstructionId): (c: nat)
    ensures c <= 182 && !IsGapCode(c)
  {
    assert IsIdCode(id as int);
    id as int
  }

  /** The identifiers are declared in strictly ascending order of code, so no two share one. */
  lemma DeclaredInAscendingOrder()
    ensures Empty < Back < Start < End < MoveW < MoveA < MoveS < MoveD < Digg < LookW < LookA <
      LookS < LookD < MoveF < RotateCcw < RotateCw < ActionBuild < ActionGeo < ActionRoad <
      ActionHeal < ActionQuadro < ActionRandom < ActionBibika < GoTo < GoSub < GoSub1 < Return <
      Return1 < CellWa < CellSd < CellW < CellDw < CellA < CellD < CellAs < CellS < BoolModeOr <
      BoolModeAnd < Label < CcNotEmpty < CcEmpty < CcGravity < CcCrystall < CcAlive < CcBolder <
      CcSand < CcRock < CcDead < CccRedRock < CccBlackRock < CcAcid < CccQuadro < CccRoad <
      CccRedBlock < CccYellowBlock < CccBox < CccOpor < CccGreenBlock < VarMore < VarLess <
      VarEqual < CellWw < CellAa < CellSs < CellDd < CellF < CellFf < GoSubF < ReturnF <
      IfNotGoTo < IfGoTo < StdDigg < StdBuild < StdHeal < ProgFlip < StdMine < CcGun < FillGun <
      CbHp < CbHp50 < CellRightHand < CellLeftHand < ModeAutodiggOn < ModeAutodiggOff < ModeAgrOn <
      ModeAgrOff < ActionB1 < ActionB3 < ActionB2 < ActionWb < OnResp < ActionGeopack < ActionZm <
      ActionC190 < ActionPoly < ActionUp < ActionCraft < ActionNano < ActionRembot < InvDirW <
      InvDirA < InvDirS < InvDirD < HandModeOn < HandModeOff < DebugBreak < DebugSet
  {
  }

  /** The number of codes in [lo, hi) that carry an identifier. */
  function IdCodesBetween(lo: int, hi: int): nat
    decreases hi - lo
  {
    if hi <= lo then 0 else IdCodesBetween(lo, hi - 1) + (if IsIdCode(hi - 1) then 1 else 0)
  }

  lemma {:induction false} CountSplit(a: int, b: int, c: int)
    requires a <= b <= c
    ensures IdCodesBetween(a, c) == IdCodesBetween(a, b) + IdCodesBetween(b, c)
    decreases c - b
  {
    if b < c {
      CountSplit(a, b, c - 1);
    }
  }

  /** A run [lo, hi) of consecutive codes that either all carry identifiers or are all gaps. */
  datatype Run = Run(lo: int, hi: int, used: bool)

  predicate RunIsUniform(r: Run) {
    0 <= r.lo <= r.hi <= 183 && forall k :: r.lo <= k < r.hi ==> (IsIdCode(k) <==> r.used)
  }

  lemma {:induction false} UniformRunCount(r: Run)
    requires RunIsUniform(r)
    ensures IdCodesBetween(r.lo, r.hi) == if r.used then r.hi - r.lo else 0
    decreases r.hi - r.lo
  {
    if r.lo < r.hi {
      UniformRunCount(Run(r.lo, r.hi - 1, r.used));
    }
  }

  /** The codes 0..182 cut at the documented gaps. */
  const CodeRuns: seq<Run> := [
    Run(0, 13, true), Run(13, 14, false), Run(14, 34, true), Run(34, 35, false), Run(35, 41,
    true), Run(41, 43, false), Run(43, 55, true), Run(55, 57, false), Run(57, 61, true), Run(61,
    74, false), Run(74, 75, true), Run(75, 76, false), Run(76, 78, true), Run(78, 119, false),
    Run(119, 121, true), Run(121, 123, false), Run(123, 124, true), Run(124, 131, false),
    Run(131, 150, true), Run(150, 156, false), Run(156, 183, true)
  ]

  /** The runs are uniform and follow each other from code 0. */
  predicate RunsPartitionFrom(i: nat)
    decreases |CodeRuns| - i
  {
    i >= |CodeRuns| ||
    (RunIsUniform(CodeRuns[i]) && (i == 0 ==> CodeRuns[i].lo == 0)
     && (i + 1 < |CodeRuns| ==> CodeRuns[i].hi == CodeRuns[i + 1].lo)
     && RunsPartitionFrom(i + 1))
  }

  /** The number of identifier codes in the first n runs. */
  function UsedInRuns(n: nat): nat
    requires n <= |CodeRuns|
  {
    if n == 0 then 0
    else UsedInRuns(n - 1) + (if CodeRuns[n - 1].used then CodeRuns[n - 1].hi - CodeRuns[n - 1].lo else 0)
  }

  lemma {:induction false} RunsCount(n: nat)
    requires n <= |CodeRuns| && RunsPartitionFrom(0)
    ensures IdCodesBetween(0, if n == 0 then 0 else CodeRuns[n - 1].hi) == UsedInRuns(n)
  {
    if n > 0 {
      RunsCount(n - 1);
      RunsPartitionAt(0, n - 1);
      CountSplit(0, CodeRuns[n - 1].lo, CodeRuns[n - 1].hi);
      UniformRunCount(CodeRuns[n - 1]);
    }
  }

  lemma {:induction false} RunsPartitionAt(i: nat, j: nat)
    requires i <= j < |CodeRuns| && RunsPartitionFrom(i)
    ensures RunIsUniform(CodeRuns[j]) && (j == 0 ==> CodeRuns[j].lo == 0)
    ensures j > 0 ==> CodeRuns[j - 1].hi == CodeRuns[j].lo
    decreases j - i
  {
    if i < j {
      RunsPartitionAt(i + 1, j);
    }
  }

  lemma CodeRunsFrom14()
    ensures RunsPartitionFrom(14)
  {
  }

  lemma CodeRunsFrom7()
    ensures RunsPartitionFrom(7)
  {
    CodeRunsFrom14();
  }

  /** The runs partition the codes 0..182, each run uniformly used or unused. */
  lemma CodeRunsPartition()
    ensures RunsPartitionFrom(0)
  {
    CodeRunsFrom7();
  }

  lemma RunsUseCodes()
    ensures |CodeRuns| == 21 && CodeRuns[20].hi == 183 && UsedInRuns(21) == 107
  {
    assert UsedInRuns(4) == 33;
    assert UsedInRuns(8) == 51;
    assert UsedInRuns(12) == 56;
    assert UsedInRuns(16) == 60;
    assert UsedInRuns(20) == 80;
  }

  /**
   * Exactly 107 codes carry an identifier: the 183 codes 0..182 less the 76 documented gaps,
   * one per declared identifier.
   */
  lemma IdentifierCount()
    ensures IdCodesBetween(0, 183) == 107
  {
    CodeRunsPartition();
    RunsCount(|CodeRuns|);
    RunsUseCodes();
  }

  /** `LAST` (code 13) has no variant. */
  lemma LastHasNoVariant()
    ensures forall id: InstructionId :: Code(id) != 13
  {
  }

  /** Four anchors of the numbering. */
  lemma AnchorCodes()
    ensures Code(MoveF) == 14 && Code(Label) == 40 && Code(VarEqual) == 123 && Code(DebugSet) == 182
  {
  }
}
