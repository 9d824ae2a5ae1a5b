/**
 * Instructions, their kinds, the (page, row, column) cursor and the program grid. These types
 * live outside the decoder's files; the model declares them with the behaviour the decoder
 * relies on: `kind()` as read off the literal placeholders of the token tables, the cursor
 * moves as the decoder uses them, and a program of 3072 slots that `reset` fills with Empty.
 */
module Instructions {
  import opened Wrappers
  import opened Literals
  import Ids = InstructionIds

  datatype InstructionKind = Simple | Label | VarCmp | String

  /** The kind of an identifier: which payload its instructions carry. */
  function Kind(id: Ids.InstructionId): (k: InstructionKind)
  {
    if id == Ids.GoTo || id == Ids.GoSub || id == Ids.GoSub1 || id == Ids.GoSubF
      || id == Ids.Label || id == Ids.IfGoTo || id == Ids.IfNotGoTo || id == Ids.OnResp
    then Label
    else if id == Ids.VarLess || id == Ids.VarEqual || id == Ids.VarMore then VarCmp
    else if id == Ids.DebugSet || id == Ids.DebugBreak then String
    else Simple
  }

  /** The literals an instruction of a kind is built from, in the order tokens carry them. */
  function KindLiterals(k: InstructionKind): (ls: seq<LiteralType>)
    ensures |ls| <= 2 && (|ls| == 0 <==> k == Simple)
  {
    match k
    case Simple => []
    case Label => [LabelIdentifierLiteral]
    case VarCmp => [VariableIdentifierLiteral, VariableValueLiteral]
    case String => [StringLiteral]
  }

  datatype Payload =
    | NoPayload
    | LabelPayload(target: LabelIdentifier)
    | VarCmpPayload(name: VariableIdentifier, value: VariableValue)
    | StringPayload(text: StringText)

  function PayloadKind(p: Payload): InstructionKind {
    match p
    case NoPayload => Simple
    case LabelPayload(_) => Label
    case VarCmpPayload(_, _) => VarCmp
    case StringPayload(_) => String
  }

  datatype Instruction = Instruction(id: Ids.InstructionId, payload: Payload) {
    /** The invariant the constructors establish: the payload has the shape of the id's kind. */
    predicate WellFormed() {
      PayloadKind(payload) == Kind(id)
    }
  }

  /** The default instruction, which fills a reset program. */
  const EmptyInstruction := Instruction(Ids.Empty, NoPayload)

  datatype InstructionError = UnsupportedInstructionId(id: Ids.InstructionId)

  /** Shared shape of the four constructors: succeed exactly when the id has the payload's kind. */
  function Construct(id: Ids.InstructionId, p: Payload): (r: Result<Instruction, InstructionError>)
    ensures r.Ok? <==> Kind(id) == PayloadKind(p)
    ensures r.Ok? ==> r.value == Instruction(id, p) && r.value.WellFormed()
    ensures r.Err? ==> r.error == UnsupportedInstructionId(id)
  {
    if Kind(id) == PayloadKind(p) then Ok(Instruction(id, p)) else Err(UnsupportedInstructionId(id))
  }

  function NewSimple(id: Ids.InstructionId): (r: Result<Instruction, InstructionError>)
    ensures r.Ok? <==> Kind(id) == Simple
    ensures r.Ok? ==> r.value.id == id && r.value.payload == NoPayload
  {
    Construct(id, NoPayload)
  }

  function NewLabel(id: Ids.InstructionId, target: LabelIdentifier): (r: Result<Instruction, InstructionError>)
    ensures r.Ok? <==> Kind(id) == Label
    ensures r.Ok? ==> r.value.id == id && r.value.payload == LabelPayload(target)
  {
    Construct(id, LabelPayload(target))
  }

  function NewVarCmp(id: Ids.InstructionId, name: VariableIdentifier, value: VariableValue)
    : (r: Result<Instruction, InstructionError>)
    ensures r.Ok? <==> Kind(id) == VarCmp
    ensures r.Ok? ==> r.value.id == id && r.value.payload == VarCmpPayload(name, value)
  {
    Construct(id, VarCmpPayload(name, value))
  }

  function NewString(id: Ids.InstructionId, text: StringText): (r: Result<Instruction, InstructionError>)
    ensures r.Ok? <==> Kind(id) == String
    ensures r.Ok? ==> r.value.id == id && r.value.payload == StringPayload(text)
  {
    Construct(id, StringPayload(text))
  }

  /** The identifiers the game documents as taking a label, a comparison or a debug string. */
  lemma KindGroups()
    ensures Kind(Ids.GoTo) == Label && Kind(Ids.GoSub) == Label && Kind(Ids.GoSub1) == Label
    ensures Kind(Ids.GoSubF) == Label && Kind(Ids.Label) == Label && Kind(Ids.IfGoTo) == Label
    ensures Kind(Ids.IfNotGoTo) == Label && Kind(Ids.OnResp) == Label
    ensures Kind(Ids.VarLess) == VarCmp && Kind(Ids.VarEqual) == VarCmp && Kind(Ids.VarMore) == VarCmp
    ensures Kind(Ids.DebugSet) == String && Kind(Ids.DebugBreak) == String
    ensures Kind(Ids.Empty) == Simple && Kind(Ids.MoveW) == Simple && Kind(Ids.RotateCw) == Simple
  {
  }

  // ----- the cursor -----

  const PageCount := 16
  const RowCount := 12
  const ColumnCount := 16
  const RowSize := 16
  const PageSize := 192
  const ProgramSize := 3072

  datatype InstructionPosition = InstructionPosition(page: nat, row: nat, column: nat) {
    predicate Valid() {
      page < PageCount && row < RowCount && column < ColumnCount
    }
  }

  /** The slot a position addresses. */
  function Flat(p: InstructionPosition): (k: nat)
    requires p.Valid()
    ensures k < ProgramSize
  {
    p.page * PageSize + p.row * RowSize + p.column
  }

  /** A slot's index gives back its page, row and column. */
  lemma FlatParts(p: InstructionPosition)
    requires p.Valid()
    ensures Flat(p) / PageSize == p.page && Flat(p) % PageSize / RowSize == p.row && Flat(p) % RowSize == p.column
  {
  }

  /** The position of a slot. */
  function PositionOf(k: nat): (p: InstructionPosition)
    requires k < ProgramSize
    ensures p.Valid() && Flat(p) == k
  {
    InstructionPosition(k / PageSize, k % PageSize / RowSize, k % RowSize)
  }

  lemma PositionOfFlat(p: InstructionPosition)
    requires p.Valid()
    ensures PositionOf(Flat(p)) == p
  {
    FlatParts(p);
  }

  const DefaultPosition := InstructionPosition(0, 0, 0)

  datatype PositionError = InstructionPositionConstructionError | InstructionPositionOverflowError

  function NewPosition(page: nat, row: nat, column: nat): (r: Result<InstructionPosition, PositionError>)
    ensures r.Ok? <==> page < PageCount && row < RowCount && column < ColumnCount
    ensures r.Ok? ==> r.value.Valid() && r.value == InstructionPosition(page, row, column)
    ensures r.Err? ==> r.error == InstructionPositionConstructionError
  {
    var p := InstructionPosition(page, row, column);
    if p.Valid() then Ok(p) else Err(InstructionPositionConstructionError)
  }

  /** The next slot; fails on the last slot of the program. */
  function MoveForward(p: InstructionPosition): (r: Result<InstructionPosition, PositionError>)
    requires p.Valid()
    ensures r.Ok? <==> Flat(p) + 1 < ProgramSize
    ensures r.Ok? ==> r.value.Valid() && Flat(r.value) == Flat(p) + 1
    ensures r.Err? ==> r.error == InstructionPositionOverflowError
  {
    if Flat(p) + 1 < ProgramSize then Ok(PositionOf(Flat(p) + 1)) else Err(InstructionPositionOverflowError)
  }

  /** Three slots on, in one jump that either lands inside the program or fails. */
  function MoveThreeStepsForward(p: InstructionPosition): (r: Result<InstructionPosition, PositionError>)
    requires p.Valid()
    ensures r.Ok? <==> Flat(p) + 3 < ProgramSize
    ensures r.Ok? ==> r.value.Valid() && Flat(r.value) == Flat(p) + 3
    ensures r.Err? ==> r.error == InstructionPositionOverflowError
  {
    if Flat(p) + 3 < ProgramSize then Ok(PositionOf(Flat(p) + 3)) else Err(InstructionPositionOverflowError)
  }

  /** Column 0 of the next row, passing to the next page from the last row; fails on the last row of the last page. */
  function MoveToNextRow(p: InstructionPosition): (r: Result<InstructionPosition, PositionError>)
    requires p.Valid()
    ensures r.Ok? <==> !(p.page == PageCount - 1 && p.row == RowCount - 1)
    ensures r.Ok? ==> r.value.Valid() && r.value.column == 0 && Flat(r.value) == (Flat(p) / RowSize + 1) * RowSize
    ensures r.Err? ==> r.error == InstructionPositionOverflowError
  {
    if p.row + 1 < RowCount then Ok(InstructionPosition(p.page, p.row + 1, 0))
    else if p.page + 1 < PageCount then Ok(InstructionPosition(p.page + 1, 0, 0))
    else Err(InstructionPositionOverflowError)
  }

  /** Row 0, column 0 of the next page; fails on the last page. */
  function MoveToNextPage(p: InstructionPosition): (r: Result<InstructionPosition, PositionError>)
    requires p.Valid()
    ensures r.Ok? <==> p.page + 1 < PageCount
    ensures r.Ok? ==> r.value.Valid() && Flat(r.value) == (p.page + 1) * PageSize
    ensures r.Err? ==> r.error == InstructionPositionOverflowError
  {
    if p.page + 1 < PageCount then Ok(InstructionPosition(p.page + 1, 0, 0)) else Err(InstructionPositionOverflowError)
  }

  /** The documented cursor examples. */
  lemma MoveForwardExamples()
    ensures MoveForward(InstructionPosition(1, 2, 15)) == Ok(InstructionPosition(1, 3, 0))
    ensures MoveForward(InstructionPosition(1, 11, 15)) == Ok(InstructionPosition(2, 0, 0))
    ensures MoveForward(InstructionPosition(15, 11, 15)) == Err(InstructionPositionOverflowError)
  {
    PositionOfFlat(InstructionPosition(1, 3, 0));
    PositionOfFlat(InstructionPosition(2, 0, 0));
  }

  /** A three-step jump lands where three single steps do, and fails exactly when one of them would. */
  lemma ThreeStepsAreThreeSteps(p: InstructionPosition)
    requires p.Valid()
    ensures var r := MoveThreeStepsForward(p);
            var a := MoveForward(p);
            r.Ok? <==> (a.Ok? && MoveForward(a.value).Ok? && MoveForward(MoveForward(a.value).value).Ok?)
    ensures var r := MoveThreeStepsForward(p);
            r.Ok? ==> r.value == MoveForward(MoveForward(MoveForward(p).value).value).value
  {
    var r := MoveThreeStepsForward(p);
    if r.Ok? {
      PositionOfFlat(r.value);
      PositionOfFlat(MoveForward(MoveForward(MoveForward(p).value).value).value);
    }
  }

  // ----- the program -----

  /** The all-Empty program of a reset. */
  function EmptyProgram(): (prog: seq<Instruction>)
    ensures |prog| == ProgramSize
    ensures forall k | 0 <= k < ProgramSize :: prog[k] == EmptyInstruction
  {
    seq(ProgramSize, _ => EmptyInstruction)
  }

  /** The 3072 instruction slots of a program, addressed by flat index. */
  class Program {
    const slots: array<Instruction>

    predicate Valid()
      reads this
    {
      slots.Length == ProgramSize
    }

    /** A new program holds Empty everywhere. */
    constructor ()
      ensures Valid() && fresh(slots)
      ensures slots[..] == EmptyProgram()
    {
      slots := new Instruction[ProgramSize](_ => EmptyInstruction);
    }

    /** Overwrites every slot with the Empty instruction. */
    method Reset()
      requires Valid()
      modifies slots
      ensures slots[..] == EmptyProgram()
    {
      var k := 0;
      while k < ProgramSize
        invariant 0 <= k <= ProgramSize
        invariant forall j | 0 <= j < k :: slots[j] == EmptyInstruction
      {
        slots[k] := EmptyInstruction;
        k := k + 1;
      }
    }

    /** `program[position] = instruction`. */
    method Set(p: InstructionPosition, ins: Instruction)
      requires Valid() && p.Valid()
      modifies slots
      ensures slots[..] == old(slots[..])[Flat(p) := ins]
    {
      slots[Flat(p)] := ins;
    }
  }
}
