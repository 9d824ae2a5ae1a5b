/**
 * The fail-fast New Text Format decoder, `TextFormatDeserializer`
 * (src/serialization/native/new/mod.rs:190-390).
 *
 * The decoder checks the leading `$`, resets the program and then decodes token after token:
 * a token is a walk down the `NTF2I` trie from the entry of its first character, reading a
 * literal wherever the trie asks for one. An instruction is written at the cursor, which then
 * moves one slot forward; a directive only moves the cursor. The first error stops decoding.
 *
 * The functions below state what each step computes; the class beside them carries the
 * decoder's state and its methods are proved to compute exactly those functions.
 */
module DecoderV1 {
  import opened Wrappers
  import opened Literals
  import opened Instructions
  import opened NtfData
  import NtfShape
  import Ids = InstructionIds

  /**
   * The errors of `deserialize` (mod.rs:129-136). `LiteralIsTooLong` is declared by the source
   * but never raised, and has no counterpart here.
   */
  datatype DecodeError =
    | MagicNotFoundError
    | IllegalMagicError(illegalMagic: char)
    | UnknownInstruction(index: nat)
    | InstructionPositionOverflowError

  /** What one token stands for: a cursor directive or an instruction (mod.rs:170-174). */
  datatype Token = Directive(command: Command) | Decoded(instruction: Instruction)

  /** The result of a step together with the number of characters consumed after it. */
  datatype Scan<T> = Scan(outcome: Result<T, DecodeError>, next: nat)

  /**
   * The registers of one token (mod.rs:249-253): the literals read so far and the lookahead
   * a literal parser stopped at, which the next table matches instead of a fresh character.
   */
  datatype Registers = Registers(
    target: Option<LabelIdentifier>,
    text: Option<StringText>,
    name: Option<VariableIdentifier>,
    value: Option<VariableValue>,
    nextChar: Option<char>)

  const NoRegisters := Registers(None, None, None, None, None)

  /** The register of a literal type is filled. */
  predicate Holds(regs: Registers, lt: LiteralType) {
    match lt
    case LabelIdentifierLiteral => regs.target.Some?
    case StringLiteral => regs.text.Some?
    case VariableIdentifierLiteral => regs.name.Some?
    case VariableValueLiteral => regs.value.Some?
  }

  predicate HoldsAll(regs: Registers, lits: seq<LiteralType>) {
    forall k | 0 <= k < |lits| :: Holds(regs, lits[k])
  }

  /**
   * Reads a literal of type `lt` from character `i` into its register (mod.rs:288-342). The
   * parser consumes the character it stops at; that character, when there is one, becomes the
   * lookahead, and otherwise the lookahead is left as it was.
   */
  function ReadLiteral(s: string, i: nat, lt: LiteralType, regs: Registers): (r: (Registers, nat))
    requires i <= |s|
    ensures i <= r.1 <= |s|
    ensures Holds(r.0, lt)
    ensures forall other | Holds(regs, other) :: Holds(r.0, other)
    ensures r.1 == |s| || (i < r.1 && r.0.nextChar == Some(s[r.1 - 1]))
  {
    match lt
    case LabelIdentifierLiteral =>
      var p := ParseLabelIdentifier(s, i);
      (regs.(target := Some(p.literal), nextChar := if p.lookahead.Some? then p.lookahead else regs.nextChar), p.next)
    case StringLiteral =>
      var p := ParseString(s, i);
      (regs.(text := Some(p.literal), nextChar := if p.lookahead.Some? then p.lookahead else regs.nextChar), p.next)
    case VariableIdentifierLiteral =>
      var p := ParseVariableIdentifier(s, i);
      (regs.(name := Some(p.literal), nextChar := if p.lookahead.Some? then p.lookahead else regs.nextChar), p.next)
    case VariableValueLiteral =>
      var p := ParseVariableValue(s, i);
      (regs.(value := Some(p.literal), nextChar := if p.lookahead.Some? then p.lookahead else regs.nextChar), p.next)
  }

  /**
   * The instruction an id leaf builds from the registers (mod.rs:264-287). The registers its
   * kind needs are filled, so none of the source's `unwrap` calls can fail.
   */
  function Complete(id: Ids.InstructionId, regs: Registers): (ins: Instruction)
    requires HoldsAll(regs, KindLiterals(Kind(id)))
    ensures ins.id == id && ins.WellFormed()
    ensures Kind(id) == Label ==> regs.target.Some? && ins.payload == LabelPayload(regs.target.value)
    ensures Kind(id) == String ==> regs.text.Some? && ins.payload == StringPayload(regs.text.value)
    ensures Kind(id) == VarCmp ==> regs.name.Some? && regs.value.Some? && ins.payload == VarCmpPayload(regs.name.value, regs.value.value)
  {
    match Kind(id)
    case Simple => NewSimple(id).value
    case Label =>
      assert Holds(regs, KindLiterals(Label)[0]);
      NewLabel(id, regs.target.value).value
    case String =>
      assert Holds(regs, KindLiterals(String)[0]);
      NewString(id, regs.text.value).value
    case VarCmp =>
      assert Holds(regs, KindLiterals(VarCmp)[0]) && Holds(regs, KindLiterals(VarCmp)[1]);
      NewVarCmp(id, regs.name.value, regs.value.value).value
  }

  /**
   * The inner loop of `parse_next` (mod.rs:259-364): the walk from node `n` with `i`
   * characters consumed. A table matches the lookahead when there is one and otherwise the
   * next character; a character no entry holds, or the end of the text where a character is
   * needed, is an unknown instruction at `index`, the first character of the token.
   */
  function Walk(s: string, i: nat, n: NtfNode, regs: Registers, lits: seq<LiteralType>, index: nat): (r: Scan<Token>)
    requires i <= |s|
    requires n.Command? || (WellFormed(n, lits) && HoldsAll(regs, lits))
    ensures i <= r.next <= |s|
    ensures r.outcome.Err? ==> r.outcome.error == UnknownInstruction(index)
    ensures r.outcome.Ok? && r.outcome.value.Decoded? ==> r.outcome.value.instruction.WellFormed()
    ensures r.outcome.Ok? && r.outcome.value.Directive? ==> n.Command?
    decreases n
  {
    match n
    case Command(c) => Scan(Ok(Directive(c)), i)
    case Id(id) => Scan(Ok(Decoded(Complete(id, regs))), i)
    case Literal(lt, next) =>
      var (regs', j) := ReadLiteral(s, i, lt, regs);
      Walk(s, j, next[0], regs', lits + [lt], index)
    case Chars(t) =>
      if regs.nextChar.None? && i == |s| then
        Scan(Err(UnknownInstruction(index)), i)
      else
        var (c, j) := if regs.nextChar.Some? then (regs.nextChar.value, i) else (s[i], i + 1);
        match Find(t, c)
        case None => Scan(Err(UnknownInstruction(index)), j)
        case Some(k) =>
          ChildOfWellFormed(n, lits, k);
          Walk(s, j, t[k].node, regs, lits, index)
  }

  /** A top-level table: every entry is a directive under its character or a well-formed node. */
  predicate TopLevel(t: seq<Entry>) {
    forall k | 0 <= k < |t| :: TopLevelEntryOk(t[k])
  }

  /**
   * `parse_next` (mod.rs:241-369) over the top-level table `t`: nothing at the end of the
   * text, otherwise the token that starts at character `i`; every error it reports is an
   * unknown instruction at `i`.
   */
  function TokenIn(t: seq<Entry>, s: string, i: nat): (r: Scan<Option<Token>>)
    requires TopLevel(t) && i <= |s|
    ensures i <= r.next <= |s|
    ensures r.outcome == Ok(None) <==> i == |s|
    ensures r.outcome.Ok? && r.outcome.value.Some? ==> i < r.next
    ensures r.outcome.Err? ==> r.outcome.error == UnknownInstruction(i)
    ensures i < |s| && Find(t, s[i]).None? ==> r == Scan(Err(UnknownInstruction(i)), i + 1)
    ensures r.outcome.Ok? && r.outcome.value.Some? && r.outcome.value.value.Directive? ==>
      r.next == i + 1 && IsDirective(s[i], r.outcome.value.value.command)
  {
    if i == |s| then Scan(Ok(None), i)
    else
      match Find(t, s[i])
      case None => Scan(Err(UnknownInstruction(i)), i + 1)
      case Some(k) =>
        assert TopLevelEntryOk(t[k]);
        var w := Walk(s, i + 1, t[k].node, NoRegisters, [], i);
        Scan(if w.outcome.Ok? then Ok(Some(w.outcome.value)) else Err(w.outcome.error), w.next)
  }

  /** `parse_next` over the source's table `NTF2I`. */
  function TokenAt(s: string, i: nat): (r: Scan<Option<Token>>)
    requires i <= |s|
    ensures i <= r.next <= |s|
    ensures r.outcome == Ok(None) <==> i == |s|
    ensures r.outcome.Ok? && r.outcome.value.Some? ==> i < r.next
    ensures r.outcome.Err? ==> r.outcome.error == UnknownInstruction(i)
    ensures i < |s| && Find(NTF2I, s[i]).None? ==> r == Scan(Err(UnknownInstruction(i)), i + 1)
    ensures r.outcome.Ok? && r.outcome.value.Some? && r.outcome.value.value.Directive? ==>
      r.next == i + 1 && IsDirective(s[i], r.outcome.value.value.command)
  {
    NtfShape.Ntf2iEntries();
    TokenIn(NTF2I, s, i)
  }

  /** The cursor move of a directive (mod.rs:220-237): it only ever moves forward. */
  function MoveBy(c: Command, p: InstructionPosition): (r: Result<InstructionPosition, PositionError>)
    requires p.Valid()
    ensures r.Ok? ==> r.value.Valid() && Flat(p) < Flat(r.value)
    ensures r.Err? ==> r.error == PositionError.InstructionPositionOverflowError
    ensures c == OneStepForward ==> r == MoveForward(p)
    ensures c == ThreeStepsForward ==> r == MoveThreeStepsForward(p)
    ensures c == GoToNextRow ==> r == MoveToNextRow(p)
    ensures c == GoToNextPage ==> r == MoveToNextPage(p)
  {
    match c
    case OneStepForward => MoveForward(p)
    case ThreeStepsForward => MoveThreeStepsForward(p)
    case GoToNextRow => MoveToNextRow(p)
    case GoToNextPage => MoveToNextPage(p)
  }

  /** The state a call of `deserialize` leaves behind, with what it returns. */
  datatype Outcome = Outcome(
    result: Result<(), DecodeError>,
    cursor: nat,
    position: InstructionPosition,
    program: seq<Instruction>)

  /**
   * The loop of `deserialize` (mod.rs:212-239) over the top-level table `t`, from character
   * `i`: an instruction is written at the cursor before the cursor moves one slot; a directive
   * moves the cursor and writes nothing; a failed move stops with an overflow, after the write.
   */
  function RunIn(t: seq<Entry>, s: string, i: nat, pos: InstructionPosition, prog: seq<Instruction>): (o: Outcome)
    requires TopLevel(t) && i <= |s| && pos.Valid() && |prog| == ProgramSize
    ensures o.cursor <= |s| && o.position.Valid() && |o.program| == ProgramSize
    ensures o.result.Ok? ==> o.cursor == |s|
    ensures o.result.Err? ==> o.result.error.UnknownInstruction? || o.result.error == DecodeError.InstructionPositionOverflowError
    decreases |s| - i
  {
    var step := TokenIn(t, s, i);
    match step.outcome
    case Err(e) => Outcome(Err(e), step.next, pos, prog)
    case Ok(None) => Outcome(Ok(()), step.next, pos, prog)
    case Ok(Some(Decoded(ins))) =>
      var prog' := prog[Flat(pos) := ins];
      (match MoveForward(pos)
       case Err(_) => Outcome(Err(DecodeError.InstructionPositionOverflowError), step.next, pos, prog')
       case Ok(p') => RunIn(t, s, step.next, p', prog'))
    case Ok(Some(Directive(c))) =>
      (match MoveBy(c, pos)
       case Err(_) => Outcome(Err(DecodeError.InstructionPositionOverflowError), step.next, pos, prog)
       case Ok(p') => RunIn(t, s, step.next, p', prog))
  }

  /** The loop of `deserialize` over the source's table `NTF2I`. */
  function Run(s: string, i: nat, pos: InstructionPosition, prog: seq<Instruction>): (o: Outcome)
    requires i <= |s| && pos.Valid() && |prog| == ProgramSize
    ensures o.cursor <= |s| && o.position.Valid() && |o.program| == ProgramSize
    ensures o.result.Ok? ==> o.cursor == |s|
    ensures o.result.Err? ==> o.result.error.UnknownInstruction? || o.result.error == DecodeError.InstructionPositionOverflowError
  {
    NtfShape.Ntf2iEntries();
    RunIn(NTF2I, s, i, pos, prog)
  }

  /**
   * `deserialize` (mod.rs:209-240) over the top-level table `t`, on the text `s` with `i`
   * characters already consumed: a missing or wrong magic is reported before the program is
   * touched; after a `$` the program is reset to all-Empty and the tokens are decoded into it.
   */
  function DeserializeIn(t: seq<Entry>, s: string, i: nat, pos: InstructionPosition, prog: seq<Instruction>): (o: Outcome)
    requires TopLevel(t) && i <= |s| && pos.Valid() && |prog| == ProgramSize
    ensures o.result == Err(MagicNotFoundError) <==> i == |s|
    ensures o.result.Err? && o.result.error.IllegalMagicError? <==> i < |s| && s[i] != '$'
    ensures i < |s| && s[i] != '$' ==> o.result.error.illegalMagic == s[i]
    ensures i == |s| || s[i] != '$' ==> o.program == prog && o.position == pos
    ensures i < |s| && s[i] == '$' ==> o == RunIn(t, s, i + 1, pos, EmptyProgram())
  {
    if i == |s| then Outcome(Err(MagicNotFoundError), i, pos, prog)
    else if s[i] != '$' then Outcome(Err(IllegalMagicError(s[i])), i + 1, pos, prog)
    else RunIn(t, s, i + 1, pos, EmptyProgram())
  }

  /** Decoding a whole text with a fresh decoder: `new_from_str` then `deserialize`. */
  function Decode(s: string, prog: seq<Instruction>): Outcome
    requires |prog| == ProgramSize
  {
    NtfShape.Ntf2iEntries();
    DeserializeIn(NTF2I, s, 0, DefaultPosition, prog)
  }

  /** The decoder's state: the text, how much of it is consumed, the cursor and the program. */
  class TextFormatDeserializer {
    const input: string
    /** The table the decoder reads, `NTF2I` (data.rs:230-1202). */
    const trie: seq<Entry>
    var consumed: nat
    var position: InstructionPosition
    const program: Program

    /** The table is a top-level table, sorted for the binary search. */
    predicate TrieOk() {
      TopLevel(trie) && KeysAscending(trie)
    }

    predicate Valid()
      reads this, program
    {
      consumed <= |input| && position.Valid() && program.Valid() && TrieOk()
    }

    /** `new_from_str` (mod.rs:201-208). */
    constructor (prog: Program, s: string)
      requires prog.Valid()
      ensures Valid()
      ensures input == s && trie == NTF2I && consumed == 0 && position == DefaultPosition && program == prog
    {
      NtfShape.Ntf2iEntries();
      NtfShape.Ntf2iSorted();
      input := s;
      trie := NTF2I;
      consumed := 0;
      position := DefaultPosition;
      program := prog;
    }

    /** `check_magic` (mod.rs:370-382): consumes one character, which must be `$`. */
    method CheckMagic() returns (r: Result<(), DecodeError>)
      requires Valid()
      modifies this
      ensures Valid() && position == old(position)
      ensures old(consumed) == |input| ==> r == Err(MagicNotFoundError) && consumed == old(consumed)
      ensures old(consumed) < |input| ==> consumed == old(consumed) + 1
      ensures old(consumed) < |input| && input[old(consumed)] == '$' ==> r == Ok(())
      ensures old(consumed) < |input| && input[old(consumed)] != '$' ==> r == Err(IllegalMagicError(input[old(consumed)]))
    {
      if consumed == |input| {
        return Err(MagicNotFoundError);
      }
      var magic := input[consumed];
      consumed := consumed + 1;
      if magic == '$' {
        r := Ok(());
      } else {
        r := Err(IllegalMagicError(magic));
      }
    }

    /** `get_next_char` (mod.rs:383-389): the next character, or an unknown instruction at `index`. */
    method GetNextChar(index: nat) returns (r: Result<char, DecodeError>)
      requires Valid()
      modifies this
      ensures Valid() && position == old(position)
      ensures old(consumed) == |input| ==> r == Err(UnknownInstruction(index)) && consumed == old(consumed)
      ensures old(consumed) < |input| ==> r == Ok(input[old(consumed)]) && consumed == old(consumed) + 1
    {
      if consumed == |input| {
        return Err(UnknownInstruction(index));
      }
      r := Ok(input[consumed]);
      consumed := consumed + 1;
    }

    /**
     * `parse_next` (mod.rs:241-369). The index of the token's first character, which the
     * source keeps in a field, is a local here: it is set at the start of every token and
     * only read within it.
     */
    method ParseNext() returns (r: Result<Option<Token>, DecodeError>)
      requires Valid()
      modifies this
      ensures Valid() && position == old(position)
      ensures Scan(r, consumed) == TokenIn(trie, input, old(consumed))
    {
      if consumed == |input| {
        return Ok(None);
      }
      var index := consumed;
      var first := input[consumed];
      consumed := consumed + 1;
      var x := BinarySearch(trie, first);
      if x.None? {
        return Err(UnknownInstruction(index));
      }
      assert TopLevelEntryOk(trie[x.value]);
      var token := WalkFrom(trie[x.value].node, index);
      r := if token.Ok? then Ok(Some(token.value)) else Err(token.error);
    }

    /**
     * The loop of `parse_next` over the nodes of one token (mod.rs:257-365). The source's five
     * register variables are the one record `regs`.
     */
    method WalkFrom(start: NtfNode, index: nat) returns (r: Result<Token, DecodeError>)
      requires Valid() && (start.Command? || WellFormed(start, []))
      modifies this
      ensures Valid() && position == old(position)
      ensures Scan(r, consumed) == Walk(input, old(consumed), start, NoRegisters, [], index)
    {
      var node := start;
      var regs := NoRegisters;
      ghost var lits: seq<LiteralType> := [];
      while true
        invariant Valid() && position == old(position)
        invariant node.Command? || (WellFormed(node, lits) && HoldsAll(regs, lits))
        invariant Walk(input, consumed, node, regs, lits, index)
               == Walk(input, old(consumed), start, NoRegisters, [], index)
        decreases node
      {
        match node
        case Command(c) =>
          return Ok(Directive(c));
        case Id(id) =>
          return Ok(Decoded(Complete(id, regs)));
        case Literal(lt, next) =>
          var (read, j) := ReadLiteral(input, consumed, lt, regs);
          regs, consumed := read, j;
          lits := lits + [lt];
          node := next[0];
        case Chars(current) =>
          var c: char;
          if regs.nextChar.None? {
            var got := GetNextChar(index);
            if got.Err? {
              return Err(got.error);
            }
            c := got.value;
          } else {
            c := regs.nextChar.value;
          }
          TableSorted(node, lits);
          var k := BinarySearch(current, c);
          if k.None? {
            return Err(UnknownInstruction(index));
          }
          ChildOfWellFormed(node, lits, k.value);
          node := current[k.value].node;
      }
    }

    /**
     * `deserialize` (mod.rs:209-240): what it returns and every part of the state it leaves
     * behind are those of `DeserializeIn` on the state it starts from.
     */
    method Deserialize() returns (r: Result<(), DecodeError>)
      requires Valid()
      modifies this, program.slots
      ensures Valid()
      ensures Outcome(r, consumed, position, program.slots[..])
           == DeserializeIn(trie, input, old(consumed), old(position), old(program.slots[..]))
    {
      var magic := CheckMagic();
      if magic.Err? {
        return Err(magic.error);
      }
      program.Reset();
      r := DecodeTokens();
    }

    /** The loop of `deserialize` (mod.rs:212-239). */
    method DecodeTokens() returns (r: Result<(), DecodeError>)
      requires Valid()
      modifies this, program.slots
      ensures Valid()
      ensures Outcome(r, consumed, position, program.slots[..])
           == RunIn(trie, input, old(consumed), old(position), old(program.slots[..]))
    {
      while true
        invariant Valid()
        invariant RunIn(trie, input, consumed, position, program.slots[..])
               == RunIn(trie, input, old(consumed), old(position), old(program.slots[..]))
        decreases |input| - consumed
      {
        var step := ParseNext();
        match step
        case Err(e) =>
          return Err(e);
        case Ok(None) =>
          return Ok(());
        case Ok(Some(Decoded(ins))) =>
          program.Set(position, ins);
          var moved := MoveForward(position);
          if moved.Err? {
            return Err(DecodeError.InstructionPositionOverflowError);
          }
          position := moved.value;
        case Ok(Some(Directive(c))) =>
          var moved := MoveBy(c, position);
          if moved.Err? {
            return Err(DecodeError.InstructionPositionOverflowError);
          }
          position := moved.value;
      }
    }
  }
}
