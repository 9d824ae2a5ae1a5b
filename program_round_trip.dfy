/**
 * Whole texts (src/serialization/native/new/mod.rs:209-240): a `$` followed by the tokens of a
 * sequence of instructions is decoded by `deserialize` into the program that holds those
 * instructions in consecutive slots from the first one, with Empty in every other slot.
 */
module ProgramRoundTrip {
  import opened Wrappers
  import opened Literals
  import opened Instructions
  import opened NtfData
  import NtfShape
  import opened DecoderV1
  import TemplateTable
  import TokenRoundTrip
  import Ids = InstructionIds

  /** The tokens of `inss`, one after another. */
  function Tokens(inss: seq<Instruction>): string
    decreases |inss|
  {
    if |inss| == 0 then "" else TemplateTable.TokenText(inss[0]) + Tokens(inss[1..])
  }

  /** `prog` with `inss` written into consecutive slots from slot `start` on. */
  function WriteFrom(prog: seq<Instruction>, start: nat, inss: seq<Instruction>): (r: seq<Instruction>)
    requires start + |inss| <= |prog|
    ensures |r| == |prog|
    decreases |inss|
  {
    if |inss| == 0 then prog else WriteFrom(prog[start := inss[0]], start + 1, inss[1..])
  }

  /** Slot by slot: the written slots hold `inss` in order, every other slot is untouched. */
  lemma {:induction false} WriteFromSlots(prog: seq<Instruction>, start: nat, inss: seq<Instruction>, j: nat)
    requires start + |inss| <= |prog| && j < |prog|
    ensures WriteFrom(prog, start, inss)[j] == if start <= j < start + |inss| then inss[j - start] else prog[j]
    decreases |inss|
  {
    if 0 < |inss| {
      WriteFromSlots(prog[start := inss[0]], start + 1, inss[1..], j);
    }
  }

  /** Every instruction the constructors can build. */
  predicate AllWellFormed(inss: seq<Instruction>) {
    forall k | 0 <= k < |inss| :: inss[k].WellFormed()
  }

  /** Every slot from `start` on holds Empty. */
  predicate EmptyFrom(prog: seq<Instruction>, start: nat) {
    forall j | start <= j < |prog| :: prog[j] == EmptyInstruction
  }

  lemma {:induction false} SplitTwo(s: string, i: nat, x: string, y: string)
    requires WrittenAt(s, i, x + y)
    ensures WrittenAt(s, i, x) && WrittenAt(s, i + |x|, y)
  {
    assert s[i..i + |x|] == s[i..i + |x + y|][..|x|];
    assert s[i + |x|..i + |x| + |y|] == s[i..i + |x + y|][|x|..];
  }

  /** The instructions after the first are well formed too. */
  lemma TailWellFormed(inss: seq<Instruction>)
    requires 0 < |inss| && AllWellFormed(inss)
    ensures inss[0].WellFormed() && AllWellFormed(inss[1..])
  {
    forall k | 0 <= k < |inss[1..]|
      ensures inss[1..][k].WellFormed()
    {
      assert inss[1..][k] == inss[k + 1];
    }
  }

  /** The bookkeeping of one step: what is left to write, and where, after the first instruction. */
  lemma WriteStep(prog: seq<Instruction>, start: nat, inss: seq<Instruction>)
    requires 0 < |inss| && start + |inss| < |prog| && EmptyFrom(prog, start) && AllWellFormed(inss)
    ensures AllWellFormed(inss[1..]) && EmptyFrom(prog[start := inss[0]], start + 1)
    ensures inss[0].WellFormed() && prog[start] == EmptyInstruction
    ensures WriteFrom(prog[start := inss[0]], start + 1, inss[1..]) == WriteFrom(prog, start, inss)
  {
    TailWellFormed(inss);
  }

  /** The text of the tokens of `inss`: the first token, then the others. */
  lemma {:induction false} TokensSplit(s: string, i: nat, inss: seq<Instruction>)
    requires 0 < |inss| && WrittenAt(s, i, Tokens(inss))
    ensures WrittenAt(s, i, TemplateTable.TokenText(inss[0]))
    ensures WrittenAt(s, i + |TemplateTable.TokenText(inss[0])|, Tokens(inss[1..]))
    ensures |Tokens(inss)| == |TemplateTable.TokenText(inss[0])| + |Tokens(inss[1..])|
  {
    SplitTwo(s, i, TemplateTable.TokenText(inss[0]), Tokens(inss[1..]));
  }

  /** What the token of `ins` stands for: Empty's blank is the one-step directive. */
  function TokenOf(ins: Instruction): Token {
    if ins.id == Ids.Empty then Directive(OneStepForward) else Decoded(ins)
  }

  /** Reading from character `i` over the table `t`, the tokens stand for `inss` in turn and end the text. */
  predicate ReadsAs(t: seq<Entry>, s: string, i: nat, inss: seq<Instruction>)
    requires TopLevel(t) && i <= |s|
    decreases |inss|
  {
    if |inss| == 0 then i == |s|
    else
      var step := TokenIn(t, s, i);
      step.outcome == Ok(Some(TokenOf(inss[0]))) && ReadsAs(t, s, step.next, inss[1..])
  }

  /** One token: the token of `ins` at the cursor stands for `ins`, or for the one-step directive when `ins` is Empty. */
  lemma TokenReads(ins: Instruction, s: string, i: nat)
    requires ins.WellFormed() && WrittenAt(s, i, TemplateTable.TokenText(ins))
    ensures TokenAt(s, i) == Scan(Ok(Some(TokenOf(ins))), i + |TemplateTable.TokenText(ins)|)
  {
    if ins.id == Ids.Empty {
      assert ins == EmptyInstruction;
      TokenRoundTrip.EmptyReadsAsStep(s, i);
    } else {
      TokenRoundTrip.TokenReadBack(ins, s, i);
    }
  }

  /** The tokens of `inss`, written from character `i` to the end of the text, stand for `inss` in turn. */
  lemma {:induction false} TokensRead(s: string, i: nat, inss: seq<Instruction>)
    requires AllWellFormed(inss) && i + |Tokens(inss)| == |s| && WrittenAt(s, i, Tokens(inss))
    ensures TopLevel(NTF2I) && ReadsAs(NTF2I, s, i, inss)
    decreases |inss|
  {
    NtfShape.Ntf2iEntries();
    if 0 < |inss| {
      var j := i + |TemplateTable.TokenText(inss[0])|;
      TokensSplit(s, i, inss);
      TailWellFormed(inss);
      TokenReads(inss[0], s, i);
      assert TokenIn(NTF2I, s, i) == Scan(Ok(Some(TokenOf(inss[0]))), j);
      TokensRead(s, j, inss[1..]);
      ReadsAsStep(NTF2I, s, i, inss, j);
    }
  }

  /** The first token stands for the first instruction and the rest read as the others. */
  lemma ReadsAsStep(t: seq<Entry>, s: string, i: nat, inss: seq<Instruction>, j: nat)
    requires TopLevel(t) && i <= j <= |s| && 0 < |inss|
    requires TokenIn(t, s, i) == Scan(Ok(Some(TokenOf(inss[0]))), j) && ReadsAs(t, s, j, inss[1..])
    ensures ReadsAs(t, s, i, inss)
  {
  }

  /**
   * One step of the loop of `deserialize`: the token of a well-formed instruction, at a cursor
   * on an Empty slot short of the last, writes the instruction there and moves one slot on. The
   * one-step directive that Empty's blank stands for does the same, since the slot holds Empty.
   * What is left to read and to write is then the rest of `inss`, from the next slot.
   */
  lemma RunStep(t: seq<Entry>, s: string, i: nat, pos: InstructionPosition, prog: seq<Instruction>,
                inss: seq<Instruction>)
    requires TopLevel(t) && i <= |s| && pos.Valid() && |prog| == ProgramSize && EmptyFrom(prog, Flat(pos))
    requires AllWellFormed(inss) && 0 < |inss| && Flat(pos) + |inss| < ProgramSize && ReadsAs(t, s, i, inss)
    ensures var j, q, prog' := TokenIn(t, s, i).next, PositionOf(Flat(pos) + 1), prog[Flat(pos) := inss[0]];
      && j <= |s| && q.Valid() && EmptyFrom(prog', Flat(q)) && AllWellFormed(inss[1..])
      && Flat(q) + |inss[1..]| == Flat(pos) + |inss| && ReadsAs(t, s, j, inss[1..])
      && RunIn(t, s, i, pos, prog) == RunIn(t, s, j, q, prog')
      && WriteFrom(prog', Flat(q), inss[1..]) == WriteFrom(prog, Flat(pos), inss)
  {
    WriteStep(prog, Flat(pos), inss);
    ReadsAsFirst(t, s, i, inss);
    RunOneToken(t, s, i, pos, prog, inss[0]);
  }

  /** The first token stands for the first instruction and the rest read as the others. */
  lemma ReadsAsFirst(t: seq<Entry>, s: string, i: nat, inss: seq<Instruction>)
    requires TopLevel(t) && i <= |s| && 0 < |inss| && ReadsAs(t, s, i, inss)
    ensures TokenIn(t, s, i).outcome == Ok(Some(TokenOf(inss[0]))) && ReadsAs(t, s, TokenIn(t, s, i).next, inss[1..])
  {
  }

  /** The token of a well-formed instruction, at a cursor on an Empty slot short of the last. */
  lemma RunOneToken(t: seq<Entry>, s: string, i: nat, pos: InstructionPosition, prog: seq<Instruction>, ins: Instruction)
    requires TopLevel(t) && i <= |s| && pos.Valid() && |prog| == ProgramSize && Flat(pos) + 1 < ProgramSize
    requires ins.WellFormed() && prog[Flat(pos)] == EmptyInstruction && TokenIn(t, s, i).outcome == Ok(Some(TokenOf(ins)))
    ensures RunIn(t, s, i, pos, prog) == RunIn(t, s, TokenIn(t, s, i).next, PositionOf(Flat(pos) + 1), prog[Flat(pos) := ins])
  {
    if ins.id == Ids.Empty {
      assert ins == EmptyInstruction;
      assert prog[Flat(pos) := ins] == prog;
    }
    assert MoveForward(pos) == Ok(PositionOf(Flat(pos) + 1));
  }

  /**
   * The loop of `deserialize` over tokens that stand for `inss`, from a cursor with only Empty
   * slots from it on: it reaches the end of the text without error, the cursor `|inss|` slots
   * on, with `inss` written from the cursor's slot.
   */
  lemma {:induction false} RunReads(t: seq<Entry>, s: string, i: nat, pos: InstructionPosition, prog: seq<Instruction>,
                                    inss: seq<Instruction>)
    requires TopLevel(t) && i <= |s| && pos.Valid() && |prog| == ProgramSize && EmptyFrom(prog, Flat(pos))
    requires AllWellFormed(inss) && Flat(pos) + |inss| < ProgramSize && ReadsAs(t, s, i, inss)
    ensures RunIn(t, s, i, pos, prog) == Outcome(Ok(()), |s|, PositionOf(Flat(pos) + |inss|), WriteFrom(prog, Flat(pos), inss))
    decreases |inss|
  {
    if |inss| == 0 {
      PositionOfFlat(pos);
    } else {
      RunStep(t, s, i, pos, prog, inss);
      RunReads(t, s, TokenIn(t, s, i).next, PositionOf(Flat(pos) + 1), prog[Flat(pos) := inss[0]], inss[1..]);
    }
  }

  /**
   * Read-back of whole texts: `$` and the tokens of fewer than 3072 instructions decode into
   * the program whose first slots hold the instructions in order and whose other slots hold
   * Empty, with the cursor on the slot after the last one.
   */
  lemma {:induction false} TextReadBack(inss: seq<Instruction>, prog: seq<Instruction>)
    requires |prog| == ProgramSize && AllWellFormed(inss) && |inss| < ProgramSize
    ensures var o := Decode("$" + Tokens(inss), prog);
      && o.result == Ok(()) && o.cursor == 1 + |Tokens(inss)| && Flat(o.position) == |inss|
      && |o.program| == ProgramSize
      && (forall j | 0 <= j < |inss| :: o.program[j] == inss[j])
      && (forall j | |inss| <= j < ProgramSize :: o.program[j] == EmptyInstruction)
  {
    var s := "$" + Tokens(inss);
    assert s[1..1 + |Tokens(inss)|] == Tokens(inss);
    assert Flat(DefaultPosition) == 0;
    TokensRead(s, 1, inss);
    RunReads(NTF2I, s, 1, DefaultPosition, EmptyProgram(), inss);
    var o := Decode(s, prog);
    forall j | 0 <= j < ProgramSize
      ensures o.program[j] == if j < |inss| then inss[j] else EmptyInstruction
    {
      WriteFromSlots(EmptyProgram(), 0, inss, j);
    }
  }

  /**
   * The last slot: an instruction decoded there is written, and then the cursor cannot move on,
   * so `deserialize` fails with an overflow even when the token ends the text.
   */
  lemma {:induction false} LastSlotOverflows(s: string, i: nat, pos: InstructionPosition, prog: seq<Instruction>,
                                             ins: Instruction)
    requires pos.Valid() && Flat(pos) == ProgramSize - 1 && |prog| == ProgramSize
    requires ins.WellFormed() && ins.id != Ids.Empty && WrittenAt(s, i, TemplateTable.TokenText(ins))
    ensures Run(s, i, pos, prog) ==
      Outcome(Err(DecodeError.InstructionPositionOverflowError), i + |TemplateTable.TokenText(ins)|, pos, prog[Flat(pos) := ins])
  {
    TokenRoundTrip.TokenReadBack(ins, s, i);
  }
}
