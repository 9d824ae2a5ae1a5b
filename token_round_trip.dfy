/**
 * The decoder reads back what the token templates write (src/serialization/native/new/data.rs:21-227
 * against src/serialization/native/new/mod.rs:241-369): the token of an instruction, written
 * from its template with the payload's literals in place, is decoded by `parse_next` into the
 * same instruction and consumes exactly the token.
 */
module TokenRoundTrip {
  import opened Wrappers
  import opened Literals
  import opened Instructions
  import opened NtfData
  import opened NtfTemplates
  import opened DecoderV1
  import NtfShape
  import TemplatePaths
  import TemplateTable
  import Ids = InstructionIds

  /** A walk through the trie's result as `parse_next` returns it. */
  function AsToken(w: Scan<Token>): Scan<Option<Token>> {
    Scan(if w.outcome.Ok? then Ok(Some(w.outcome.value)) else Err(w.outcome.error), w.next)
  }

  /** One character, with no lookahead pending, selects the entry of a table that holds it. */
  lemma {:induction false} CharStep(s: string, i: nat, n: NtfNode, regs: Registers, lits: seq<LiteralType>, index: nat, k: nat)
    requires n.Chars? && regs.nextChar.None? && WellFormed(n, lits) && HoldsAll(regs, lits)
    requires i < |s| && Find(n.table, s[i]) == Some(k)
    ensures WellFormed(n.table[k].node, lits)
    ensures Walk(s, i, n, regs, lits, index) == Walk(s, i + 1, n.table[k].node, regs, lits, index)
  {
    ChildOfWellFormed(n, lits, k);
  }

  /** One character of fixed text follows one table entry. */
  lemma {:induction false} TextStep(n: NtfNode, cs: string, j: nat, m: NtfNode) returns (k: nat)
    requires j < |cs| && WalkText(n, cs, j) == Some(m)
    ensures n.Chars? && Find(n.table, cs[j]) == Some(k) && WalkText(n.table[k].node, cs, j + 1) == Some(m)
  {
    k := Find(n.table, cs[j]).value;
  }

  /** The character at offset `j` of text written at `i0`. */
  lemma {:induction false} WrittenChar(s: string, i0: nat, cs: string, j: nat)
    requires WrittenAt(s, i0, cs) && j < |cs|
    ensures i0 + j < |s| && s[i0 + j] == cs[j]
  {
    assert s[i0 + j] == s[i0..i0 + |cs|][j];
  }

  /**
   * Following fixed text: with `cs` written at `i0` and no lookahead pending, the decoder reads
   * its characters from index `j` on and goes on where the trie's walk along them ends.
   */
  lemma {:induction false} WalkAlongText(s: string, i0: nat, i: nat, n: NtfNode, regs: Registers,
                                          lits: seq<LiteralType>, index: nat, cs: string, j: nat, m: NtfNode)
    requires regs.nextChar.None? && WellFormed(n, lits) && HoldsAll(regs, lits)
    requires j <= |cs| && WrittenAt(s, i0, cs) && i == i0 + j
    requires WalkText(n, cs, j) == Some(m)
    ensures WellFormed(m, lits)
    ensures Walk(s, i, n, regs, lits, index) == Walk(s, i0 + |cs|, m, regs, lits, index)
    decreases |cs| - j
  {
    if j < |cs| {
      var k := TextStep(n, cs, j, m);
      WrittenChar(s, i0, cs, j);
      CharStep(s, i, n, regs, lits, index, k);
      WalkAlongText(s, i0, i + 1, n.table[k].node, regs, lits, index, cs, j + 1, m);
    } else {
      assert m == n && i == i0 + |cs|;
    }
  }

  /**
   * `parse_next` looks the first character of a token up in the top-level table; when the walk
   * from the entry's node decodes an instruction, so does `parse_next`, ending where the walk ends.
   */
  lemma {:induction false} TopLevelDecodes(s: string, i: nat, k: nat, ins: Instruction, next: nat)
    requires i < |s| && Find(NTF2I, s[i]) == Some(k)
    requires !NTF2I[k].node.Command? && WellFormed(NTF2I[k].node, [])
    requires Walk(s, i + 1, NTF2I[k].node, NoRegisters, [], i) == Scan(Ok(Decoded(ins)), next)
    ensures TokenAt(s, i) == Scan(Ok(Some(Decoded(ins))), next)
  {
  }

  /** A walk that ends at a node other than a directive leaves a table through an entry that is not one. */
  lemma {:induction false} FirstStep(t: seq<Entry>, a: string, m: NtfNode)
    requires 0 < |a| && WalkText(Chars(t), a, 0) == Some(m) && !m.Command?
    ensures Find(t, a[0]).Some?
    ensures !t[Find(t, a[0]).value].node.Command?
    ensures WalkText(t[Find(t, a[0]).value].node, a, 1) == Some(m)
  {
  }

  /** The first character of a token's first text selects the top-level entry the rest of the text starts from. */
  lemma {:induction false} FirstEntry(a: string, m: NtfNode) returns (k: nat)
    requires 0 < |a| && WalkText(Root, a, 0) == Some(m) && !m.Command?
    ensures Find(NTF2I, a[0]) == Some(k)
    ensures !NTF2I[k].node.Command? && WellFormed(NTF2I[k].node, [])
    ensures WalkText(NTF2I[k].node, a, 1) == Some(m)
  {
    FirstStep(NTF2I, a, m);
    k := Find(NTF2I, a[0]).value;
    NtfShape.Ntf2iEntry(k);
  }

  /** Text written at `i` starts with its first character. */
  lemma {:induction false} FirstChar(s: string, i: nat, t: string)
    requires 0 < |t| && WrittenAt(s, i, t)
    ensures i < |s| && s[i] == t[0]
  {
    assert s[i] == s[i..i + |t|][0];
  }

  /**
   * After the first character of the text `a` written at `i`, the walk from the node `n` of that
   * character's entry follows the rest of `a` and then yields what the walk from `m` yields.
   */
  lemma {:induction false} TextThenWalk(s: string, i: nat, n: NtfNode, a: string, m: NtfNode, w: Scan<Token>)
    requires WellFormed(n, []) && 0 < |a| && WrittenAt(s, i, a) && WalkText(n, a, 1) == Some(m)
    requires WellFormed(m, []) && Walk(s, i + |a|, m, NoRegisters, [], i) == w
    ensures Walk(s, i + 1, n, NoRegisters, [], i) == w
  {
    WalkAlongText(s, i, i + 1, n, NoRegisters, [], i, a, 1, m);
  }

  /** After its first character, a simple instruction's text leads to its leaf. */
  lemma {:induction false} SimpleNodeWalk(s: string, i: nat, n: NtfNode, a: string, id: Ids.InstructionId)
    requires Kind(id) == Simple && WellFormed(n, [])
    requires 0 < |a| && WrittenAt(s, i, a) && WalkText(n, a, 1) == Some(Id(id))
    ensures i < |s| && s[i] == a[0]
    ensures Walk(s, i + 1, n, NoRegisters, [], i) == Scan(Ok(Decoded(Instruction(id, NoPayload))), i + |a|)
  {
    FirstChar(s, i, a);
    WalkTextWellFormed(n, [], a, 1, Id(id));
    TextThenWalk(s, i, n, a, Id(id), Scan(Ok(Decoded(Instruction(id, NoPayload))), i + |a|));
  }

  /** A simple instruction's token is its fixed text alone. */
  lemma {:induction false} DecodeSimple(s: string, i: nat, id: Ids.InstructionId, a: string)
    requires Kind(id) == Simple && 0 < |a| && WrittenAt(s, i, a)
    requires WalkText(Root, a, 0) == Some(Id(id))
    ensures TokenAt(s, i) == Scan(Ok(Some(Decoded(Instruction(id, NoPayload)))), i + |a|)
  {
    var k := FirstEntry(a, Id(id));
    SimpleNodeWalk(s, i, NTF2I[k].node, a, id);
    TopLevelDecodes(s, i, k, Instruction(id, NoPayload), i + |a|);
  }

  /** The registers after reading the text `u` as a literal of type `lt`, closed by `c`. */
  function TextRegisters(lt: LiteralType, u: ShortText, c: char): Registers {
    match lt
    case LabelIdentifierLiteral => NoRegisters.(target := Some(LabelIdentifier(Pack(u))), nextChar := Some(c))
    case StringLiteral => NoRegisters.(text := Some(StringText(Pack(u))), nextChar := Some(c))
    case _ => NoRegisters.(name := Some(VariableIdentifier(Pack(u))), nextChar := Some(c))
  }

  /** Text written at `i` and followed by the character `c`. */
  lemma {:induction false} SplitLast(s: string, i: nat, t: string, c: char)
    requires WrittenAt(s, i, t + [c])
    ensures WrittenAt(s, i, t) && i + |t| < |s| && s[i + |t|] == c
  {
    assert s[i..i + |t|] == s[i..i + |t| + 1][..|t|];
    assert s[i + |t|] == s[i..i + |t| + 1][|t|];
  }

  /** A text literal written at `i` and closed by a non-alphanumeric `c` fills its register and leaves `c` as lookahead. */
  lemma {:induction false} ReadTextLiteral(s: string, i: nat, lt: LiteralType, u: ShortText, c: char)
    requires lt != VariableValueLiteral && WrittenAt(s, i, u + [c]) && !IsAlnum(c)
    ensures ReadLiteral(s, i, lt, NoRegisters) == (TextRegisters(lt, u, c), i + |u| + 1)
  {
    SplitLast(s, i, u, c);
    IdentifiersAt(s, i, u);
  }

  /** How the template of a closed literal passes through the trie. */
  lemma {:induction false} ClosedWalk(parts: seq<TemplatePart>, lt: LiteralType, target: NtfNode)
    requires ClosedLiteral(parts, lt) && WalkTemplate(Root, parts, 0) == Some(target)
    ensures WalkText(Root, parts[0].chars, 0).Some?
    ensures var m := WalkText(Root, parts[0].chars, 0).value;
      && m.Literal? && m.literal == lt && |m.next| == 1 && m.next[0].Chars?
      && Find(m.next[0].table, parts[2].chars[0]).Some?
      && m.next[0].table[Find(m.next[0].table, parts[2].chars[0]).value].node == target
  {
    var m := WalkText(Root, parts[0].chars, 0).value;
    var t := m.next[0];
    var cs := parts[2].chars;
    assert WalkTemplate(t, parts, 2) == Some(target);
    var m2 := WalkText(t, cs, 0).value;
    assert WalkTemplate(m2, parts, 3) == Some(m2);
    var k := Find(t.table, cs[0]).value;
    assert WalkText(t.table[k].node, cs, 1) == Some(t.table[k].node);
  }

  /** From a literal node: the literal is read, its closing character selects the leaf. */
  lemma {:induction false} WalkClosedLiteral(s: string, j: nat, m: NtfNode, u: ShortText, c: char, id: Ids.InstructionId, index: nat)
    requires m.Literal? && m.literal != VariableValueLiteral && WellFormed(m, [])
    requires WrittenAt(s, j, u + [c]) && !IsAlnum(c)
    requires Find(m.next[0].table, c).Some? && m.next[0].table[Find(m.next[0].table, c).value].node == Id(id)
    ensures HoldsAll(TextRegisters(m.literal, u, c), KindLiterals(Kind(id)))
    ensures Walk(s, j, m, NoRegisters, [], index) ==
      Scan(Ok(Decoded(Complete(id, TextRegisters(m.literal, u, c)))), j + |u| + 1)
  {
    var lt, t := m.literal, m.next[0];
    var regs := TextRegisters(lt, u, c);
    ReadTextLiteral(s, j, lt, u, c);
    var k := Find(t.table, c).value;
    ChildOfWellFormed(t, [] + [lt], k);
    assert WellFormed(Id(id), [] + [lt]);
    assert Walk(s, j, m, NoRegisters, [], index) == Walk(s, j + |u| + 1, t, regs, [] + [lt], index);
    assert Walk(s, j + |u| + 1, t, regs, [] + [lt], index) == Walk(s, j + |u| + 1, Id(id), regs, [] + [lt], index);
  }

  /** Every node the trie's walk along fixed text reaches from a well-formed node is well formed. */
  lemma {:induction false} WalkTextWellFormed(n: NtfNode, lits: seq<LiteralType>, cs: string, j: nat, m: NtfNode)
    requires WellFormed(n, lits) && j <= |cs| && WalkText(n, cs, j) == Some(m)
    ensures WellFormed(m, lits)
    decreases |cs| - j
  {
    if j < |cs| {
      var k := Find(n.table, cs[j]).value;
      ChildOfWellFormed(n, lits, k);
      WalkTextWellFormed(n.table[k].node, lits, cs, j + 1, m);
    }
  }

  /** The registers filled from a text literal build the instruction whose payload holds that text. */
  lemma {:induction false} CompleteClosed(id: Ids.InstructionId, p: Payload, lt: LiteralType, c: char)
    requires (Kind(id) == Label || Kind(id) == String) && PayloadKind(p) == Kind(id)
    requires lt == KindLiterals(Kind(id))[0]
    ensures HoldsAll(TextRegisters(lt, LiteralText(lt, p), c), KindLiterals(Kind(id)))
    ensures Complete(id, TextRegisters(lt, LiteralText(lt, p), c)) == Instruction(id, p)
  {
    if Kind(id) == Label {
      PackUnpack(p.target.data);
    } else {
      PackUnpack(p.text.data);
    }
  }

  /**
   * From a label's or string's literal node, with `u` the payload's text: the instruction whose
   * payload is `p` is decoded, as `w` states.
   */
  lemma {:induction false} ClosedAfterPrefix(s: string, j: nat, m: NtfNode, id: Ids.InstructionId, p: Payload, u: ShortText, c: char,
                          index: nat, w: Scan<Token>)
    requires (Kind(id) == Label || Kind(id) == String) && PayloadKind(p) == Kind(id)
    requires m.Literal? && m.literal == KindLiterals(Kind(id))[0] && WellFormed(m, [])
    requires u == LiteralText(m.literal, p) && WrittenAt(s, j, u + [c]) && !IsAlnum(c)
    requires Find(m.next[0].table, c).Some? && m.next[0].table[Find(m.next[0].table, c).value].node == Id(id)
    requires w == Scan(Ok(Decoded(Instruction(id, p))), j + |u| + 1)
    ensures Walk(s, j, m, NoRegisters, [], index) == w
  {
    CompleteClosed(id, p, m.literal, c);
    WalkClosedLiteral(s, j, m, u, c, id, index);
  }

  /** Text written at `i` as three pieces: the first, then the other two. */
  lemma {:induction false} SplitWritten(s: string, i: nat, x: string, y: string, z: string)
    requires WrittenAt(s, i, x + y + z)
    ensures WrittenAt(s, i, x) && WrittenAt(s, i + |x|, y + z)
  {
    assert s[i..i + |x|] == s[i..i + |x + y + z|][..|x|];
    assert s[i + |x|..i + |x| + |y + z|] == s[i..i + |x + y + z|][|x|..];
  }

  /** A label's or string's token written at `i`, seen as its fixed text and its literal with the closing character. */
  lemma {:induction false} ClosedPieces(s: string, i: nat, a: string, u: string, c: char)
    requires 0 < |a| && WrittenAt(s, i, a + u + [c])
    ensures i < |s| && s[i] == a[0] && WrittenAt(s, i, a) && WrittenAt(s, i + |a|, u + [c])
  {
    SplitWritten(s, i, a, u, [c]);
    FirstChar(s, i, a);
  }

  /** The top-level entry and the literal node the fixed text of a label's or string's template leads to. */
  lemma {:induction false} ClosedEntry(parts: seq<TemplatePart>, lt: LiteralType, id: Ids.InstructionId) returns (k: nat, m: NtfNode)
    requires ClosedLiteral(parts, lt) && WalkTemplate(Root, parts, 0) == Some(Id(id))
    ensures Find(NTF2I, parts[0].chars[0]) == Some(k)
    ensures WellFormed(NTF2I[k].node, []) && WalkText(NTF2I[k].node, parts[0].chars, 1) == Some(m)
    ensures m.Literal? && m.literal == lt && |m.next| == 1 && m.next[0].Chars?
    ensures Find(m.next[0].table, parts[2].chars[0]).Some?
    ensures m.next[0].table[Find(m.next[0].table, parts[2].chars[0]).value].node == Id(id)
  {
    ClosedWalk(parts, lt, Id(id));
    m := WalkText(Root, parts[0].chars, 0).value;
    k := FirstEntry(parts[0].chars, m);
  }

  /**
   * After its first character, a label's or string's token (the text `a`, the payload's text `u`,
   * the closing `c`) is decoded into the instruction whose payload is `p`, as `w` states.
   */
  lemma {:induction false} ClosedNodeWalk(s: string, i: nat, n: NtfNode, a: string, m: NtfNode, id: Ids.InstructionId, p: Payload,
                       u: ShortText, c: char, w: Scan<Token>)
    requires (Kind(id) == Label || Kind(id) == String) && PayloadKind(p) == Kind(id)
    requires WellFormed(n, []) && 0 < |a| && WalkText(n, a, 1) == Some(m)
    requires m.Literal? && m.literal == KindLiterals(Kind(id))[0] && |m.next| == 1 && m.next[0].Chars?
    requires Find(m.next[0].table, c).Some? && m.next[0].table[Find(m.next[0].table, c).value].node == Id(id)
    requires u == LiteralText(m.literal, p) && WrittenAt(s, i, a + u + [c]) && !IsAlnum(c)
    requires w == Scan(Ok(Decoded(Instruction(id, p))), i + |a| + |u| + 1)
    ensures i < |s| && s[i] == a[0]
    ensures Walk(s, i + 1, n, NoRegisters, [], i) == w
  {
    ClosedPieces(s, i, a, u, c);
    WalkTextWellFormed(n, [], a, 1, m);
    ClosedAfterPrefix(s, i + |a|, m, id, p, u, c, i, w);
    TextThenWalk(s, i, n, a, m, w);
  }

  /** A label or string instruction's token: text, the literal, one closing character. */
  lemma {:induction false} DecodeClosed(s: string, i: nat, id: Ids.InstructionId, parts: seq<TemplatePart>, p: Payload)
    requires (Kind(id) == Label || Kind(id) == String) && PayloadKind(p) == Kind(id)
    requires ClosedLiteral(parts, KindLiterals(Kind(id))[0])
    requires WalkTemplate(Root, parts, 0) == Some(Id(id))
    requires WrittenAt(s, i, parts[0].chars + LiteralText(parts[1].literal, p) + parts[2].chars)
    ensures TokenAt(s, i) == Scan(Ok(Some(Decoded(Instruction(id, p)))),
                                  i + |parts[0].chars| + |LiteralText(parts[1].literal, p)| + 1)
  {
    var a, lt, c := parts[0].chars, parts[1].literal, parts[2].chars[0];
    var u := LiteralText(lt, p);
    assert parts[2].chars == [c];
    var k, m := ClosedEntry(parts, lt, id);
    var next := i + |a| + |u| + 1;
    var w := Scan(Ok(Decoded(Instruction(id, p))), next);
    ClosedNodeWalk(s, i, NTF2I[k].node, a, m, id, p, u, c, w);
    TopLevelDecodes(s, i, k, Instruction(id, p), next);
  }

  // ----- comparisons: "(", the name, the operator, the value, ")" -----

  /** The registers after a comparison's name, closed by `op`, and its value, closed by `)`. */
  function VarCmpRegisters(u: ShortText, op: char, v: VariableValue): Registers {
    TextRegisters(VariableIdentifierLiteral, u, op).(value := Some(v), nextChar := Some(')'))
  }

  /** A value literal written at `i` and closed by a non-digit `c` fills the value register and leaves `c` as lookahead. */
  lemma {:induction false} ReadValueLiteral(s: string, i: nat, regs: Registers, v: VariableValue, c: char)
    requires WrittenAt(s, i, ValueText(v) + [c]) && !IsDigit(c)
    ensures ReadLiteral(s, i, VariableValueLiteral, regs) ==
      (regs.(value := Some(v), nextChar := Some(c)), i + |ValueText(v)| + 1)
  {
    SplitLast(s, i, ValueText(v), c);
    ValueAt(s, i, v);
  }

  /** The value's literal node: one table after it, in which `)` leads to `target`. */
  predicate ValueLeaf(m2: NtfNode, target: NtfNode) {
    && m2.Literal? && m2.literal == VariableValueLiteral && |m2.next| == 1 && m2.next[0].Chars?
    && Find(m2.next[0].table, ')').Some? && m2.next[0].table[Find(m2.next[0].table, ')').value].node == target
  }

  /** How the template of a comparison passes through the trie. */
  lemma {:induction false} VarCmpWalk(parts: seq<TemplatePart>, target: NtfNode)
    requires |parts| == 5 && parts[0].Text? && parts[1] == Placeholder(VariableIdentifierLiteral)
    requires parts[2].Text? && |parts[2].chars| == 1 && parts[3] == Placeholder(VariableValueLiteral)
    requires parts[4] == Text(")")
    requires WalkTemplate(Root, parts, 0) == Some(target)
    ensures WalkText(Root, parts[0].chars, 0).Some?
    ensures var m := WalkText(Root, parts[0].chars, 0).value;
      && m.Literal? && m.literal == VariableIdentifierLiteral && |m.next| == 1 && m.next[0].Chars?
      && Find(m.next[0].table, parts[2].chars[0]).Some?
      && ValueLeaf(m.next[0].table[Find(m.next[0].table, parts[2].chars[0]).value].node, target)
  {
    var m := WalkText(Root, parts[0].chars, 0).value;
    var t := m.next[0];
    var cs := parts[2].chars;
    assert WalkTemplate(t, parts, 2) == Some(target);
    var k := Find(t.table, cs[0]).value;
    var m2 := t.table[k].node;
    assert WalkText(m2, cs, 1) == Some(m2);
    assert WalkTemplate(m2, parts, 3) == Some(target);
    var t2 := m2.next[0];
    assert WalkTemplate(t2, parts, 4) == Some(target);
    var k2 := Find(t2.table, ')').value;
    var leaf := t2.table[k2].node;
    assert WalkText(leaf, ")", 1) == Some(leaf);
    assert WalkTemplate(leaf, parts, 5) == Some(leaf);
  }

  /** The node the operator selects after a comparison's name is well formed. */
  lemma {:induction false} OperatorNodeWellFormed(m: NtfNode, op: char)
    requires m.Literal? && m.literal == VariableIdentifierLiteral && WellFormed(m, [])
    requires Find(m.next[0].table, op).Some?
    ensures WellFormed(m.next[0].table[Find(m.next[0].table, op).value].node, [] + [VariableIdentifierLiteral])
  {
    ChildOfWellFormed(m.next[0], [] + [VariableIdentifierLiteral], Find(m.next[0].table, op).value);
  }

  /**
   * From the name's literal node: the name is read, and the operator, left as lookahead, selects
   * the node `m2`; whatever the walk from `m2` yields, the walk from the name's node yields.
   */
  lemma {:induction false} WalkVarName(s: string, j: nat, m: NtfNode, u: ShortText, op: char, index: nat, m2: NtfNode, w: Scan<Token>)
    requires m.Literal? && m.literal == VariableIdentifierLiteral && WellFormed(m, [])
    requires WrittenAt(s, j, u + [op]) && !IsAlnum(op)
    requires Find(m.next[0].table, op).Some? && m2 == m.next[0].table[Find(m.next[0].table, op).value].node
    requires WellFormed(m2, [] + [VariableIdentifierLiteral]) && j + |u| + 1 <= |s|
    requires Walk(s, j + |u| + 1, m2, TextRegisters(VariableIdentifierLiteral, u, op), [] + [VariableIdentifierLiteral], index) == w
    ensures Walk(s, j, m, NoRegisters, [], index) == w
  {
    var t := m.next[0];
    var regs := TextRegisters(VariableIdentifierLiteral, u, op);
    ReadTextLiteral(s, j, VariableIdentifierLiteral, u, op);
    assert Walk(s, j, m, NoRegisters, [], index) ==
      Walk(s, j + |u| + 1, t, regs, [] + [VariableIdentifierLiteral], index);
  }

  /** From the value's literal node: the value is read, and the closing `)` selects the leaf. */
  lemma {:induction false} WalkVarValue(s: string, j: nat, m2: NtfNode, u: ShortText, op: char, v: VariableValue,
                     id: Ids.InstructionId, index: nat)
    requires ValueLeaf(m2, Id(id)) && WellFormed(m2, [] + [VariableIdentifierLiteral])
    requires WrittenAt(s, j, ValueText(v) + [')'])
    ensures HoldsAll(VarCmpRegisters(u, op, v), KindLiterals(Kind(id)))
    ensures Walk(s, j, m2, TextRegisters(VariableIdentifierLiteral, u, op), [] + [VariableIdentifierLiteral], index) ==
      Scan(Ok(Decoded(Complete(id, VarCmpRegisters(u, op, v)))), j + |ValueText(v)| + 1)
  {
    var lits := [] + [VariableIdentifierLiteral];
    var regs, regs' := TextRegisters(VariableIdentifierLiteral, u, op), VarCmpRegisters(u, op, v);
    var e := j + |ValueText(v)| + 1;
    ValueStep(s, j, m2, regs, lits, index, v);
    ChildOfWellFormed(m2.next[0], lits + [VariableValueLiteral], Find(m2.next[0].table, ')').value);
    assert WellFormed(Id(id), lits + [VariableValueLiteral]);
    LookaheadLeaf(s, e, m2.next[0], regs', lits + [VariableValueLiteral], index, id);
  }

  /** A literal node reads its literal and walks on from the table after it. */
  lemma {:induction false} LiteralStep(s: string, i: nat, n: NtfNode, regs: Registers, lits: seq<LiteralType>, index: nat,
                                       regs': Registers, j: nat)
    requires i <= |s| && n.Literal? && WellFormed(n, lits) && HoldsAll(regs, lits)
    requires ReadLiteral(s, i, n.literal, regs) == (regs', j)
    ensures j <= |s| && WellFormed(n.next[0], lits + [n.literal]) && HoldsAll(regs', lits + [n.literal])
    ensures Walk(s, i, n, regs, lits, index) == Walk(s, j, n.next[0], regs', lits + [n.literal], index)
  {
  }

  /** A value literal node reads the value written at `i`, closed by `)`, and walks on from the table after it. */
  lemma {:induction false} ValueStep(s: string, i: nat, n: NtfNode, regs: Registers, lits: seq<LiteralType>, index: nat,
                                     v: VariableValue)
    requires n.Literal? && n.literal == VariableValueLiteral && WellFormed(n, lits) && HoldsAll(regs, lits)
    requires WrittenAt(s, i, ValueText(v) + [')'])
    ensures i + |ValueText(v)| + 1 <= |s|
    ensures WellFormed(n.next[0], lits + [VariableValueLiteral])
    ensures HoldsAll(regs.(value := Some(v), nextChar := Some(')')), lits + [VariableValueLiteral])
    ensures Walk(s, i, n, regs, lits, index) ==
      Walk(s, i + |ValueText(v)| + 1, n.next[0], regs.(value := Some(v), nextChar := Some(')')), lits + [VariableValueLiteral], index)
  {
    ReadValueLiteral(s, i, regs, v, ')');
    LiteralStep(s, i, n, regs, lits, index, regs.(value := Some(v), nextChar := Some(')')), i + |ValueText(v)| + 1);
  }

  /** A table whose entry for the lookahead character is the leaf `Id(id)` completes that instruction without reading. */
  lemma {:induction false} LookaheadLeaf(s: string, e: nat, t: NtfNode, regs: Registers, lits: seq<LiteralType>, index: nat,
                                         id: Ids.InstructionId)
    requires e <= |s| && t.Chars? && WellFormed(t, lits) && HoldsAll(regs, lits)
    requires regs.nextChar.Some? && Find(t.table, regs.nextChar.value).Some?
    requires t.table[Find(t.table, regs.nextChar.value).value].node == Id(id)
    requires HoldsAll(regs, KindLiterals(Kind(id)))
    ensures Walk(s, e, t, regs, lits, index) == Scan(Ok(Decoded(Complete(id, regs))), e)
  {
    ChildOfWellFormed(t, lits, Find(t.table, regs.nextChar.value).value);
  }

  /** The registers filled from a comparison's literals build the instruction whose payload holds them. */
  lemma {:induction false} CompleteVarCmp(id: Ids.InstructionId, p: Payload, op: char)
    requires Kind(id) == VarCmp && PayloadKind(p) == VarCmp
    ensures HoldsAll(VarCmpRegisters(Unpack(p.name.data), op, p.value), KindLiterals(Kind(id)))
    ensures Complete(id, VarCmpRegisters(Unpack(p.name.data), op, p.value)) == Instruction(id, p)
  {
    PackUnpack(p.name.data);
  }

  /** From the value's literal node, the comparison whose payload is `p` is decoded. */
  lemma {:induction false} VarValueDecodes(s: string, j: nat, m2: NtfNode, id: Ids.InstructionId, p: Payload, op: char, index: nat)
    requires Kind(id) == VarCmp && PayloadKind(p) == VarCmp
    requires ValueLeaf(m2, Id(id)) && WellFormed(m2, [] + [VariableIdentifierLiteral])
    requires WrittenAt(s, j, ValueText(p.value) + [')'])
    ensures Walk(s, j, m2, TextRegisters(VariableIdentifierLiteral, Unpack(p.name.data), op), [] + [VariableIdentifierLiteral], index) ==
      Scan(Ok(Decoded(Instruction(id, p))), j + |ValueText(p.value)| + 1)
  {
    WalkVarValue(s, j, m2, Unpack(p.name.data), op, p.value, id, index);
    CompleteVarCmp(id, p, op);
  }

  /** From the name's literal node, the comparison whose payload is `p` is decoded, as `w` states. */
  lemma {:induction false} VarCmpAfterPrefix(s: string, j: nat, m: NtfNode, id: Ids.InstructionId, p: Payload, op: char, index: nat,
                          w: Scan<Token>)
    requires Kind(id) == VarCmp && PayloadKind(p) == VarCmp
    requires m.Literal? && m.literal == VariableIdentifierLiteral && WellFormed(m, [])
    requires WrittenAt(s, j, Unpack(p.name.data) + [op]) && !IsAlnum(op)
    requires WrittenAt(s, j + |Unpack(p.name.data)| + 1, ValueText(p.value) + [')'])
    requires Find(m.next[0].table, op).Some?
    requires ValueLeaf(m.next[0].table[Find(m.next[0].table, op).value].node, Id(id))
    requires w == Scan(Ok(Decoded(Instruction(id, p))), j + |Unpack(p.name.data)| + 1 + |ValueText(p.value)| + 1)
    ensures Walk(s, j, m, NoRegisters, [], index) == w
  {
    var u := Unpack(p.name.data);
    var m2 := m.next[0].table[Find(m.next[0].table, op).value].node;
    OperatorNodeWellFormed(m, op);
    VarValueDecodes(s, j + |u| + 1, m2, id, p, op, index);
    WalkVarName(s, j, m, u, op, index, m2, w);
  }

  /** Text written at `i` as five pieces: the first, the next two, the last two. */
  lemma {:induction false} SplitWritten5(s: string, i: nat, a: string, u: string, o: string, w: string, z: string)
    requires WrittenAt(s, i, a + u + o + w + z)
    ensures WrittenAt(s, i, a) && WrittenAt(s, i + |a|, u + o) && WrittenAt(s, i + |a| + |u + o|, w + z)
  {
    SplitWritten(s, i, a + u + o, w, z);
    SplitWritten(s, i, a, u, o);
    assert |a + u + o| == |a| + |u + o|;
  }

  /** A comparison's token written at `i`, seen as its opening text, its name with the operator and its value with `)`. */
  lemma {:induction false} VarCmpPieces(s: string, i: nat, a: string, u: string, op: char, v: string)
    requires 0 < |a| && WrittenAt(s, i, a + u + [op] + v + [')'])
    ensures i < |s| && s[i] == a[0] && WrittenAt(s, i, a)
    ensures WrittenAt(s, i + |a|, u + [op]) && WrittenAt(s, i + |a| + |u| + 1, v + [')'])
  {
    SplitWritten5(s, i, a, u, [op], v, [')']);
    FirstChar(s, i, a);
  }

  /** The top-level entry and the name's literal node the opening text of a comparison's template leads to. */
  lemma {:induction false} VarCmpEntry(parts: seq<TemplatePart>, id: Ids.InstructionId) returns (k: nat, m: NtfNode)
    requires Kind(id) == VarCmp && Shaped(id, parts) && WalkTemplate(Root, parts, 0) == Some(Id(id))
    ensures Find(NTF2I, parts[0].chars[0]) == Some(k)
    ensures WellFormed(NTF2I[k].node, []) && WalkText(NTF2I[k].node, parts[0].chars, 1) == Some(m)
    ensures m.Literal? && m.literal == VariableIdentifierLiteral && |m.next| == 1 && m.next[0].Chars?
    ensures Find(m.next[0].table, parts[2].chars[0]).Some?
    ensures ValueLeaf(m.next[0].table[Find(m.next[0].table, parts[2].chars[0]).value].node, Id(id))
  {
    VarCmpWalk(parts, Id(id));
    m := WalkText(Root, parts[0].chars, 0).value;
    k := FirstEntry(parts[0].chars, m);
  }

  /**
   * After its first character, a comparison's token (the text `a`, the name, the operator `op`,
   * the value, `)`) is decoded into the comparison whose payload is `p`, as `w` states.
   */
  lemma {:induction false} VarCmpNodeWalk(s: string, i: nat, n: NtfNode, a: string, m: NtfNode, id: Ids.InstructionId, p: Payload,
                       op: char, w: Scan<Token>)
    requires Kind(id) == VarCmp && PayloadKind(p) == VarCmp
    requires WellFormed(n, []) && 0 < |a| && WalkText(n, a, 1) == Some(m)
    requires m.Literal? && m.literal == VariableIdentifierLiteral && |m.next| == 1 && m.next[0].Chars?
    requires Find(m.next[0].table, op).Some? && ValueLeaf(m.next[0].table[Find(m.next[0].table, op).value].node, Id(id))
    requires WrittenAt(s, i, a) && WrittenAt(s, i + |a|, Unpack(p.name.data) + [op]) && !IsAlnum(op)
    requires WrittenAt(s, i + |a| + |Unpack(p.name.data)| + 1, ValueText(p.value) + [')'])
    requires w == Scan(Ok(Decoded(Instruction(id, p))), i + |a| + |Unpack(p.name.data)| + 1 + |ValueText(p.value)| + 1)
    ensures Walk(s, i + 1, n, NoRegisters, [], i) == w
  {
    WalkTextWellFormed(n, [], a, 1, m);
    VarCmpAfterPrefix(s, i + |a|, m, id, p, op, i, w);
    TextThenWalk(s, i, n, a, m, w);
  }

  /** A comparison's token: `(`, the name, the operator, the value, `)`. */
  lemma {:induction false} DecodeVarCmp(s: string, i: nat, id: Ids.InstructionId, parts: seq<TemplatePart>, p: Payload)
    requires Kind(id) == VarCmp && PayloadKind(p) == VarCmp && Shaped(id, parts)
    requires WalkTemplate(Root, parts, 0) == Some(Id(id))
    requires WrittenAt(s, i, parts[0].chars + LiteralText(VariableIdentifierLiteral, p) + parts[2].chars
                             + LiteralText(VariableValueLiteral, p) + parts[4].chars)
    ensures TokenAt(s, i) == Scan(Ok(Some(Decoded(Instruction(id, p)))),
                                  i + 1 + |Unpack(p.name.data)| + 1 + |ValueText(p.value)| + 1)
  {
    var a, op := parts[0].chars, parts[2].chars[0];
    assert parts[2].chars == [op];
    var k, m := VarCmpEntry(parts, id);
    var next := i + |a| + |Unpack(p.name.data)| + 1 + |ValueText(p.value)| + 1;
    var w := Scan(Ok(Decoded(Instruction(id, p))), next);
    VarCmpPieces(s, i, a, Unpack(p.name.data), op, ValueText(p.value));
    VarCmpNodeWalk(s, i, NTF2I[k].node, a, m, id, p, op, w);
    TopLevelDecodes(s, i, k, Instruction(id, p), next);
  }

  // ----- the read-back theorem -----

  /** A template of one fixed text renders as that text. */
  lemma {:induction false} RenderOne(parts: seq<TemplatePart>, p: Payload)
    requires |parts| == 1 && parts[0].Text?
    ensures Render(parts, p, 0) == parts[0].chars
  {
    assert Render(parts, p, 1) == "";
  }

  /** A template of text, a placeholder and text renders as the three pieces in order. */
  lemma {:induction false} RenderThree(parts: seq<TemplatePart>, p: Payload)
    requires |parts| == 3 && parts[0].Text? && parts[1].Placeholder? && parts[2].Text?
    ensures Render(parts, p, 0) == parts[0].chars + LiteralText(parts[1].literal, p) + parts[2].chars
  {
    var a, u, z := parts[0].chars, LiteralText(parts[1].literal, p), parts[2].chars;
    assert Render(parts, p, 3) == "";
    assert Render(parts, p, 2) == z;
    assert Render(parts, p, 1) == u + z;
    assert Render(parts, p, 0) == a + (u + z);
  }

  /** A comparison's template renders as its five pieces in order. */
  lemma {:induction false} RenderFive(parts: seq<TemplatePart>, p: Payload)
    requires |parts| == 5 && parts[0].Text? && parts[1].Placeholder? && parts[2].Text?
    requires parts[3].Placeholder? && parts[4].Text?
    ensures Render(parts, p, 0) == parts[0].chars + LiteralText(parts[1].literal, p) + parts[2].chars
                                   + LiteralText(parts[3].literal, p) + parts[4].chars
  {
    var a, u, o, v, z := parts[0].chars, LiteralText(parts[1].literal, p), parts[2].chars,
                         LiteralText(parts[3].literal, p), parts[4].chars;
    assert Render(parts, p, 5) == "";
    assert Render(parts, p, 4) == z;
    assert Render(parts, p, 3) == v + z;
    assert Render(parts, p, 2) == o + (v + z);
    assert Render(parts, p, 1) == u + (o + (v + z));
    assert Render(parts, p, 0) == a + (u + (o + (v + z)));
    assert a + (u + (o + (v + z))) == a + u + o + v + z;
  }

  /** A one-text template that leads to `target` spells the path to it. */
  lemma {:induction false} SimpleWalk(parts: seq<TemplatePart>, target: NtfNode)
    requires |parts| == 1 && parts[0].Text? && WalkTemplate(Root, parts, 0) == Some(target)
    ensures WalkText(Root, parts[0].chars, 0) == Some(target)
  {
    var m := WalkText(Root, parts[0].chars, 0);
    assert m.Some?;
    assert WalkTemplate(m.value, parts, 1) == Some(m.value);
  }

  /** The token of a simple instruction, written from a template leading to its id, reads back. */
  lemma {:induction false} ReadBackSimple(s: string, i: nat, id: Ids.InstructionId, parts: seq<TemplatePart>, p: Payload)
    requires Kind(id) == Simple && PayloadKind(p) == Simple && Shaped(id, parts)
    requires TemplateTarget(parts) == Some(Id(id)) && WrittenAt(s, i, Render(parts, p, 0))
    ensures TokenAt(s, i) == Scan(Ok(Some(Decoded(Instruction(id, p)))), i + |Render(parts, p, 0)|)
  {
    RenderOne(parts, p);
    SimpleWalk(parts, Id(id));
    DecodeSimple(s, i, id, parts[0].chars);
  }

  /** The token of a label or string instruction, written from a template leading to its id, reads back. */
  lemma {:induction false} ReadBackClosed(s: string, i: nat, id: Ids.InstructionId, parts: seq<TemplatePart>, p: Payload)
    requires (Kind(id) == Label || Kind(id) == String) && PayloadKind(p) == Kind(id) && Shaped(id, parts)
    requires TemplateTarget(parts) == Some(Id(id)) && WrittenAt(s, i, Render(parts, p, 0))
    ensures TokenAt(s, i) == Scan(Ok(Some(Decoded(Instruction(id, p)))), i + |Render(parts, p, 0)|)
  {
    RenderThree(parts, p);
    assert ClosedLiteral(parts, KindLiterals(Kind(id))[0]);
    DecodeClosed(s, i, id, parts, p);
  }

  /** The token of a comparison, written from a template leading to its id, reads back. */
  lemma {:induction false} ReadBackVarCmp(s: string, i: nat, id: Ids.InstructionId, parts: seq<TemplatePart>, p: Payload)
    requires Kind(id) == VarCmp && PayloadKind(p) == VarCmp && Shaped(id, parts)
    requires TemplateTarget(parts) == Some(Id(id)) && WrittenAt(s, i, Render(parts, p, 0))
    ensures TokenAt(s, i) == Scan(Ok(Some(Decoded(Instruction(id, p)))), i + |Render(parts, p, 0)|)
  {
    RenderFive(parts, p);
    DecodeVarCmp(s, i, id, parts, p);
  }

  /**
   * Read-back: the token of any well-formed instruction other than Empty, written at `i`, is
   * decoded by `parse_next` into that very instruction, and decoding stops right after it.
   */
  lemma {:induction false} TokenReadBack(ins: Instruction, s: string, i: nat)
    requires ins.WellFormed() && ins.id != Ids.Empty && WrittenAt(s, i, TemplateTable.TokenText(ins))
    ensures TokenAt(s, i) == Scan(Ok(Some(Decoded(ins))), i + |TemplateTable.TokenText(ins)|)
  {
    var parts := TemplateTable.TemplateOf(ins.id);
    TemplateTable.TemplateOfLeads(ins.id);
    assert TemplateTarget(parts) == Some(Id(ins.id));
    match Kind(ins.id)
    case Simple => ReadBackSimple(s, i, ins.id, parts, ins.payload);
    case VarCmp => ReadBackVarCmp(s, i, ins.id, parts, ins.payload);
    case Label => ReadBackClosed(s, i, ins.id, parts, ins.payload);
    case String => ReadBackClosed(s, i, ins.id, parts, ins.payload);
  }

  // ----- the blank and the RotateCw token -----

  /**
   * Empty's token is a blank (data.rs:23), and a blank is the one-step directive
   * (data.rs:235): it decodes no instruction, the cursor moves one slot.
   */
  lemma {:induction false} EmptyReadsAsStep(s: string, i: nat)
    requires WrittenAt(s, i, TemplateTable.TokenText(EmptyInstruction))
    ensures TemplateTable.TokenText(EmptyInstruction) == " "
    ensures TokenAt(s, i) == Scan(Ok(Some(Directive(OneStepForward))), i + 1)
  {
    assert I2NTFCorrected[0] == I2ntfPart0Corrected[0] == (Ids.Empty, [Text(" ")]);
    TemplateTable.TemplateOfAt(Ids.Empty, 0);
    RenderOne([Text(" ")], NoPayload);
    WrittenChar(s, i, " ", 0);
    NtfShape.Ntf2iSorted();
    FindInSorted(NTF2I, 1);
    assert NTF2I[1] == Ntf2iFirstHalf[1] == Entry(' ', Command(OneStepForward));
  }

  /**
   * As written, `RotateCw`'s token `^CW;` (data.rs:38) does not read back: the `^` table
   * (data.rs:1127-1141) has no entry for `C`, so `parse_next` reports an unknown instruction
   * at the token's first character after reading two characters.
   */
  lemma {:induction false} RotateCwTokenAsWritten(s: string, i: nat)
    requires WrittenAt(s, i, "^CW;")
    ensures TokenAt(s, i) == Scan(Err(UnknownInstruction(i)), i + 2)
  {
    WrittenChar(s, i, "^CW;", 0);
    WrittenChar(s, i, "^CW;", 1);
    NtfShape.Ntf2iSorted();
    FindInSorted(NTF2I, 28);
    assert NTF2I[28] == Ntf2iSecondHalf[6] == Entry('^', AfterCaret);
    FindFromFails(AfterCaret.table, 'C', 0);
    NtfShape.WellFormedAfterCaret();
    assert Walk(s, i + 1, AfterCaret, NoRegisters, [], i) == Scan(Err(UnknownInstruction(i)), i + 2);
  }

  /** With the corrected spelling `CW;`, `RotateCw`'s token reads back as `RotateCw`. */
  lemma {:induction false} RotateCwTokenCorrected(s: string, i: nat)
    requires WrittenAt(s, i, "CW;")
    ensures TemplateTable.TokenText(Instruction(Ids.RotateCw, NoPayload)) == "CW;"
    ensures TokenAt(s, i) == Scan(Ok(Some(Decoded(Instruction(Ids.RotateCw, NoPayload)))), i + 3)
  {
    assert I2NTFCorrected[15] == I2ntfPart0Corrected[15] == (Ids.RotateCw, [Text("CW;")]);
    TemplateTable.TemplateOfAt(Ids.RotateCw, 15);
    RenderOne([Text("CW;")], NoPayload);
    TokenReadBack(Instruction(Ids.RotateCw, NoPayload), s, i);
  }
}
