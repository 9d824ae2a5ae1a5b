/**
 * The token templates `I2NTF` (src/serialization/native/new/data.rs:21-227) against the trie
 * `NTF2I`: one template per identifier, in ascending order of code, each of a shape its kind
 * allows, and each leading through the trie to its own identifier.
 */
module NtfTemplates {
  import opened Wrappers
  import opened Literals
  import opened Instructions
  import opened NtfData
  import NtfShape
  import Ids = InstructionIds

  /** The trie's top-level table seen as one more table node: the root of every walk. */
  const Root: NtfNode := Chars(NTF2I)

  // ----- walking the trie along a template -----

  /** The node reached from `n` by following the characters of `cs` from index `j` on. */
  function WalkText(n: NtfNode, cs: string, j: nat): (r: Option<NtfNode>)
    decreases |cs| - j
  {
    if j >= |cs| then Some(n)
    else match n
      case Chars(t) =>
        (match Find(t, cs[j])
         case Some(k) => WalkText(t[k].node, cs, j + 1)
         case None => None)
      case _ => None
  }

  /**
   * The node reached from `n` over parts `p..` of a template: fixed text follows table entries,
   * a placeholder passes a literal node of the same literal type.
   */
  function WalkTemplate(n: NtfNode, parts: seq<TemplatePart>, p: nat): (r: Option<NtfNode>)
    decreases |parts| - p
  {
    if p >= |parts| then Some(n)
    else match parts[p]
      case Text(cs) =>
        (match WalkText(n, cs, 0)
         case Some(m) => WalkTemplate(m, parts, p + 1)
         case None => None)
      case Placeholder(lt) =>
        match n
        case Literal(lt', next) =>
          if lt' == lt && |next| == 1 then WalkTemplate(next[0], parts, p + 1) else None
        case _ => None
  }

  /** Where the trie leads over a whole template, `None` when the template leaves it. */
  function TemplateTarget(parts: seq<TemplatePart>): Option<NtfNode> {
    WalkTemplate(Root, parts, 0)
  }

  /** A character from a table step: the lookup in a sorted table finds the entry holding it. */
  lemma StepText(n: NtfNode, lits: seq<LiteralType>, cs: string, j: nat, k: nat)
    requires n.Chars? && WellFormed(n, lits)
    requires j < |cs| && k < |n.table| && n.table[k].key == cs[j]
    ensures WellFormed(n.table[k].node, lits)
    ensures WalkText(n, cs, j) == WalkText(n.table[k].node, cs, j + 1)
  {
    TableSorted(n, lits);
    ChildOfWellFormed(n, lits, k);
    FindInSorted(n.table, k);
  }

  /** The first character of a token, looked up in the top-level table. */
  lemma StepRoot(cs: string, k: nat)
    requires 0 < |cs| && k < |NTF2I| && NTF2I[k].key == cs[0]
    ensures TopLevelEntryOk(NTF2I[k])
    ensures WalkText(Root, cs, 0) == WalkText(NTF2I[k].node, cs, 1)
  {
    NtfShape.Ntf2iSorted();
    NtfShape.Ntf2iEntry(k);
    FindInSorted(NTF2I, k);
  }

  // ----- what each template must be -----

  /**
   * The template shapes the decoder relies on: a simple id is spelled by fixed text alone;
   * a label or string id by text, the literal, and one closing character that cannot continue
   * the literal; a comparison by `(`, the name, one operator character, the value and `)`.
   */
  predicate Shaped(id: Ids.InstructionId, parts: seq<TemplatePart>) {
    match Kind(id)
    case Simple => |parts| == 1 && parts[0].Text? && 0 < |parts[0].chars|
    case Label => ClosedLiteral(parts, LabelIdentifierLiteral)
    case String => ClosedLiteral(parts, StringLiteral)
    case VarCmp =>
      && |parts| == 5 && parts[0] == Text("(") && parts[1] == Placeholder(VariableIdentifierLiteral)
      && parts[2].Text? && |parts[2].chars| == 1 && !IsAlnum(parts[2].chars[0])
      && parts[3] == Placeholder(VariableValueLiteral) && parts[4] == Text(")")
  }

  predicate ClosedLiteral(parts: seq<TemplatePart>, lt: LiteralType) {
    && |parts| == 3 && parts[0].Text? && 0 < |parts[0].chars| && parts[1] == Placeholder(lt)
    && parts[2].Text? && |parts[2].chars| == 1 && !IsAlnum(parts[2].chars[0])
  }

  /** What a template should lead to: its id, except Empty, whose blank is the one-step directive. */
  function Expected(id: Ids.InstructionId): NtfNode {
    if id == Ids.Empty then Command(OneStepForward) else Id(id)
  }

  /** An entry of a template table is well shaped and leads through the trie to what it stands for. */
  predicate EntryOk(e: TemplateEntry) {
    Shaped(e.0, e.1) && TemplateTarget(e.1) == Some(Expected(e.0))
  }

  // ----- the order of the table -----

  /** No identifier has a code strictly between `a` and `b`. */
  predicate NoIdBetween(a: int, b: int) {
    forall c | a < c < b :: Ids.IsGapCode(c)
  }

  /**
   * From entry `i` on, codes increase and no identifier falls between neighbours: the form in
   * which the table is checked.
   */
  predicate CoversFrom(t: seq<TemplateEntry>, i: nat)
    decreases |t| - i
  {
    i + 1 >= |t| ||
      (&& Ids.Code(t[i].0) < Ids.Code(t[i + 1].0)
       && NoIdBetween(Ids.Code(t[i].0), Ids.Code(t[i + 1].0))
       && CoversFrom(t, i + 1))
  }

  /** A table covers every identifier: codes strictly ascending, none left out, 0 and 182 at the ends. */
  predicate CoversAllIds(t: seq<TemplateEntry>) {
    && 0 < |t| && CoversFrom(t, 0)
    && Ids.Code(t[0].0) == 0 && Ids.Code(t[|t| - 1].0) == 182
  }

  lemma {:induction false} CoversFromAt(t: seq<TemplateEntry>, i: nat, j: nat)
    requires CoversFrom(t, i) && i <= j
    ensures CoversFrom(t, j)
    ensures j + 1 < |t| ==> Ids.Code(t[j].0) < Ids.Code(t[j + 1].0) && NoIdBetween(Ids.Code(t[j].0), Ids.Code(t[j + 1].0))
    decreases j - i
  {
    if i < j {
      CoversFromAt(t, i + 1, j);
    }
  }

  /** In a checked table codes strictly increase, so no identifier has two entries. */
  lemma {:induction false} CoversFromAscending(t: seq<TemplateEntry>, i: nat)
    requires CoversFrom(t, i)
    ensures forall a, b | i <= a < b < |t| :: Ids.Code(t[a].0) < Ids.Code(t[b].0)
    decreases |t| - i
  {
    if i + 1 < |t| {
      CoversFromAscending(t, i + 1);
    }
  }

  /** Two checked tables, the first ending below the second with no identifier between, make one. */
  lemma {:induction false} CoversConcat(a: seq<TemplateEntry>, b: seq<TemplateEntry>, i: nat)
    requires CoversFrom(a, i) && CoversFrom(b, 0) && 0 < |a| && 0 < |b| && i < |a|
    requires Ids.Code(a[|a| - 1].0) < Ids.Code(b[0].0) && NoIdBetween(Ids.Code(a[|a| - 1].0), Ids.Code(b[0].0))
    ensures CoversFrom(a + b, i)
    decreases |a| - i
  {
    if i + 1 < |a| {
      CoversConcat(a, b, i + 1);
    } else {
      CoversShift(a, b, 0);
    }
  }

  lemma {:induction false} CoversShift(a: seq<TemplateEntry>, b: seq<TemplateEntry>, j: nat)
    requires CoversFrom(b, j)
    ensures CoversFrom(a + b, |a| + j)
    decreases |b| - j
  {
    if j + 1 < |b| {
      CoversShift(a, b, j + 1);
    }
  }

  // ----- looking an identifier up -----

  /** The index of the first entry for `id`, scanning from entry `i`. */
  function FindTemplateFrom(t: seq<TemplateEntry>, id: Ids.InstructionId, i: nat): (r: Option<nat>)
    requires i <= |t|
    ensures r.Some? ==> i <= r.value < |t| && t[r.value].0 == id
    ensures r.None? ==> forall k | i <= k < |t| :: t[k].0 != id
    decreases |t| - i
  {
    if i == |t| then None else if t[i].0 == id then Some(i) else FindTemplateFrom(t, id, i + 1)
  }

  /**
   * A checked table holds every identifier whose code lies between the codes of entry `i` and
   * of the last entry.
   */
  lemma {:induction false} CoveredIdFound(t: seq<TemplateEntry>, i: nat, id: Ids.InstructionId)
    requires CoversFrom(t, i) && i < |t|
    requires Ids.Code(t[i].0) <= Ids.Code(id) <= Ids.Code(t[|t| - 1].0)
    ensures FindTemplateFrom(t, id, i).Some?
    decreases |t| - i
  {
    if t[i].0 != id {
      assert i + 1 < |t|;
      assert !Ids.IsGapCode(Ids.Code(id));
      CoveredIdFound(t, i + 1, id);
    }
  }

  /** In a table that covers all identifiers, every identifier has exactly one entry. */
  lemma EveryIdOnce(t: seq<TemplateEntry>, id: Ids.InstructionId)
    requires CoversAllIds(t)
    ensures FindTemplateFrom(t, id, 0).Some?
    ensures forall k | 0 <= k < |t| && t[k].0 == id :: k == FindTemplateFrom(t, id, 0).value
  {
    CoveredIdFound(t, 0, id);
    CoversFromAscending(t, 0);
  }

  // ----- the text of a token -----

  /** What a placeholder stands for in a token of an instruction with payload `p`. */
  function LiteralText(lt: LiteralType, p: Payload): string {
    match lt
    case LabelIdentifierLiteral => if p.LabelPayload? then Unpack(p.target.data) else ""
    case StringLiteral => if p.StringPayload? then Unpack(p.text.data) else ""
    case VariableIdentifierLiteral => if p.VarCmpPayload? then Unpack(p.name.data) else ""
    case VariableValueLiteral => if p.VarCmpPayload? then ValueText(p.value) else ""
  }

  /** The text of parts `q..` of a template, with the payload's literals in place of the placeholders. */
  function Render(parts: seq<TemplatePart>, p: Payload, q: nat): string
    decreases |parts| - q
  {
    if q >= |parts| then ""
    else (match parts[q] case Text(cs) => cs case Placeholder(lt) => LiteralText(lt, p)) + Render(parts, p, q + 1)
  }

  /** The literal types of the placeholders of parts `q..` of a template, in order. */
  function Placeholders(parts: seq<TemplatePart>, q: nat): seq<LiteralType>
    decreases |parts| - q
  {
    if q >= |parts| then []
    else (match parts[q] case Text(_) => [] case Placeholder(lt) => [lt]) + Placeholders(parts, q + 1)
  }

  /** A shaped template holds exactly the literals the id's kind carries, in the order tokens carry them. */
  lemma ShapedPlaceholders(id: Ids.InstructionId, parts: seq<TemplatePart>)
    requires Shaped(id, parts)
    ensures Placeholders(parts, 0) == KindLiterals(Kind(id))
  {
    assert Placeholders(parts, |parts|) == [];
    if Kind(id) == VarCmp {
      assert Placeholders(parts, 4) == [];
      assert Placeholders(parts, 2) == [VariableValueLiteral];
    } else if Kind(id) != Simple {
      assert Placeholders(parts, 2) == [];
    }
  }
}
