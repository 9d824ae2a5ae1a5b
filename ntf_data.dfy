/**
 * The static tables of the New Text Format (src/serialization/native/new/data.rs).
 *
 * `NTF2I` is the trie the decoder walks: a table sorted by character whose nodes are a
 * position directive, an instruction id, a further table, or a literal to read before the
 * walk goes on in the single node that follows it. `I2NTF` gives each instruction id its token
 * template: fixed text with placeholders for the literals.
 */
module NtfData {
  import opened Wrappers
  import opened Literals
  import opened Instructions
  import Ids = InstructionIds

  /** The position directives of the format. */
  datatype Command = OneStepForward | ThreeStepsForward | GoToNextRow | GoToNextPage

  datatype NtfNode =
    | Command(command: Command)
    | Id(id: Ids.InstructionId)
    | Chars(table: seq<Entry>)
    | Literal(literal: LiteralType, next: seq<NtfNode>)

  datatype Entry = Entry(key: char, node: NtfNode)

  // ----- lookup in a table -----

  /** The index of the first entry holding `key`, scanning from entry `i`. */
  function FindFrom(t: seq<Entry>, key: char, i: nat): (r: Option<nat>)
    requires i <= |t|
    ensures r.Some? ==> i <= r.value < |t| && t[r.value].key == key
    decreases |t| - i
  {
    if i == |t| then None else if t[i].key == key then Some(i) else FindFrom(t, key, i + 1)
  }

  /** The index of the entry a table holds under `key`, if any. */
  function Find(t: seq<Entry>, key: char): (r: Option<nat>)
    ensures r.Some? ==> r.value < |t| && t[r.value].key == key
  {
    FindFrom(t, key, 0)
  }

  predicate KeysAscending(t: seq<Entry>) {
    forall i, j | 0 <= i < j < |t| :: t[i].key < t[j].key
  }

  /** Adjacent keys increase from entry `i` on; the form in which the tables are checked. */
  predicate AscendingFrom(t: seq<Entry>, i: nat)
    decreases |t| - i
  {
    i + 1 >= |t| || (t[i].key < t[i + 1].key && AscendingFrom(t, i + 1))
  }

  lemma {:induction false} AscendingFromKeys(t: seq<Entry>, i: nat)
    requires AscendingFrom(t, i)
    ensures forall a, b | i <= a < b < |t| :: t[a].key < t[b].key
    decreases |t| - i
  {
    if i + 1 < |t| {
      AscendingFromKeys(t, i + 1);
    }
  }

  /** Two sorted tables, the first ending below the start of the second, make one sorted table. */
  lemma AscendingConcat(a: seq<Entry>, b: seq<Entry>)
    requires AscendingFrom(a, 0) && AscendingFrom(b, 0)
    requires 0 < |a| && 0 < |b| && a[|a| - 1].key < b[0].key
    ensures KeysAscending(a + b)
  {
    AscendingFromKeys(a, 0);
    AscendingFromKeys(b, 0);
    var t := a + b;
    forall i, j | 0 <= i < j < |t|
      ensures t[i].key < t[j].key
    {
      if j < |a| {
      } else if |a| <= i {
        assert t[i] == b[i - |a|] && t[j] == b[j - |a|];
      } else {
        assert t[i].key <= a[|a| - 1].key && b[0].key <= t[j].key;
      }
    }
  }

  /** The scan fails exactly when no entry from `i` on holds the key. */
  lemma {:induction false} FindFromFails(t: seq<Entry>, key: char, i: nat)
    requires i <= |t|
    ensures FindFrom(t, key, i).None? <==> forall j | i <= j < |t| :: t[j].key != key
    decreases |t| - i
  {
    if i < |t| && t[i].key != key {
      FindFromFails(t, key, i + 1);
    }
  }

  /** In a sorted table the entry holding a key is the one the lookup finds. */
  lemma FindInSorted(t: seq<Entry>, j: nat)
    requires KeysAscending(t) && j < |t|
    ensures Find(t, t[j].key) == Some(j)
  {
    FindFromFails(t, t[j].key, 0);
  }

  /**
   * Binary search by key, as `binary_search_by_key` does it: the index of the entry holding
   * `key`, or `None` when no entry does.
   */
  method BinarySearch(t: seq<Entry>, key: char) returns (r: Option<nat>)
    requires KeysAscending(t)
    ensures r.Some? ==> r.value < |t| && t[r.value].key == key
    ensures r.None? <==> forall j | 0 <= j < |t| :: t[j].key != key
    ensures r == Find(t, key)
  {
    var lo, hi := 0, |t|;
    while lo < hi
      invariant 0 <= lo <= hi <= |t|
      invariant forall j | 0 <= j < lo :: t[j].key < key
      invariant forall j | hi <= j < |t| :: key < t[j].key
      decreases hi - lo
    {
      var mid := (lo + hi) / 2;
      if t[mid].key < key {
        lo := mid + 1;
      } else if key < t[mid].key {
        hi := mid;
      } else {
        FindInSorted(t, mid);
        return Some(mid);
      }
    }
    FindFromFails(t, key, 0);
    return None;
  }

  // ----- the shape of the trie -----

  /**
   * A node below the top level is well formed for the literals `lits` read on the way to it:
   * no directive; an id's kind asks for exactly `lits`; a table is non-empty, sorted, and its
   * children are well formed; a literal is followed by exactly one node, a table.
   */
  predicate WellFormed(n: NtfNode, lits: seq<LiteralType>)
    decreases n, 1, 0
  {
    match n
    case Command(_) => false
    case Id(id) => KindLiterals(Kind(id)) == lits
    case Chars(t) => 0 < |t| && AscendingFrom(t, 0) && ChildrenWellFormed(n, 0, lits)
    case Literal(lt, next) => |next| == 1 && next[0].Chars? && WellFormed(next[0], lits + [lt])
  }

  predicate ChildrenWellFormed(owner: NtfNode, i: nat, lits: seq<LiteralType>)
    requires owner.Chars?
    decreases owner, 0, |owner.table| - i
  {
    i >= |owner.table| || (WellFormed(owner.table[i].node, lits) && ChildrenWellFormed(owner, i + 1, lits))
  }

  lemma {:induction false} ChildrenWellFormedAt(owner: NtfNode, i: nat, j: nat, lits: seq<LiteralType>)
    requires owner.Chars? && ChildrenWellFormed(owner, i, lits) && i <= j < |owner.table|
    ensures WellFormed(owner.table[j].node, lits)
    decreases j - i
  {
    if i < j {
      ChildrenWellFormedAt(owner, i + 1, j, lits);
    }
  }

  /** One entry of a well-formed table holds a well-formed node. */
  lemma ChildOfWellFormed(n: NtfNode, lits: seq<LiteralType>, k: nat)
    requires n.Chars? && WellFormed(n, lits) && k < |n.table|
    ensures WellFormed(n.table[k].node, lits)
  {
    ChildrenWellFormedAt(n, 0, k, lits);
  }

  /** The keys of a well-formed table ascend, as the binary search needs. */
  lemma TableSorted(n: NtfNode, lits: seq<LiteralType>)
    requires n.Chars? && WellFormed(n, lits)
    ensures KeysAscending(n.table)
  {
    AscendingFromKeys(n.table, 0);
  }

  /** The directive each of the four directive characters stands for. */
  predicate IsDirective(key: char, c: Command) {
    || (key == '\n' && c == GoToNextRow)
    || (key == ' ' && c == OneStepForward)
    || (key == '_' && c == ThreeStepsForward)
    || (key == '~' && c == GoToNextPage)
  }

  /** A top-level entry is a directive under its character, or a well-formed node with no literal read yet. */
  predicate TopLevelEntryOk(e: Entry) {
    if e.node.Command? then IsDirective(e.key, e.node.command) else WellFormed(e.node, [])
  }

  predicate TopLevelFrom(t: seq<Entry>, i: nat)
    decreases |t| - i
  {
    i >= |t| || (TopLevelEntryOk(t[i]) && TopLevelFrom(t, i + 1))
  }

  lemma {:induction false} TopLevelFromAt(t: seq<Entry>, i: nat, j: nat)
    requires TopLevelFrom(t, i) && i <= j < |t|
    ensures TopLevelEntryOk(t[j])
    decreases j - i
  {
    if i < j {
      TopLevelFromAt(t, i + 1, j);
    }
  }

  // ----- the trie -----

  /** The tokens starting with '!' (data.rs:237-263). */
  const AfterBang: NtfNode :=
    Chars([
      Entry('?', Literal(LabelIdentifierLiteral, [Chars([Entry('<', Id(Ids.IfGoTo))])])),
      Entry('{', Literal(StringLiteral, [Chars([Entry('}', Id(Ids.DebugBreak))])]))
    ])

  /** The tokens starting with '#' (data.rs:265-284). */
  const AfterHash: NtfNode :=
    Chars([
      Entry('E', Id(Ids.End)),
      Entry('R', Literal(LabelIdentifierLiteral, [Chars([Entry('<', Id(Ids.OnResp))])])),
      Entry('S', Id(Ids.Start))
    ])

  /** The tokens starting with '(' (data.rs:286-326). */
  const AfterParen: NtfNode :=
    Literal(VariableIdentifierLiteral, [Chars([
      Entry('<', Literal(VariableValueLiteral, [Chars([Entry(')', Id(Ids.VarLess))])])),
      Entry('=', Literal(VariableValueLiteral, [Chars([Entry(')', Id(Ids.VarEqual))])])),
      Entry('>', Literal(VariableValueLiteral, [Chars([Entry(')', Id(Ids.VarMore))])]))
    ])])

  /** The tokens starting with '-' (data.rs:330-345). */
  const AfterMinus: NtfNode :=
    Chars([
      Entry('>', Literal(LabelIdentifierLiteral, [Chars([Entry('>', Id(Ids.GoSub1))])]))
    ])

  /** The tokens starting with ':' (data.rs:347-362). */
  const AfterColon: NtfNode :=
    Chars([
      Entry('>', Literal(LabelIdentifierLiteral, [Chars([Entry('>', Id(Ids.GoSub))])]))
    ])

  /** The tokens starting with '<' (data.rs:364-386). */
  const AfterLess: NtfNode :=
    Chars([
      Entry('-', Chars([Entry('|', Id(Ids.Return1))])),
      Entry('=', Chars([Entry('|', Id(Ids.ReturnF))])),
      Entry('|', Id(Ids.Return))
    ])

  /** The tokens starting with '=' (data.rs:388-465). */
  const AfterEquals: NtfNode :=
    Chars([
      Entry('>', Literal(LabelIdentifierLiteral, [Chars([Entry('>', Id(Ids.GoSubF))])])),
      Entry('A', Id(Ids.CcAcid)),
      Entry('B', Id(Ids.CccBlackRock)),
      Entry('G', Id(Ids.CcGun)),
      Entry('K', Id(Ids.CccRedRock)),
      Entry('R', Id(Ids.CccRoad)),
      Entry('a', Id(Ids.CcAlive)),
      Entry('b', Id(Ids.CcBolder)),
      Entry('c', Id(Ids.CcCrystall)),
      Entry('d', Id(Ids.CcDead)),
      Entry('e', Id(Ids.CcEmpty)),
      Entry('f', Id(Ids.CcGravity)),
      Entry('g', Id(Ids.CccGreenBlock)),
      Entry('h', Chars([
        Entry('p', Chars([
          Entry('-', Id(Ids.CbHp)),
          Entry('5', Chars([Entry('0', Id(Ids.CbHp50))]))
        ]))
      ])),
      Entry('k', Id(Ids.CcRock)),
      Entry('n', Id(Ids.CcNotEmpty)),
      Entry('o', Id(Ids.CccOpor)),
      Entry('q', Id(Ids.CccQuadro)),
      Entry('r', Id(Ids.CccRedBlock)),
      Entry('s', Id(Ids.CcSand)),
      Entry('x', Id(Ids.CccBox)),
      Entry('y', Id(Ids.CccYellowBlock))
    ])

  /** The tokens starting with '>' (data.rs:467-476). */
  const AfterGreater: NtfNode :=
    Literal(LabelIdentifierLiteral, [Chars([Entry('|', Id(Ids.GoTo))])])

  /** The tokens starting with '?' (data.rs:478-487). */
  const AfterQuestion: NtfNode :=
    Literal(LabelIdentifierLiteral, [Chars([Entry('<', Id(Ids.IfNotGoTo))])])

  /** The tokens starting with 'A' (data.rs:489-533). */
  const AfterUpperA: NtfNode :=
    Chars([
      Entry('G', Chars([
        Entry('R', Chars([Entry('+', Id(Ids.ModeAgrOn)), Entry('-', Id(Ids.ModeAgrOff))]))
      ])),
      Entry('N', Chars([Entry('D', Id(Ids.BoolModeAnd))])),
      Entry('U', Chars([
        Entry('T', Chars([Entry('+', Id(Ids.ModeAutodiggOn)), Entry('-', Id(Ids.ModeAutodiggOff))]))
      ]))
    ])

  /** The tokens starting with 'B' (data.rs:535-609). */
  const AfterUpperB: NtfNode :=
    Chars([
      Entry('1', Chars([Entry(';', Id(Ids.ActionB1))])),
      Entry('2', Chars([Entry(';', Id(Ids.ActionB3))])),
      Entry('3', Chars([Entry(';', Id(Ids.ActionB2))])),
      Entry('E', Chars([
        Entry('E', Chars([Entry('P', Chars([Entry(';', Id(Ids.ActionBibika))]))]))
      ])),
      Entry('U', Chars([
        Entry('I', Chars([
          Entry('L', Chars([Entry('D', Chars([Entry(';', Id(Ids.StdBuild))]))]))
        ]))
      ]))
    ])

  /** The tokens starting with 'C' (data.rs:611-683). */
  const AfterUpperC: NtfNode :=
    Chars([
      Entry('1', Chars([
        Entry('9', Chars([Entry('0', Chars([Entry(';', Id(Ids.ActionC190))]))]))
      ])),
      Entry('C', Chars([Entry('W', Chars([Entry(';', Id(Ids.RotateCcw))]))])),
      Entry('R', Chars([
        Entry('A', Chars([
          Entry('F', Chars([Entry('T', Chars([Entry(';', Id(Ids.ActionCraft))]))]))
        ]))
      ])),
      Entry('W', Chars([Entry(';', Id(Ids.RotateCw))]))
    ])

  /** The tokens starting with 'D' (data.rs:685-709). */
  const AfterUpperD: NtfNode :=
    Chars([
      Entry('I', Chars([
        Entry('G', Chars([Entry('G', Chars([Entry(';', Id(Ids.StdDigg))]))]))
      ]))
    ])

  /** The tokens starting with 'F' (data.rs:711-755). */
  const AfterUpperF: NtfNode :=
    Chars([
      Entry('I', Chars([
        Entry('L', Chars([Entry('L', Chars([Entry(';', Id(Ids.FillGun))]))]))
      ])),
      Entry('L', Chars([
        Entry('I', Chars([Entry('P', Chars([Entry(';', Id(Ids.ProgFlip))]))]))
      ]))
    ])

  /** The tokens starting with 'G' (data.rs:757-775). */
  const AfterUpperG: NtfNode :=
    Chars([
      Entry('E', Chars([Entry('O', Chars([Entry(';', Id(Ids.ActionGeopack))]))]))
    ])

  /** The tokens starting with 'H' (data.rs:777-823). */
  const AfterUpperH: NtfNode :=
    Chars([
      Entry('E', Chars([
        Entry('A', Chars([Entry('L', Chars([Entry(';', Id(Ids.StdHeal))]))]))
      ])),
      Entry('a', Chars([
        Entry('n', Chars([
          Entry('d', Chars([Entry('+', Id(Ids.HandModeOn)), Entry('-', Id(Ids.HandModeOff))]))
        ]))
      ]))
    ])

  /** The tokens starting with 'M' (data.rs:825-849). */
  const AfterUpperM: NtfNode :=
    Chars([
      Entry('I', Chars([
        Entry('N', Chars([Entry('E', Chars([Entry(';', Id(Ids.StdMine))]))]))
      ]))
    ])

  /** The tokens starting with 'N' (data.rs:851-875). */
  const AfterUpperN: NtfNode :=
    Chars([
      Entry('A', Chars([
        Entry('N', Chars([Entry('O', Chars([Entry(';', Id(Ids.ActionNano))]))]))
      ]))
    ])

  /** The tokens starting with 'O' (data.rs:877-883). */
  const AfterUpperO: NtfNode :=
    Chars([Entry('R', Id(Ids.BoolModeOr))])

  /** The tokens starting with 'P' (data.rs:885-909). */
  const AfterUpperP: NtfNode :=
    Chars([
      Entry('O', Chars([
        Entry('L', Chars([Entry('Y', Chars([Entry(';', Id(Ids.ActionPoly))]))]))
      ]))
    ])

  /** The tokens starting with 'R' (data.rs:911-949). */
  const AfterUpperR: NtfNode :=
    Chars([
      Entry('A', Chars([
        Entry('N', Chars([Entry('D', Chars([Entry(';', Id(Ids.ActionRandom))]))]))
      ])),
      Entry('E', Chars([Entry('M', Chars([Entry(';', Id(Ids.ActionRembot))]))]))
    ])

  /** The tokens starting with 'U' (data.rs:951-963). */
  const AfterUpperU: NtfNode :=
    Chars([Entry('P', Chars([Entry(';', Id(Ids.ActionUp))]))])

  /** The tokens starting with 'V' (data.rs:965-977). */
  const AfterUpperV: NtfNode :=
    Chars([Entry('B', Chars([Entry(';', Id(Ids.ActionWb))]))])

  /** The tokens starting with 'Z' (data.rs:979-991). */
  const AfterUpperZ: NtfNode :=
    Chars([Entry('Z', Chars([Entry(';', Id(Ids.ActionZm))]))])

  /** The tokens starting with '[' (data.rs:993-1125). */
  const AfterBracket: NtfNode :=
    Chars([
      Entry('A', Chars([
        Entry('S', Chars([Entry(']', Id(Ids.CellAs))])),
        Entry(']', Id(Ids.CellA))
      ])),
      Entry('D', Chars([
        Entry('W', Chars([Entry(']', Id(Ids.CellDw))])),
        Entry(']', Id(Ids.CellD))
      ])),
      Entry('F', Chars([Entry(']', Id(Ids.CellF))])),
      Entry('S', Chars([
        Entry('D', Chars([Entry(']', Id(Ids.CellSd))])),
        Entry(']', Id(Ids.CellS))
      ])),
      Entry('W', Chars([
        Entry('A', Chars([Entry(']', Id(Ids.CellWa))])),
        Entry(']', Id(Ids.CellW))
      ])),
      Entry('a', Chars([Entry(']', Id(Ids.CellAa))])),
      Entry('d', Chars([Entry(']', Id(Ids.CellDd))])),
      Entry('f', Chars([Entry(']', Id(Ids.CellFf))])),
      Entry('l', Chars([Entry(']', Id(Ids.CellLeftHand))])),
      Entry('r', Chars([Entry(']', Id(Ids.CellRightHand))])),
      Entry('s', Chars([Entry(']', Id(Ids.CellSs))])),
      Entry('w', Chars([Entry(']', Id(Ids.CellWw))]))
    ])

  /** The tokens starting with '^' (data.rs:1127-1141). */
  const AfterCaret: NtfNode :=
    Chars([
      Entry('A', Id(Ids.MoveA)),
      Entry('D', Id(Ids.MoveD)),
      Entry('F', Id(Ids.MoveF)),
      Entry('S', Id(Ids.MoveS)),
      Entry('W', Id(Ids.MoveW))
    ])

  /** The tokens starting with 'i' (data.rs:1155-1167). */
  const AfterLowerI: NtfNode :=
    Chars([
      Entry('a', Id(Ids.InvDirA)),
      Entry('d', Id(Ids.InvDirD)),
      Entry('s', Id(Ids.InvDirS)),
      Entry('w', Id(Ids.InvDirW))
    ])

  /** The tokens starting with '{' (data.rs:1179-1188). */
  const AfterBrace: NtfNode :=
    Literal(StringLiteral, [Chars([Entry('}', Id(Ids.DebugSet))])])

  /** The tokens starting with '|' (data.rs:1190-1199). */
  const AfterBar: NtfNode :=
    Literal(LabelIdentifierLiteral, [Chars([Entry(':', Id(Ids.Label))])])

  /** The first 22 entries of the top-level table, up to `'['` excluded. */
  const Ntf2iFirstHalf: seq<Entry> := [
    Entry('\n', Command(GoToNextRow)),
    Entry(' ', Command(OneStepForward)),
    Entry('!', AfterBang),
    Entry('#', AfterHash),
    Entry('(', AfterParen),
    Entry(',', Id(Ids.Back)),
    Entry('-', AfterMinus),
    Entry(':', AfterColon),
    Entry('<', AfterLess),
    Entry('=', AfterEquals),
    Entry('>', AfterGreater),
    Entry('?', AfterQuestion),
    Entry('A', AfterUpperA),
    Entry('B', AfterUpperB),
    Entry('C', AfterUpperC),
    Entry('D', AfterUpperD),
    Entry('F', AfterUpperF),
    Entry('G', AfterUpperG),
    Entry('H', AfterUpperH),
    Entry('M', AfterUpperM),
    Entry('N', AfterUpperN),
    Entry('O', AfterUpperO)
  ]

  /** The last 22 entries of the top-level table. */
  const Ntf2iSecondHalf: seq<Entry> := [
    Entry('P', AfterUpperP),
    Entry('R', AfterUpperR),
    Entry('U', AfterUpperU),
    Entry('V', AfterUpperV),
    Entry('Z', AfterUpperZ),
    Entry('[', AfterBracket),
    Entry('^', AfterCaret),
    Entry('_', Command(ThreeStepsForward)),
    Entry('a', Id(Ids.LookA)),
    Entry('b', Id(Ids.ActionBuild)),
    Entry('d', Id(Ids.LookD)),
    Entry('g', Id(Ids.ActionGeo)),
    Entry('h', Id(Ids.ActionHeal)),
    Entry('i', AfterLowerI),
    Entry('q', Id(Ids.ActionQuadro)),
    Entry('r', Id(Ids.ActionRoad)),
    Entry('s', Id(Ids.LookS)),
    Entry('w', Id(Ids.LookW)),
    Entry('z', Id(Ids.Digg)),
    Entry('{', AfterBrace),
    Entry('|', AfterBar),
    Entry('~', Command(GoToNextPage))
  ]

  /** `NTF2I`: the 44 top-level entries (data.rs:230-1202). */
  const NTF2I: seq<Entry> := Ntf2iFirstHalf + Ntf2iSecondHalf

  // ----- the token templates -----

  /** A piece of a token template: fixed text, or the place of a literal. */
  datatype TemplatePart = Text(chars: string) | Placeholder(literal: LiteralType)

  type TemplateEntry = (Ids.InstructionId, seq<TemplatePart>)

  const I2ntfPart0: seq<TemplateEntry> := [
    (Ids.Empty, [Text(" ")]),
    (Ids.Back, [Text(",")]),
    (Ids.Start, [Text("#S")]),
    (Ids.End, [Text("#E")]),
    (Ids.MoveW, [Text("^W")]),
    (Ids.MoveA, [Text("^A")]),
    (Ids.MoveS, [Text("^S")]),
    (Ids.MoveD, [Text("^D")]),
    (Ids.Digg, [Text("z")]),
    (Ids.LookW, [Text("w")]),
    (Ids.LookA, [Text("a")]),
    (Ids.LookS, [Text("s")]),
    (Ids.LookD, [Text("d")]),
    (Ids.MoveF, [Text("^F")]),
    (Ids.RotateCcw, [Text("CCW;")]),
    (Ids.RotateCw, [Text("^CW;")]),
    (Ids.ActionBuild, [Text("b")]),
    (Ids.ActionGeo, [Text("g")]),
    (Ids.ActionRoad, [Text("r")]),
    (Ids.ActionHeal, [Text("h")]),
    (Ids.ActionQuadro, [Text("q")]),
    (Ids.ActionRandom, [Text("RAND;")])
  ]

  const I2ntfPart1: seq<TemplateEntry> := [
    (Ids.ActionBibika, [Text("BEEP;")]),
    (Ids.GoTo, [Text(">"), Placeholder(LabelIdentifierLiteral), Text("|")]),
    (Ids.GoSub, [Text(":>"), Placeholder(LabelIdentifierLiteral), Text(">")]),
    (Ids.GoSub1, [Text("->"), Placeholder(LabelIdentifierLiteral), Text(">")]),
    (Ids.Return, [Text("<|")]),
    (Ids.Return1, [Text("<-|")]),
    (Ids.CellWa, [Text("[WA]")]),
    (Ids.CellSd, [Text("[SD]")]),
    (Ids.CellW, [Text("[W]")]),
    (Ids.CellDw, [Text("[DW]")]),
    (Ids.CellA, [Text("[A]")]),
    (Ids.CellD, [Text("[D]")]),
    (Ids.CellAs, [Text("[AS]")]),
    (Ids.CellS, [Text("[S]")]),
    (Ids.BoolModeOr, [Text("OR")]),
    (Ids.BoolModeAnd, [Text("AND")]),
    (Ids.Label, [Text("|"), Placeholder(LabelIdentifierLiteral), Text(":")]),
    (Ids.CcNotEmpty, [Text("=n")]),
    (Ids.CcEmpty, [Text("=e")]),
    (Ids.CcGravity, [Text("=f")]),
    (Ids.CcCrystall, [Text("=c")]),
    (Ids.CcAlive, [Text("=a")])
  ]

  const I2ntfPart2: seq<TemplateEntry> := [
    (Ids.CcBolder, [Text("=b")]),
    (Ids.CcSand, [Text("=s")]),
    (Ids.CcRock, [Text("=k")]),
    (Ids.CcDead, [Text("=d")]),
    (Ids.CccRedRock, [Text("=K")]),
    (Ids.CccBlackRock, [Text("=B")]),
    (Ids.CcAcid, [Text("=A")]),
    (Ids.CccQuadro, [Text("=q")]),
    (Ids.CccRoad, [Text("=R")]),
    (Ids.CccRedBlock, [Text("=r")]),
    (Ids.CccYellowBlock, [Text("=y")]),
    (Ids.CccBox, [Text("=x")]),
    (Ids.CccOpor, [Text("=o")]),
    (Ids.CccGreenBlock, [Text("=g")]),
    (Ids.VarMore, [Text("("), Placeholder(VariableIdentifierLiteral), Text(">"), Placeholder(VariableValueLiteral), Text(")")]),
    (Ids.VarLess, [Text("("), Placeholder(VariableIdentifierLiteral), Text("<"), Placeholder(VariableValueLiteral), Text(")")]),
    (Ids.VarEqual, [Text("("), Placeholder(VariableIdentifierLiteral), Text("="), Placeholder(VariableValueLiteral), Text(")")]),
    (Ids.CellWw, [Text("[w]")]),
    (Ids.CellAa, [Text("[a]")]),
    (Ids.CellSs, [Text("[s]")]),
    (Ids.CellDd, [Text("[d]")]),
    (Ids.CellF, [Text("[F]")])
  ]

  const I2ntfPart3: seq<TemplateEntry> := [
    (Ids.CellFf, [Text("[f]")]),
    (Ids.GoSubF, [Text("=>"), Placeholder(LabelIdentifierLiteral), Text(">")]),
    (Ids.ReturnF, [Text("<=|")]),
    (Ids.IfNotGoTo, [Text("?"), Placeholder(LabelIdentifierLiteral), Text("<")]),
    (Ids.IfGoTo, [Text("!?"), Placeholder(LabelIdentifierLiteral), Text("<")]),
    (Ids.StdDigg, [Text("DIGG;")]),
    (Ids.StdBuild, [Text("BUILD;")]),
    (Ids.StdHeal, [Text("HEAL;")]),
    (Ids.ProgFlip, [Text("FLIP;")]),
    (Ids.StdMine, [Text("MINE;")]),
    (Ids.CcGun, [Text("=G")]),
    (Ids.FillGun, [Text("FILL;")]),
    (Ids.CbHp, [Text("=hp-")]),
    (Ids.CbHp50, [Text("=hp50")]),
    (Ids.CellRightHand, [Text("[r]")]),
    (Ids.CellLeftHand, [Text("[l]")]),
    (Ids.ModeAutodiggOn, [Text("AUT+")]),
    (Ids.ModeAutodiggOff, [Text("AUT-")]),
    (Ids.ModeAgrOn, [Text("AGR+")]),
    (Ids.ModeAgrOff, [Text("AGR-")]),
    (Ids.ActionB1, [Text("B1;")]),
    (Ids.ActionB3, [Text("B2;")])
  ]

  const I2ntfPart4: seq<TemplateEntry> := [
    (Ids.ActionB2, [Text("B3;")]),
    (Ids.ActionWb, [Text("VB;")]),
    (Ids.OnResp, [Text("#R"), Placeholder(LabelIdentifierLiteral), Text("<")]),
    (Ids.ActionGeopack, [Text("GEO;")]),
    (Ids.ActionZm, [Text("ZZ;")]),
    (Ids.ActionC190, [Text("C190;")]),
    (Ids.ActionPoly, [Text("POLY;")]),
    (Ids.ActionUp, [Text("UP;")]),
    (Ids.ActionCraft, [Text("CRAFT;")]),
    (Ids.ActionNano, [Text("NANO;")]),
    (Ids.ActionRembot, [Text("REM;")]),
    (Ids.InvDirW, [Text("iw")]),
    (Ids.InvDirA, [Text("ia")]),
    (Ids.InvDirS, [Text("is")]),
    (Ids.InvDirD, [Text("id")]),
    (Ids.HandModeOn, [Text("Hand+")]),
    (Ids.HandModeOff, [Text("Hand-")]),
    (Ids.DebugBreak, [Text("!{"), Placeholder(StringLiteral), Text("}")]),
    (Ids.DebugSet, [Text("{"), Placeholder(StringLiteral), Text("}")])
  ]

  /** `I2NTF` as written (data.rs:21-227). */
  const I2NTF: seq<TemplateEntry> := I2ntfPart0 + I2ntfPart1 + I2ntfPart2 + I2ntfPart3 + I2ntfPart4

  /**
   * The first part of `I2NTF` with `RotateCw` spelled `CW;`, the token the decoding table
   * holds for it (data.rs:674-681), as `RotateCcw` is spelled `CCW;`.
   */
  const I2ntfPart0Corrected: seq<TemplateEntry> := I2ntfPart0[15 := (Ids.RotateCw, [Text("CW;")])]

  /** `I2NTF` with the template of `RotateCw` corrected. */
  const I2NTFCorrected: seq<TemplateEntry> :=
    I2ntfPart0Corrected + I2ntfPart1 + I2ntfPart2 + I2ntfPart3 + I2ntfPart4
}
