# m3c New Text Format decoder — a Dafny model

This project models how m3c decodes the "New Text Format". That format is the textual form of a robot program for the game client.

A text starts with the magic character `$`. After it come tokens, each spelling one instruction (`^W`, `#S`, `(va0<0)`, `{dst}`) or one cursor directive:

| directive | effect |
|---|---|
| `' '` | one slot on |
| `'_'` | three slots on |
| `'\n'` | the next row |
| `'~'` | the next page |

Decoding writes the instructions into a grid of 16 pages × 12 rows × 16 columns (3072 slots). It walks a static trie of tokens, `NTF2I`.

The model covers:

- **The fail-fast decoder** `TextFormatDeserializer`, as a class over the text, the cursor and the program. It uses per-token registers for the literals and a lookahead character.
- **The error-recovering decoder** `TextFormatDeserializerV2`, as a class over its character iterator. Its fields are `token_start`, `last_char`, the open run of illegal characters, and the diagnostics vector.
- **The two static tables** of the format, as constants:
  - `NTF2I`, the decoding trie;
  - `I2NTF`, the token template of each instruction.
- **The supporting value types:**
  - the instruction-id catalogue with its codes and gaps;
  - the literal buffers;
  - the position-tracking character iterator;
  - the diagnostics;
  - the assembly name table.

Each imperative operation is a method. It is proved equal to a specification function over the same inputs:

| method | specification function |
|---|---|
| `ParseNext` | `TokenIn` |
| `Deserialize` (fail-fast) | `DeserializeIn` |
| `ParseNextToken` | `TokenV2In` |
| `Deserialize` (error-recovering) | `DeserializeV2In` |

The functions are then related to each other and to the tables by lemmas:

- the table invariants the binary searches and `unwrap` calls rely on;
- every template reads back through the trie;
- whole texts read back into the program;
- the error-recovering decoder agrees with the fail-fast one when it reports nothing;
- its reports come in text order and do not overlap;
- the test fixtures, as concrete lemmas.

The decoders are specified over a table parameter `t`. The classes hold it as a constant field that their constructors set to `NTF2I`. `Decode` and `TokenAt` are the functions over `NTF2I` itself.

## Model

| member | source | states |
|---|---|---|
| CharPositions.Advance | src/utils/mod.rs:60-74 | the index always grows by one; after `'\n'` the line grows by one and the column is 0; after any other character (`'\r'` included) the column grows by one and the line stays |
| CharPositions.PositionAfterCounts | src/utils/mod.rs:5-11 | the position reached after a text is (number of characters, number of `'\n'`, characters since the last `'\n'`): positions count characters, not bytes |
| CharPositions.ColumnAfterLineBreak | src/utils/mod.rs:65-73 | after `a + '\n' + b` with no line break in `b`, the column is `|b|` and the line is one past the line after `a` |
| CharPositions.EnumerateWithPosition.constructor | src/utils/mod.rs:44-49 | a new iterator is at the start of the text, at position (0, 0, 0) |
| CharPositions.EnumerateWithPosition.Peek | src/utils/mod.rs:60-61 | no character exactly when the text is exhausted; otherwise the current position and the next character |
| CharPositions.EnumerateWithPosition.Next | src/utils/mod.rs:60-75 | returns what `Peek` showed, that is the position held before the update; when exhausted nothing changes; otherwise one more character is consumed and the position advances over it |
| CharPositions.DocumentationExample | src/utils/mod.rs:19-33 | the positions of the documented example `"01\nA\r\n+"` |
| Diagnostics.IdNumbersDistinct | src/formats/native/new/diagnostics.rs:28-37 | two diagnostic ids have the same `u8` number exactly when they are the same id |
| Diagnostics.PrefixedId | src/formats/native/new/diagnostics.rs:13-16 | `N` followed by two decimal digits whose value is the id's number |
| Diagnostics.PrefixedIdValues | src/formats/native/new/diagnostics.rs:13-16 | `NoMagicFound` is `N01`, `UnknownToken` is `N02` (also lines 28-31 of diagnostics.rs) |
| Diagnostics.Id | src/formats/native/new/diagnostics.rs:78-80 | a diagnostic has the `NoMagicFound` id exactly when it is a `NoMagicFound` (also lines 124-126 of diagnostics.rs) |
| Diagnostics.Position | src/formats/native/new/diagnostics.rs:89-92 | `NoMagicFound` is always at the start of the text; `UnknownToken` is at its first illegal character (also lines 114-120, 146-148 of diagnostics.rs) |
| Diagnostics.WhatLocation | src/formats/native/new/diagnostics.rs:127-137 | a message shows a range exactly when the diagnostic is an `UnknownToken` whose start and end differ, and then from start to end; otherwise the one position |
| InstructionIds.Code | src/formats/internal/mod.rs:11-14 | every identifier's code lies in [0, 182] and is none of the documented unused codes |
| InstructionIds.DeclaredInAscendingOrder | src/formats/internal/mod.rs:14-149 | the 107 identifiers have strictly ascending codes in declaration order, so no two share a code |
| InstructionIds.CountSplit | src/formats/internal/mod.rs:11-12 | counting identifier codes over [a, c) is the count over [a, b) plus the count over [b, c) |
| InstructionIds.UniformRunCount | src/formats/internal/mod.rs:11-12 | a run of codes that are all used holds as many identifier codes as it is long; a run of gaps holds none |
| InstructionIds.CodeRunsPartition | src/formats/internal/mod.rs:11-12 | the codes 0..182 split into 21 consecutive runs, each wholly used or wholly a documented gap |
| InstructionIds.RunsUseCodes | src/formats/internal/mod.rs:11-12 | the 21 runs end at code 183 and hold 107 used codes |
| InstructionIds.IdentifierCount | src/formats/internal/mod.rs:11-149 | exactly 107 of the codes 0..182 can carry an identifier: 183 codes less the 76 gaps, one code per declared variant |
| InstructionIds.LastHasNoVariant | src/formats/internal/mod.rs:9 | no identifier has code 13 (`LAST`) |
| InstructionIds.AnchorCodes | src/formats/internal/mod.rs:33 | MoveF is 14, Label is 40, VarEqual is 123, DebugSet is 182 (also lines 64, 88, 148 of mod.rs) |
| AssemblyNames.InstructionsNames | src/serialization/custom/assembly/mod.rs:10-195 | `INSTRUCTIONS_NAMES` has 183 entries |
| AssemblyNames.NamesMatchGaps | src/serialization/custom/assembly/mod.rs:10-195 | the name of code `k` is empty exactly when `k` is one of the identifier catalogue's gaps |
| AssemblyNames.ClientIdentifier | src/serialization/custom/assembly/mod.rs:197-202 | `client_identifier` indexes the table in bounds for every identifier and never returns an empty name |
| AssemblyNames.ClientIdentifierExamples | src/serialization/custom/assembly/mod.rs:208-221 | the first ten lookups of the source's unit test |
| AssemblyNames.ClientIdentifierExamplesContinued | src/serialization/custom/assembly/mod.rs:222-238 | the remaining lookups of the source's unit test |
| Literals.Pack | src/formats/internal/literals.rs:3-25 | a text of 0-3 alphanumeric characters is stored as its bytes followed by zero bytes |
| Literals.ContentLength | src/formats/internal/literals.rs:3-25 | the content of a buffer is at most three non-zero bytes and is followed by a zero byte |
| Literals.Unpack | src/formats/internal/literals.rs:3-25 | the text of a buffer is its bytes up to the first zero |
| Literals.UnpackPack | src/formats/internal/literals.rs:3-25 | unpacking a packed text gives the text back |
| Literals.PackUnpack | src/formats/internal/literals.rs:3-25 | packing an unpacked buffer gives the buffer back (the zero padding is the only form a buffer takes) |
| Literals.ZerosPropagate | src/formats/internal/literals.rs:3-25 | once a buffer byte is zero, every later byte is zero |
| Literals.VariableValueFromInt | src/formats/internal/literals.rs:27-33 | a value is accepted exactly when it lies in [-9999, 99999], and then it is stored unchanged |
| Literals.ValueFixtures | src/formats/internal/literals.rs:29 | 0, 99999 and -5 are accepted, 100000 and -10000 are not, and the default value is 0 |
| Literals.BufferFixtures | tests/common/internal.rs:168-178 | the empty label is `[0,0,0,0]`, `hi` is `[h,i,0,0]`, `012` is `[0,1,2,0]` |
| Literals.AlnumRunEnd | src/serialization/native/new/mod.rs:288-342 | the run of alphanumeric characters from `i` ends at the first non-alphanumeric character or at the end of the text |
| Literals.DigitRunEnd | src/serialization/native/new/mod.rs:288-342 | the same for decimal digits |
| Literals.StopAt | src/serialization/native/new/mod.rs:291-300 | a literal parser consumes the character it stops at and hands it back as the lookahead; at the end of the text there is none |
| Literals.ParseText | src/serialization/native/new/mod.rs:288-342 | the literal read is a prefix of the text from `i`, and the parser consumes at least one character unless the text is exhausted |
| Literals.ParseLabelIdentifier | src/serialization/native/new/mod.rs:290-300 | the label read holds the text `ParseText` reads |
| Literals.ParseString | src/serialization/native/new/mod.rs:302-313 | the string read holds the text `ParseText` reads |
| Literals.ParseVariableIdentifier | src/serialization/native/new/mod.rs:314-326 | the variable name read holds the text `ParseText` reads |
| Literals.ParseVariableValue | src/serialization/native/new/mod.rs:327-340 | the value parser consumes at least one character unless the text is exhausted |
| Literals.Clamp | src/formats/internal/literals.rs:27-33 | a value already in range is kept |
| Literals.Decimal | src/formats/internal/literals.rs:27-33 | the written digits of a number are one or more decimal digits |
| Literals.DecimalValue | src/formats/internal/literals.rs:27-33 | reading the written digits of a number gives the number back |
| Literals.TextAt | src/serialization/native/new/mod.rs:288-342 | a text of 0-3 alphanumeric characters, followed by a non-alphanumeric character, is read back and its stop character becomes the lookahead |
| Literals.TextRoundTrip | src/serialization/native/new/mod.rs:288-342 | reading `p + t + stop + rest` at `|p|` gives `t`, consumes through `stop` and looks ahead at `stop` |
| Literals.IdentifiersAt | src/serialization/native/new/mod.rs:288-326 | the three text parsers read back the buffer of a text written at `i` |
| Literals.ValueAt | src/serialization/native/new/mod.rs:327-340 | a value written at `i` and followed by a non-digit is read back |
| Literals.ValueRoundTrip | src/serialization/native/new/mod.rs:327-340 | reading the written form of any value in range, followed by a non-digit, gives the value back |
| Literals.LongTextIsTruncated | src/serialization/native/new/mod.rs:288-342 | `abcde;` is read as `abc`, with all five letters and the `;` consumed |
| Instructions.KindLiterals | src/serialization/native/new/data.rs:21-227 | an instruction kind carries at most two literals, and none exactly when it is `Simple` |
| Instructions.KindGroups | src/serialization/native/new/data.rs:21-227 | the eight jump identifiers take a label, the three comparisons a comparison, the two debug identifiers a string; Empty, MoveW and RotateCw are simple |
| Instructions.Construct | src/serialization/native/new/mod.rs:265-286 | an instruction is built exactly when the identifier's kind is the payload's kind; otherwise the identifier is rejected |
| Instructions.NewSimple | src/serialization/native/new/mod.rs:266-268 | `new_simple` succeeds exactly for `Simple` identifiers |
| Instructions.NewLabel | src/serialization/native/new/mod.rs:269-273 | `new_label` succeeds exactly for `Label` identifiers and carries the label |
| Instructions.NewVarCmp | src/serialization/native/new/mod.rs:279-285 | `new_var_cmp` succeeds exactly for comparisons and carries the name and the value |
| Instructions.NewString | src/serialization/native/new/mod.rs:274-278 | `new_string` succeeds exactly for `String` identifiers and carries the text |
| Instructions.Flat | src/serialization/native/new/mod.rs:216 | the slot of a valid position is one of the 3072 slots |
| Instructions.FlatParts | src/serialization/native/new/mod.rs:216 | the slot index gives back the page, row and column |
| Instructions.PositionOf | src/serialization/native/new/mod.rs:216 | every slot has a valid position addressing it |
| Instructions.PositionOfFlat | src/serialization/native/new/mod.rs:216 | a position is the position of its own slot |
| Instructions.NewPosition | tests/common/internal.rs:148-161 | a position is built exactly when page, row and column are in range |
| Instructions.MoveForward | src/serialization/native/new/mod.rs:217 | the cursor moves to the next slot, and fails with an overflow exactly on the last slot (also lines 222, 440 of mod.rs) |
| Instructions.MoveThreeStepsForward | src/serialization/native/new/mod.rs:226 | the cursor moves three slots on, and fails with an overflow exactly when that leaves the program |
| Instructions.MoveToNextRow | src/serialization/native/new/mod.rs:230 | the cursor moves to column 0 of the next row (the next page after the last row), and fails exactly on the last row of the last page |
| Instructions.MoveToNextPage | src/serialization/native/new/mod.rs:234 | the cursor moves to the first slot of the next page, and fails exactly on the last page |
| Instructions.MoveForwardExamples | src/serialization/native/new/mod.rs:217 | moves within a row, across rows and pages, and the overflow on the last slot |
| Instructions.ThreeStepsAreThreeSteps | src/serialization/native/new/mod.rs:222-227 | a three-step jump succeeds exactly when three single steps do, and lands where they land |
| Instructions.EmptyProgram | src/serialization/native/new/mod.rs:211 | the reset program holds Empty in all 3072 slots |
| Instructions.Program.constructor | src/serialization/native/new/mod.rs:211 | a new program holds Empty everywhere |
| Instructions.Program.Reset | src/serialization/native/new/mod.rs:211 | `reset` leaves Empty in every slot (also line 429 of mod.rs) |
| Instructions.Program.Set | src/serialization/native/new/mod.rs:216 | `program[position] = instruction` changes that one slot and no other (also line 439 of mod.rs) |
| NtfData.FindFrom | src/serialization/native/new/mod.rs:255 | a scan from entry `i` finds an entry holding the key |
| NtfData.Find | src/serialization/native/new/mod.rs:255 | a lookup finds an entry holding the key (also lines 351, 494, 542 of mod.rs) |
| NtfData.AscendingFromKeys | src/serialization/native/new/data.rs:230-1202 | keys ascending between neighbours ascend between any two entries |
| NtfData.AscendingConcat | src/serialization/native/new/data.rs:230-1202 | two sorted tables, the first ending below the second, join into one sorted table |
| NtfData.FindFromFails | src/serialization/native/new/mod.rs:255-256 | the scan fails exactly when no entry from `i` on holds the key |
| NtfData.FindInSorted | src/serialization/native/new/mod.rs:255 | in a sorted table, the lookup of an entry's key finds that entry |
| NtfData.BinarySearch | src/serialization/native/new/mod.rs:255 | `binary_search_by_key` over a sorted table finds the entry holding the key, or fails exactly when none does; it agrees with the linear lookup (also lines 351, 494, 542 of mod.rs) |
| NtfData.ChildOfWellFormed | src/serialization/native/new/data.rs:230-1202 | every entry of a well-formed table holds a well-formed node |
| NtfData.TableSorted | src/serialization/native/new/data.rs:390-464 | every table of a well-formed node is strictly ascending by character (also lines 995-1124 of data.rs) |
| NtfShape.Ntf2iSorted | src/serialization/native/new/data.rs:230-1202 | the 44 top-level keys of `NTF2I` strictly ascend, as the binary search requires |
| NtfShape.Ntf2iEntries | src/serialization/native/new/data.rs:230-1202 | every top-level entry is a directive under its own character or a well-formed node: every table below is sorted and non-empty, every literal node has exactly one continuation (a table), and the literals on the path to each id are exactly those its kind carries |
| NtfShape.Ntf2iDirectives | src/serialization/native/new/data.rs:233 | `'\n'`, `' '`, `'_'` and `'~'` are the four directives at the top level (also lines 235, 1143, 1201 of data.rs) |
| NtfTemplates.StepText | src/serialization/native/new/mod.rs:351 | a character of a token is matched by the table entry holding it (also line 542 of mod.rs) |
| NtfTemplates.StepRoot | src/serialization/native/new/mod.rs:255 | the first character of a token is looked up in the top-level table (also line 494 of mod.rs) |
| NtfTemplates.CoversFromAscending | src/serialization/native/new/data.rs:21-227 | in a checked template table, codes strictly increase |
| NtfTemplates.CoveredIdFound | src/serialization/native/new/data.rs:21-227 | a checked template table holds every identifier between its first and last codes |
| NtfTemplates.EveryIdOnce | src/serialization/native/new/data.rs:21-227 | a table that covers all identifiers has exactly one entry for each |
| NtfTemplates.ShapedPlaceholders | src/serialization/native/new/data.rs:21-227 | a well-shaped template's placeholders are exactly the literals its identifier's kind carries, in order |
| TemplateTable.WrittenCoversAllIds | src/serialization/native/new/data.rs:21-227 | `I2NTF` has 107 entries, one per identifier, in strictly ascending order of code |
| TemplateTable.CorrectedCoversAllIds | src/serialization/native/new/data.rs:21-227 | so does the corrected table |
| TemplateTable.TemplatesCoverAllIds | src/serialization/native/new/data.rs:21-227 | both tables hold 107 entries, exactly one per identifier |
| TemplateTable.OneTemplatePerId | src/serialization/native/new/data.rs:21-227 | every identifier has one entry in `I2NTF`, and no second one |
| TemplateTable.PlaceholdersMatchKind | src/serialization/native/new/data.rs:21-227 | every template's literal placeholders are those its identifier's kind carries |
| TemplateTable.B2B3Crossed | src/serialization/native/new/data.rs:186-187 | ActionB3 is spelled `B2;` and ActionB2 `B3;`, and the trie maps both tokens back the same crossed way (also lines 546-561 of data.rs) |
| TemplateTable.TemplateOfLeads | src/serialization/native/new/data.rs:21-227 | every identifier's template in the corrected table is well shaped and leads through the trie to that identifier (Empty's blank to the one-step directive) (also lines 230-1202 of data.rs) |
| TemplateTable.TemplateOfAt | src/serialization/native/new/data.rs:21-227 | an identifier's template is the one its entry holds |
| TemplatePaths.Part0Paths | src/serialization/native/new/data.rs:23-44 | each of the first 22 templates, with RotateCw's corrected, leads through the trie to what it stands for |
| TemplatePaths.Part1Paths | src/serialization/native/new/data.rs:45-94 | the same for the next 22 templates |
| TemplatePaths.Part2Paths | src/serialization/native/new/data.rs:95-143 | the same for the next 22 templates |
| TemplatePaths.Part3Paths | src/serialization/native/new/data.rs:144-187 | the same for the next 22 templates |
| TemplatePaths.Part4Paths | src/serialization/native/new/data.rs:188-226 | the same for the last 19 templates |
| TemplatePaths.CorrectedTemplatesLead | src/serialization/native/new/data.rs:21-227 | every template of the corrected table leads through the trie to what it stands for (also lines 230-1202 of data.rs) |
| TemplatePaths.RotateCwTemplateAsWritten | src/serialization/native/new/data.rs:38 | as written, `RotateCw`'s template `^CW;` leaves the trie; every other entry equals the corrected one (also lines 1127-1141 of data.rs) |
| TokenRoundTrip.DecodeSimple | src/serialization/native/new/mod.rs:241-369 | the fixed text of a simple instruction's token decodes into that instruction, consuming exactly the token |
| TokenRoundTrip.DecodeClosed | src/serialization/native/new/mod.rs:241-369 | a label or string token (text, literal, closing character) decodes into its instruction, the lookahead standing in for the closing character |
| TokenRoundTrip.DecodeVarCmp | src/serialization/native/new/mod.rs:241-369 | a comparison token `(name op value)` decodes into its instruction |
| TokenRoundTrip.ReadBackSimple | src/serialization/native/new/mod.rs:241-369 | the rendered token of a simple instruction reads back |
| TokenRoundTrip.ReadBackClosed | src/serialization/native/new/mod.rs:241-369 | the rendered token of a label or string instruction reads back |
| TokenRoundTrip.ReadBackVarCmp | src/serialization/native/new/mod.rs:241-369 | the rendered token of a comparison reads back |
| TokenRoundTrip.TokenReadBack | src/serialization/native/new/mod.rs:241-369 | the token of any well-formed instruction other than Empty decodes into that very instruction and stops right after it |
| TokenRoundTrip.EmptyReadsAsStep | src/serialization/native/new/data.rs:23 | Empty's token is a blank, and a blank is the one-step directive (also line 235 of data.rs) |
| TokenRoundTrip.RotateCwTokenAsWritten | src/serialization/native/new/data.rs:38 | as written, `^CW;` is an unknown instruction at its first character |
| TokenRoundTrip.RotateCwTokenCorrected | src/serialization/native/new/data.rs:674-681 | with the spelling `CW;`, RotateCw's token reads back as RotateCw |
| ProgramRoundTrip.WriteFromSlots | src/serialization/native/new/mod.rs:216 | writing instructions from a slot puts them there in order and leaves every other slot |
| ProgramRoundTrip.TokensRead | src/serialization/native/new/mod.rs:241-369 | the tokens of a sequence of instructions, written to the end of a text, read as those instructions in turn |
| ProgramRoundTrip.RunStep | src/serialization/native/new/mod.rs:212-239 | one step of the loop writes the instruction at the cursor and moves one slot on (Empty's blank does the same as a directive) |
| ProgramRoundTrip.RunReads | src/serialization/native/new/mod.rs:212-239 | the loop over such tokens reaches the end without error, the cursor as many slots on as instructions, the instructions written from the cursor |
| ProgramRoundTrip.TextReadBack | src/serialization/native/new/mod.rs:209-240 | `$` and the tokens of fewer than 3072 instructions decode without error into the program holding them in its first slots and Empty elsewhere, with the cursor after the last |
| ProgramRoundTrip.LastSlotOverflows | src/serialization/native/new/mod.rs:216-217 | on the last slot, a decoded instruction is written and then decoding fails with an overflow |
| DecoderV1.ReadLiteral | src/serialization/native/new/mod.rs:288-342 | reading a literal fills its register, keeps the others, and its stop character becomes the lookahead |
| DecoderV1.Complete | src/serialization/native/new/mod.rs:264-287 | an id leaf builds a well-formed instruction of that id from the registers its kind needs, so no `unwrap` fails |
| DecoderV1.Walk | src/serialization/native/new/mod.rs:259-364 | every error of the walk is an unknown instruction at the token's first character; decoded instructions are well formed; only a directive node yields a directive |
| DecoderV1.TokenIn | src/serialization/native/new/mod.rs:241-369 | nothing exactly at the end of the text; an unknown first character is an error there after one character; every error is at the token's first character; a directive is one character, the one that stands for it |
| DecoderV1.MoveBy | src/serialization/native/new/mod.rs:220-237 | each directive moves the cursor strictly forward by its own move, or fails with an overflow |
| DecoderV1.RunIn | src/serialization/native/new/mod.rs:212-239 | the loop succeeds only at the end of the text, and otherwise fails with an unknown instruction or an overflow |
| DecoderV1.DeserializeIn | src/serialization/native/new/mod.rs:209-211 | an empty text is `MagicNotFoundError`; a first character other than `$` is `IllegalMagicError` carrying it; both leave the program and cursor untouched; after `$` the program is reset and the loop runs (also lines 370-382 of mod.rs) |
| DecoderV1.TextFormatDeserializer.constructor | src/serialization/native/new/mod.rs:201-208 | the decoder starts at the first character and the first slot, over `NTF2I` |
| DecoderV1.TextFormatDeserializer.CheckMagic | src/serialization/native/new/mod.rs:370-382 | consumes one character: end of text is `MagicNotFoundError`, `$` succeeds, anything else is `IllegalMagicError` with that character |
| DecoderV1.TextFormatDeserializer.GetNextChar | src/serialization/native/new/mod.rs:383-389 | the next character, or an unknown instruction at the token's index at the end of the text |
| DecoderV1.TextFormatDeserializer.ParseNext | src/serialization/native/new/mod.rs:241-369 | what it returns and where it leaves the iterator are those of `TokenIn` |
| DecoderV1.TextFormatDeserializer.WalkFrom | src/serialization/native/new/mod.rs:257-365 | the node loop with its registers is `Walk` |
| DecoderV1.TextFormatDeserializer.Deserialize | src/serialization/native/new/mod.rs:209-240 | result, iterator, cursor and program are those of `DeserializeIn` |
| DecoderV1.TextFormatDeserializer.DecodeTokens | src/serialization/native/new/mod.rs:212-239 | the loop leaves the state `RunIn` describes |
| DecoderV2.Extend | src/serialization/native/new/mod.rs:498-504 | a run is extended to `end`, keeping its start if one is open and starting at `start` otherwise (also lines 547-551 of mod.rs) |
| DecoderV2.SeekToken | src/serialization/native/new/mod.rs:493-510 | seeking a token consumes at least the candidate character |
| DecoderV2.FollowToken | src/serialization/native/new/mod.rs:513-565 | following a token never goes back |
| DecoderV2.TokenV2In | src/serialization/native/new/mod.rs:484-570 | a token read consumes a character; a reported run starts at the call's first character and ends before the character where the call stops |
| DecoderV2.Reported | src/serialization/native/new/mod.rs:519-527 | a run is reported as one `UnknownToken` from its start to its end; no run, no report (also lines 578-583 of mod.rs) |
| DecoderV2.SeekSpan | src/serialization/native/new/mod.rs:493-510 | while seeking, a report starts at the call's first character and ends before where it stops |
| DecoderV2.FollowSpan | src/serialization/native/new/mod.rs:513-565 | the same while following a token |
| DecoderV2.SeekReports | src/serialization/native/new/mod.rs:519-527 | once a run is open, it is reported unless a `todo!()` is reached (also lines 578-583 of mod.rs) |
| DecoderV2.FollowReports | src/serialization/native/new/mod.rs:519-527 | the same while following a token (also lines 547-551, 578-583 of mod.rs) |
| DecoderV2.FollowAgrees | src/serialization/native/new/mod.rs:513-565 | with no run open and no `todo!()` reached, following a token reports nothing exactly when the fail-fast walk succeeds, and then both yield the same token and stop at the same character (also lines 259-364 of mod.rs) |
| DecoderV2.TokenAgrees | src/serialization/native/new/mod.rs:484-570 | one call of each decoder, outside the `todo!()` branches: no report exactly when the fail-fast one finds no error, and then the same token (or none) and the same stop (also lines 241-369 of mod.rs) |
| DecoderV2.RunV2In | src/serialization/native/new/mod.rs:433-454 | the loop leaves a valid cursor and a full program |
| DecoderV2.RunV2Reports | src/serialization/native/new/mod.rs:433-454 | the loop keeps the diagnostics pushed before it and adds only `UnknownToken` reports, in text order, not overlapping |
| DecoderV2.RunV2Agrees | src/serialization/native/new/mod.rs:433-454 | when the loop pushes nothing and reaches no `todo!()`, the fail-fast loop leaves the same cursor and program, succeeding or failing with an overflow (also lines 212-239 of mod.rs) |
| DecoderV2.LastSlotBothDecoders | src/serialization/native/new/mod.rs:216-217 | on the last slot both decoders write the instruction; then one returns its diagnostics and the other fails with an overflow (also lines 439-447 of mod.rs) |
| DecoderV2.DeserializeV2Reports | src/serialization/native/new/mod.rs:426-455 | the diagnostics held before, then `NoMagicFound` exactly when the text does not start with `$`, then ordered `UnknownToken` reports, none over the `$` (also lines 469-478 of mod.rs) |
| DecoderV2.DecodersAgree | src/serialization/native/new/mod.rs:426-455 | when the error-recovering decoder reports nothing, the text starts with `$` and the fail-fast decoder leaves the same cursor and program (also lines 209-240 of mod.rs) |
| DecoderV2.TextFormatDeserializerV2.constructor | src/serialization/native/new/mod.rs:411-425 | a new decoder is at the start of the text, the first slot, no diagnostics, over `NTF2I` |
| DecoderV2.TextFormatDeserializerV2.Reset | src/serialization/native/new/mod.rs:462-466 | a fresh iterator at the start and the first slot; the diagnostics and the token fields stay |
| DecoderV2.TextFormatDeserializerV2.CheckMagic | src/serialization/native/new/mod.rs:469-478 | a `$` is consumed with no report; anything else, the end of the text included, is left in place and one `NoMagicFound` is pushed |
| DecoderV2.TextFormatDeserializerV2.NextChar | src/serialization/native/new/mod.rs:574-588 | the next character; at the end of the text, one `UnknownToken` from the open run's start (else the token start) to `last_char` |
| DecoderV2.TextFormatDeserializerV2.ReportRun | src/serialization/native/new/mod.rs:519-521 | the open run, if any, is pushed as one `UnknownToken` (also lines 526-528 of mod.rs) |
| DecoderV2.TextFormatDeserializerV2.ParseNextToken | src/serialization/native/new/mod.rs:484-570 | what it yields, where it leaves the iterator and what it pushes are those of `TokenV2In` |
| DecoderV2.TextFormatDeserializerV2.SkipIllegal | src/serialization/native/new/mod.rs:497-509 | an illegal first character joins the run and the next character becomes the candidate |
| DecoderV2.TextFormatDeserializerV2.FollowFrom | src/serialization/native/new/mod.rs:513-565 | the node loop follows `FollowToken` |
| DecoderV2.TextFormatDeserializerV2.Yield | src/serialization/native/new/mod.rs:516-538 | a leaf reports the open run, then yields its directive or simple instruction, or reaches a `todo!()` |
| DecoderV2.TextFormatDeserializerV2.Descend | src/serialization/native/new/mod.rs:539-563 | a table reads the next character, descends on a match, and on a miss closes the run at `last_char` and restarts from that character |
| DecoderV2.TextFormatDeserializerV2.Deserialize | src/serialization/native/new/mod.rs:426-455 | the returned diagnostics, the cursor and the program are those of `DeserializeV2In`; the decoder's diagnostics are emptied |
| DecoderV1Examples.CommandsDecode | tests/common/mod.rs:29-30 | `$^W\n^A~^D_^F ^S` writes MoveW at (0,0,0), MoveA at (0,1,0), MoveD at (1,0,0), MoveF at (1,0,4), MoveS at (1,0,6), and nothing else (tests/common/internal.rs:148-161) |
| DecoderV1Examples.CommandsRun | src/serialization/native/new/mod.rs:212-239 | over tokens read as in `$^W\n^A~^D_^F ^S`, the loop writes MoveW, MoveA, MoveD, MoveF and MoveS into slots 0, 16, 192, 196 and 198, and ends without error at (1,0,7) after the fifteenth character |
| DecoderV1Examples.CommandMoves | src/serialization/native/new/mod.rs:217-234 | the nine cursor moves of the fixture, from (0,0,0) to (1,0,7) |
| DecoderV1Examples.CommandsDirectives | src/serialization/native/new/data.rs:233 | the four directive characters of the fixture decode as their directives (also lines 235, 1143, 1201 of data.rs) |
| DecoderV2Examples.EmptyText | tests/serialization/native/new/deserializer.rs:47-62 | the empty text gives one `NoMagicFound` and an empty program |
| DecoderV2Examples.OnlyMagic | tests/serialization/native/new/deserializer.rs:64-79 | `$` alone gives no diagnostics and an empty program |
| DecoderV2Examples.NoMagicButMoveW | tests/serialization/native/new/deserializer.rs:81-96 | `^W` gives one `NoMagicFound` and MoveW in the first slot |
| DecoderV2Examples.IllegalStartChars | tests/serialization/native/new/deserializer.rs:115-163 | `$^W]]]]^Sфівіаві^F` gives MoveW, MoveS, MoveF in the first three slots, the cursor at (0,0,3), and the runs (3..6) and (9..15), counted in characters |
| DecoderV2Examples.UnknownContinuationChars | tests/serialization/native/new/deserializer.rs:165-226 | `$^W^a^SGEa^FGE` gives MoveW, LookA, MoveS, LookA, MoveF and the runs (3,3), (7,8), (12,13) |
| DecoderV2Examples.TrailingRunEndsEarly | src/serialization/native/new/mod.rs:497-509 | in `$]]` the run is reported as (1,1): `last_char` does not follow the skipped characters (also lines 574-588 of mod.rs) |

## Left out

- The `Display`, `Error` and `From` implementations of the error types are not modelled. Only the error variants are.
- `LiteralIsTooLong` is declared by the source, but `parse_next` never builds it. The model has no such error.
- The text of `Diagnostic::what` is not modelled: it depends on `CharPosition::custom_format`, which is not part of this model. Only the choice between one position and a range is (`Diagnostics.WhatLocation`).
- `Program`, `InstructionPosition`, `kind()`, the instruction constructors and the literal `new_from_enumerate` parsers are not part of this model's sources. They are declared with the behaviour the decoder's call sites and the fixtures rely on:
  - `kind()` is read off the literal placeholders of the token tables;
  - the literal parsers read greedily: every alphanumeric character (or, for a value, an optional `-` and every digit) is consumed, the first three are kept, and the stop character is consumed as the lookahead.
- Literals.ParseVariableValue: a value written with more digits than the range allows is clamped into [-9999, 99999]. This is a modelling choice, since the parser's handling of such text is not part of this model.
- The encoder `TextFormatSerializer` is not modelled. Token texts are rendered from the `I2NTF` templates instead, which is what the read-back lemmas use.
- DecoderV2.TextFormatDeserializerV2.Deserialize: the `todo!()` branches are modelled as an explicit "unsupported" outcome (`None`, `Todo`), with no further state. These are literal nodes, non-simple identifiers and directives (mod.rs:450-452, 534, 537-538).
- DecoderV2.TextFormatDeserializerV2.ParseNextToken: the values of `token_start`, `last_char` and `illegal_chars` after a call are not stated. The source sets them before reading them in every call.
- The trie is a constant field of each decoder class rather than a global static, so that proofs about one text need not unfold the whole table.
- The iterator of the fail-fast decoder (`Enumerate<Chars>`) is modelled as the count of characters consumed.
- The `LITERALS` fixture (tests/common/mod.rs:33-41) has no concrete lemma of its own. Its tokens are the templates of its instructions, so `ProgramRoundTrip.TextReadBack` covers the way it decodes.
- The `ALL_SIMPLE` and `NOT_ALL_COMMANDS` fixtures have no concrete lemmas of their own either.
- tests/serialization/native/new/mod.rs calls a method the decoder does not have, and is not used.
- The V2 fixture strings were reconstructed from the doc comments and the names of the tests in tests/serialization/native/new/deserializer.rs, because the string constants they refer to are not part of this model.

## Findings

| source | as written | input that shows it | evidently intended | confidence | as-written member | corrected member |
|---|---|---|---|---|---|---|
| src/serialization/native/new/data.rs:38 | `RotateCw` is spelled `^CW;` in `I2NTF`, but the `^` table of `NTF2I` (data.rs:1127-1141) holds only `A`, `D`, `F`, `S`, `W` | the token `^CW;` is an unknown instruction at its first character, so `RotateCw` does not read back | `CW;`, the token the trie maps to `RotateCw` (data.rs:674-681) and the one the `ALL_SIMPLE` fixture uses (tests/common/mod.rs:21) | not executed | TokenRoundTrip.RotateCwTokenAsWritten | TokenRoundTrip.RotateCwTokenCorrected |
