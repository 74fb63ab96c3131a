# racr parser model

A model of the parser for the racr register-description language. racr
describes memory-mapped hardware with these constructs:

- modules, which hold items;
- `use` statements;
- register definitions, made of fields, enum variants and reserved bits, each with bit ranges;
- peripheral definitions, made of register slots at offsets;
- device definitions, made of peripheral instances at addresses.

The library exports one parser per entry point: Access, Path, Module, Use,
RegisterDefinition, PeripheralDefinition, DeviceDefinition, Item and
Content. Its promises are the examples in the crate documentation of
`src/lib.rs`.

The model is written in the system's own terms:

- `Ast`: the syntax tree as immutable datatypes. It also holds the shape
  invariants every parsed tree satisfies: non-empty paths, non-empty bit
  ranges, and unions of at least two plain alternatives.
- `Literals`, `Tokens` and `Lexer`: source text to tokens.
  - Whitespace and `//` comments are dropped.
  - Identifiers are promoted to keywords by spelling.
  - Integer literals are decimal, `0x` hexadecimal or `0b` binary.
  - The lexer stops at the first character that starts no token.
- `Grammar`: one recursive-descent rule per construct. Each rule reads a
  token sequence and returns the node plus the remaining tokens, or None.
  Some rules read nothing when their construct is optional: the
  attribute, a field's access, the reset value, a list. A module and an item
  always read at least one token, as their contracts state. Together with
  the ranks of the `decreases` clauses, that makes the mutual recursion of
  modules and items terminate.
- `Parser`: the exported entry points. Each lexes the whole text, applies its
  rule and succeeds only when every token has been read.
- `Printer`: the canonical token spelling of every node. It is the partner
  the rules are proved against.
- `RoundTrip`, `DefinitionRoundTrip` and `StructureRoundTrip`: a valid
  node, printed and followed by any tail that cannot extend it, is read back
  by its rule as the same node with that tail left over. The reverse
  direction (what a rule accepts is spelled by its node) is proved for
  accesses, paths and use trees.
- `TextRoundTrip`: a printed tree, rendered to text, is parsed back by the
  entry point. `Lexer.LexRender` closes the loop between text and tokens.
- `Doctests` and `TextDoctests`: the documented examples.

The properties proved are:

- bit-range normalisation: `[N]` is `N..N+1`;
- literal bases;
- order preservation of paths, fields, variants, slots, alternatives,
  device entries and items;
- a doc attribute attaches to the next node, and its absence gives None;
- per-field access is optional;
- the optional reset value;
- braced lists read back both with and without a comma after the last entry;
- a module whose closing brace is missing is refused;
- the three slot forms;
- arbitrarily deep module nesting.

## Model

| member | source | states |
|---|---|---|
| Parser.ParseAccess | src/lib.rs:5-28 | the Access parser accepts a text exactly when it lexes to the one keyword of that access, and then returns that access |
| Parser.AccessSpelling | src/lib.rs:5-28 | for every access, parsing gives it if and only if the text is its keyword and nothing else |
| Grammar.AccessRule | src/lib.rs:5-28 | an access is read exactly when the next token is `ro`, `wo`, `rw` or `raw`, and the tokens consumed are that access's keyword |
| RoundTrip.AccessRoundTrip | src/lib.rs:5-28 | each access keyword, followed by anything, reads back as that access |
| RoundTrip.AccessKeywordInjective | src/lib.rs:5-28 | the four keywords and the four accesses correspond one to one |
| Tokens.KeywordSpelling | src/lib.rs:5-28 | every keyword is an identifier spelling that the lexer promotes back to that keyword |
| Doctests.ReadOnlyDoctest | src/lib.rs:5-10 | parsing `ro` gives ReadOnly |
| Doctests.WriteOnlyDoctest | src/lib.rs:11-16 | parsing `wo` gives WriteOnly |
| Doctests.ReadWriteDoctest | src/lib.rs:17-22 | parsing `rw` gives ReadWrite |
| Doctests.ReadAsWriteDoctest | src/lib.rs:23-28 | parsing `raw` gives ReadAsWrite |
| TextRoundTrip.AccessText | src/lib.rs:5-28 | the rendered keyword of any access parses back to that access |
| Parser.ParsePath | src/lib.rs:31-35 | a parsed path has at least one segment, and the text lexes to exactly its segments joined by `::` |
| Grammar.PathRule | src/lib.rs:31-35 | a path read has at least one segment, consumes at least one token, and is never followed by a further `::` |
| RoundTrip.SegmentsRoundTrip | src/lib.rs:31-35 | a chain of `:: ident` pairs reads back as its identifiers in the same order |
| RoundTrip.PathRoundTrip | src/lib.rs:31-35 | a non-empty path, printed, reads back as the same path, keeping segment order, whatever follows unless it is a further `::` |
| RoundTrip.PathSpelling | src/lib.rs:31-35 | whatever the path rule accepts is exactly the spelling of the path it returns, followed by the rest |
| Doctests.PathDoctest | src/lib.rs:31-35 | the tokens of `foo::bar::baz` read as the path `["foo", "bar", "baz"]` |
| TextDoctests.PathTextDoctest | src/lib.rs:31-35 | the Path parser turns the text `foo::bar::baz` into segments `["foo", "bar", "baz"]` |
| TextRoundTrip.PathText | src/lib.rs:31-35 | any valid path, rendered to text, is parsed back to itself |
| Parser.ParseModule | src/lib.rs:38-53 | a parsed module satisfies the tree invariants at every depth |
| StructureRoundTrip.ModuleRoundTrip | src/lib.rs:38-53 | a module, whether declared with `;` or inline with items nested to any depth, reads back as the same module |
| StructureRoundTrip.ModuleBodyRoundTrip | src/lib.rs:38-53 | from `mod` on, a declared module or an inline one with items nested to any depth reads back as the same module |
| StructureRoundTrip.DocumentedModuleRoundTrip | src/lib.rs:38-53 | a module with a documentation attribute in front of it reads back as the same module; a module carries no documentation, so the attribute is dropped |
| StructureRoundTrip.UnclosedModule | src/lib.rs:38-53 | `mod x {` followed by any valid items and no closing brace is refused |
| Doctests.UnclosedModuleDoctest | src/lib.rs:38-53 | the tokens of `mod foo {` are refused by the module rule |
| TextDoctests.UnclosedModuleTextDoctest | src/lib.rs:38-53 | the Module parser refuses the text `mod foo {` |
| StructureRoundTrip.DocumentedModuleItemRoundTrip | src/lib.rs:38-53 | as an item, a documented module reads back as that module item |
| Grammar.ModuleRule | src/lib.rs:38-53 | a module read, after an optional attribute that is dropped, satisfies the tree invariants at every depth and consumes at least one token |
| Grammar.ModuleBodyRule | src/lib.rs:38-53 | a module read from `mod` on satisfies the tree invariants at every depth and consumes at least one token |
| Doctests.DeclaredModuleDoctest | src/lib.rs:39-44 | the tokens of `mod foo;` read as module `foo` with no content |
| Doctests.NestedModuleDoctest | src/lib.rs:45-53 | the tokens of `mod foo {mod bar {mod baz;}}` read as three nested modules, the innermost with no content |
| TextDoctests.DeclaredModuleTextDoctest | src/lib.rs:39-44 | the Module parser turns the text `mod foo;` into module `foo` with no content |
| TextDoctests.NestedModuleTextDoctest | src/lib.rs:45-53 | the Module parser turns the text `mod foo {mod bar {mod baz;}}` into the three nested modules |
| TextRoundTrip.ModuleText | src/lib.rs:38-53 | any valid module, rendered to text, is parsed back to itself |
| TextRoundTrip.DocumentedModuleText | src/lib.rs:38-53 | the text of a valid module preceded by a documentation attribute is parsed back to the module |
| Parser.ParseUse | src/lib.rs:55-78 | a parsed use statement's text lexes to exactly `use`, the spelling of its tree, and `;` |
| RoundTrip.UseTreeRoundTrip | src/lib.rs:56-78 | a use tree, nested to the right through `ident ::` and ending in a name or `X as Y`, reads back as itself |
| RoundTrip.UseTreeSpelling | src/lib.rs:56-78 | whatever the use-tree rule accepts is exactly the spelling of the tree it returns |
| RoundTrip.UseRoundTrip | src/lib.rs:56-78 | a use statement, printed, reads back as itself |
| RoundTrip.UseSpelling | src/lib.rs:56-78 | whatever the use rule accepts is exactly `use`, the spelling of its tree, and `;` |
| Doctests.UseIdentDoctest | src/lib.rs:56-61 | the tokens of `use Foo;` read as the tree `Ident("Foo")` |
| Doctests.UsePathDoctest | src/lib.rs:62-71 | the tokens of `use foo::bar::Baz;` read as `Path(foo, Path(bar, Ident(Baz)))` |
| Doctests.UseRenameDoctest | src/lib.rs:72-78 | the tokens of `use foo::Bar as Baz;` read as `Path(foo, Rename(Bar, Baz))` |
| TextDoctests.UseIdentTextDoctest | src/lib.rs:56-61 | the Use parser turns the text `use Foo;` into the tree `Ident("Foo")` |
| TextDoctests.UsePathTextDoctest | src/lib.rs:62-71 | the Use parser turns the text `use foo::bar::Baz;` into the right-nested path tree |
| TextDoctests.UseRenameTextDoctest | src/lib.rs:72-78 | the Use parser turns the text `use foo::Bar as Baz;` into a path node over a rename |
| TextRoundTrip.UseText | src/lib.rs:55-78 | any use statement, rendered to text, is parsed back to itself |
| Grammar.UseTreeRule | src/lib.rs:56-78 | a use tree read consumes at least one token |
| Grammar.UseRule | src/lib.rs:55-78 | a use statement read consumes at least one token |
| Grammar.DocRule | src/lib.rs:86-117 | the doc rule never fails; what it skips is exactly the spelling of the documentation it returns, and None means nothing was skipped |
| RoundTrip.DocRoundTrip | src/lib.rs:86-117 | a `#[doc = "..."]` attribute reads back as its text; no attribute reads as None, not as an empty string |
| Grammar.OptAccessRule | src/lib.rs:90-96 | a field's access prefix is optional; what is consumed is exactly the spelling of the access returned, and nothing for None |
| RoundTrip.OptAccessRoundTrip | src/lib.rs:90-96 | a field access prefix reads back as Some(access), and its absence as None |
| Grammar.BitRangeRule | src/lib.rs:90-98 | every bit range read is non-empty |
| RoundTrip.BitRangeForms | src/lib.rs:90-98 | a bare `N` reads as the one-bit range `N..N+1`; `N..M` reads as `N..M` exactly when N < M and is refused otherwise |
| RoundTrip.BitsRoundTrip | src/lib.rs:90-98 | a non-empty range prints as `[N]` when it is one bit wide and as `[N..M]` otherwise, and either form reads back as the same `N..M` |
| Grammar.BitsRule | src/lib.rs:90-117 | a bracketed bit range read is non-empty and consumes at least one token |
| Literals.DigitsValueOfDigits | src/lib.rs:104-110 | in bases 2 to 16, the value of a number's digits is that number |
| Lexer.LexDecimal | src/lib.rs:104-107 | a decimal literal lexes to one integer token of its value |
| Lexer.LexHexadecimal | src/lib.rs:110 | `0x` followed by the hexadecimal digits of n lexes to one integer token n |
| Lexer.LexBinary | src/lib.rs:109 | `0b` followed by the binary digits of n lexes to one integer token n |
| Doctests.PrefixedDoctest | src/lib.rs:109-110 | any `0x`/`0b` literal with at least one digit of its base, leading zeros allowed, lexes to one integer token of the digits' value |
| Doctests.BinaryTenDoctest | src/lib.rs:109 | `0b10` lexes to the integer 2 |
| Doctests.HexFourDoctest | src/lib.rs:110 | `0x4` lexes to the integer 4 |
| Doctests.HexZeroDoctest | src/lib.rs:144 | `0x00` lexes to the integer 0 |
| Doctests.HexZeroFourDoctest | src/lib.rs:145 | `0x04` lexes to the integer 4 |
| Doctests.HexTwelveDoctest | src/lib.rs:168 | `0x0c` lexes to the integer 12 |
| Doctests.HexSixteenDoctest | src/lib.rs:146 | `0x10` lexes to the integer 16 |
| Lexer.LexRun | src/lib.rs:102-118 | text written as pieces (whitespace, token spellings, decimal or prefixed literals with leading zeros), each separated from what follows, lexes to the pieces' tokens in order |
| Lexer.LexRender | src/lib.rs:102-118 | every token sequence the lexer can produce, rendered with separating spaces, lexes back to itself |
| Lexer.Lex | src/lib.rs:102-118 | every token the lexer produces is one it can render: identifiers are well formed and are not keywords, and strings hold no quote |
| RoundTrip.CommaListRoundTrip | src/lib.rs:105-117 | a list whose every entry is followed by a comma, the last one trailing, reads back as the same entries in the same order, up to the closing brace |
| RoundTrip.BracedListRoundTrip | src/lib.rs:104-118 | a braced, comma-terminated list reads back as its entries in order |
| RoundTrip.CommaListNoTrailing | src/lib.rs:105-117 | a list whose last entry has no comma after it reads back as the same entries in the same order, the last one included, and stops right after that entry |
| RoundTrip.BracedListNoTrailing | src/lib.rs:104-118 | a braced list with no comma before the closing brace reads back as its entries in order |
| Grammar.CommaList | src/lib.rs:105-117 | every entry of a comma-terminated list satisfies the entry rule's invariant, and the list never reads past its input |
| Grammar.BracedList | src/lib.rs:104-118 | every entry of a braced list satisfies the entry rule's invariant, and the list consumes at least its two braces |
| DefinitionRoundTrip.VariantRoundTrip | src/lib.rs:92-94 | an enum variant, with or without documentation, reads back with its name, value and documentation |
| DefinitionRoundTrip.VariantsRoundTrip | src/lib.rs:106-111 | the braced variants of an enum field read back in source order |
| Grammar.VariantRule | src/lib.rs:107-110 | an enum variant read consumes at least one token |
| DefinitionRoundTrip.FieldBodyRoundTrip | src/lib.rs:90-98 | each of the `field`, `enum` and `reserved` forms reads back with its type and bit range |
| DefinitionRoundTrip.FieldRoundTrip | src/lib.rs:90-99 | a field, with or without documentation and with or without an access prefix, reads back as itself |
| DefinitionRoundTrip.FieldsRoundTrip | src/lib.rs:89-100 | the braced fields of a register read back in source order |
| Grammar.FieldBodyRule | src/lib.rs:90-98 | the bit range of a `field`, `enum` or `reserved` body read is non-empty |
| Grammar.FieldRule | src/lib.rs:90-99 | a field read has a non-empty bit range and consumes at least one token |
| Grammar.RegisterHeadRule | src/lib.rs:104 | `register [size] Name` is recognised exactly when it is there, and gives the size and the name |
| Grammar.ResetRule | src/lib.rs:88-104 | the reset value is optional: what is consumed is exactly `= N` for a value N and nothing for None, None is returned only when no `=` follows, and the rule fails only when an `=` is not followed by a number |
| DefinitionRoundTrip.ResetRoundTrip | src/lib.rs:88 | an optional `= N` reads back as reset value Some(N), and its absence as None |
| DefinitionRoundTrip.RegisterRoundTrip | src/lib.rs:82-120 | a valid register definition, printed, reads back as itself |
| Grammar.RegisterRule | src/lib.rs:82-120 | a register definition read has non-empty bit ranges in every field |
| Parser.ParseRegisterDefinition | src/lib.rs:82-120 | a parsed register definition has non-empty bit ranges in every field |
| Doctests.RegisterDoctest | src/lib.rs:81-121 | the tokens of the register text read as the documented definition, including access, size, reset value, the six fields in order, the normalised bit ranges, the field access, and which nodes carry documentation |
| TextRoundTrip.RegisterDefinitionText | src/lib.rs:82-120 | any valid register definition, rendered to text, is parsed back to itself |
| DefinitionRoundTrip.RegisterTypeRoundTrip | src/lib.rs:129-130 | a register type reads back as Single for `Path` and as Array with its size for `[Path; n]` |
| Grammar.RegisterTypeRule | src/lib.rs:129-130 | the path of a register type read, single or array, has at least one segment |
| DefinitionRoundTrip.InstanceRoundTrip | src/lib.rs:129-130 | a register instance `ident: type` reads back as itself |
| Grammar.InstanceRule | src/lib.rs:129-130 | a register instance read has a non-empty path |
| Grammar.AlternativeRule | src/lib.rs:133-146 | a union alternative read has a plain, non-array type with a non-empty path, and consumes at least one token |
| DefinitionRoundTrip.AlternativeRoundTrip | src/lib.rs:133-146 | a plain alternative `ident: Path` reads back as the same alternative, with what follows the path left over |
| DefinitionRoundTrip.AlternativesRoundTrip | src/lib.rs:131-138 | bar-separated union alternatives read back in source order |
| Grammar.AlternativesRule | src/lib.rs:131-136 | at least one alternative is read, and each is `ident: Path` with a non-empty path |
| DefinitionRoundTrip.UnionRoundTrip | src/lib.rs:131-138 | a parenthesised union of at least two alternatives at one offset reads back as a Union slot with that offset |
| DefinitionRoundTrip.UnionRuleRoundTrip | src/lib.rs:131-146 | the union rule reads a parenthesised, bar-separated list of alternatives followed by `@ N` back as a Union of the same alternatives, in order, at offset N |
| Grammar.UnionRule | src/lib.rs:131-138 | what a union reads is a Union slot of at least two plain alternatives |
| DefinitionRoundTrip.SlotRoundTrip | src/lib.rs:129-138 | every slot form (single, array, union) reads back as itself with its offset |
| Grammar.SlotRule | src/lib.rs:129-138 | every slot read, single, array or union, satisfies the slot invariants |
| DefinitionRoundTrip.SlotsRoundTrip | src/lib.rs:128-139 | the braced slots of a peripheral read back in source order |
| DefinitionRoundTrip.PeripheralRoundTrip | src/lib.rs:124-149 | a valid peripheral definition, printed, reads back as itself |
| Grammar.PeripheralRule | src/lib.rs:124-149 | a peripheral definition read has valid slots only |
| Parser.ParsePeripheralDefinition | src/lib.rs:124-149 | a parsed peripheral has valid slots only: non-empty paths, and unions of at least two plain alternatives |
| Doctests.PeripheralDoctest | src/lib.rs:123-150 | the tokens of the peripheral text read as the documented definition: a single slot, an array slot of size 2 and a three-way union at 16, in order |
| TextRoundTrip.PeripheralDefinitionText | src/lib.rs:124-149 | any valid peripheral definition, rendered to text, is parsed back to itself |
| DefinitionRoundTrip.PeripheralInstanceRoundTrip | src/lib.rs:158-160 | a device entry `ident: Path @ addr` reads back with its path and address |
| Grammar.PeripheralInstanceRule | src/lib.rs:158-160 | a device entry read has a non-empty path |
| DefinitionRoundTrip.PeripheralInstancesRoundTrip | src/lib.rs:157-161 | a device's entries read back in source order |
| DefinitionRoundTrip.DeviceRoundTrip | src/lib.rs:153-171 | a valid device definition, printed, reads back as itself |
| Grammar.DeviceRule | src/lib.rs:153-171 | every entry of a device definition read has a non-empty path |
| Parser.ParseDeviceDefinition | src/lib.rs:153-171 | every entry of a parsed device has a non-empty path |
| Doctests.DeviceDoctest | src/lib.rs:152-172 | the tokens of the device text read as the documented definition: three entries in order, at addresses 0, 4 and 12 |
| TextRoundTrip.DeviceDefinitionText | src/lib.rs:153-171 | any valid device definition, rendered to text, is parsed back to itself |
| StructureRoundTrip.ItemRoundTrip | src/lib.rs:196 | every kind of item (module, use, register, peripheral, device) reads back as itself |
| Grammar.ItemRule | src/lib.rs:196 | an item read satisfies the tree invariants and consumes at least one token |
| Parser.ParseItem | src/lib.rs:196 | a parsed item satisfies the tree invariants |
| TextRoundTrip.ItemText | src/lib.rs:196 | any valid item, rendered to text, is parsed back to itself |
| StructureRoundTrip.ItemsRoundTrip | src/lib.rs:175-185 | a sequence of items reads back in source order, up to the end of the input or a closing brace |
| Grammar.ItemsRule | src/lib.rs:175-185 | the items read satisfy the tree invariants, and reading stops only at the end of the input or at a `}` |
| Parser.ParseContent | src/lib.rs:175-185 | parsed content is a sequence of items that satisfy the tree invariants |
| Doctests.ContentDoctest | src/lib.rs:173-186 | the tokens of the content text read as two use statements followed by a module holding one peripheral with two slots |
| TextRoundTrip.ContentText | src/lib.rs:175-185 | any valid item sequence, rendered to text, is parsed back to itself |

## Left out

- The parser generator: the grammar is written out directly. The error kinds it reports, the positions of errors and any error recovery are left out, and every failure is None.
- Documentation attributes are recognised by the grammar from the six tokens `#`, `[`, `doc`, `=`, a string and `]`, not as one lexer token. For an unbroken `#[doc = "..."]` the trees are the same. Because the six are separate tokens, the model also accepts an attribute with whitespace or `//` comments between its parts, such as `# [ doc = "x" ]`, which a single attribute token would not.
- String escapes inside `#[doc = "..."]` are not modelled: a string runs to the next quote.
- Integer literals are unbounded naturals. The source's integer widths are not part of this model, so overflow is not modelled.
- Semantic validation is left out. This covers overlapping bit ranges, ranges beyond the register size and resolution of paths and `use` targets.
- Bit ranges written `N..M` with `M <= N` are rejected. The examples never show such a range, so this is a modelling choice.
- `crate` lexes as an ordinary identifier, so `use crate::bar::Baz;` has `crate` as its first path segment.
- A union needs at least two alternatives, and each alternative is `ident: Path` with no array form.
- Whitespace is the Unicode White_Space set, which includes the no-break spaces that occur in the peripheral, device and content examples.
- Module content is `Declared` or `Inline(items)`; it stands for the source's optional item list.
- Doctests.RegisterDoctest: stated on the token sequence of the example text, not on the text. The literal values it uses (`0b10`, `0x4`) are lexed by separate lemmas, and text in general by Lexer.LexRun and Lexer.LexRender.
- Doctests.PeripheralDoctest: stated on the token sequence of the example text, with the offsets lexed by separate lemmas.
- Doctests.DeviceDoctest: stated on the token sequence of the example text, with the addresses lexed by separate lemmas.
- Doctests.ContentDoctest: stated on the token sequence of the example text. The source example only requires success, and the model states the whole resulting tree.
- Parser.ParseModule: its own contract gives only the tree invariants. TextRoundTrip.ModuleText states what is parsed from a printed module.
- Parser.ParseRegisterDefinition: its own contract gives only the tree invariants. TextRoundTrip.RegisterDefinitionText gives the full statement.
- Parser.ParsePeripheralDefinition: its own contract gives only the tree invariants. TextRoundTrip.PeripheralDefinitionText gives the full statement.
- Parser.ParseDeviceDefinition: its own contract gives only the tree invariants. TextRoundTrip.DeviceDefinitionText gives the full statement.
- Parser.ParseItem: its own contract gives only the tree invariants. TextRoundTrip.ItemText gives the full statement.
- Parser.ParseContent: its own contract gives only the tree invariants. TextRoundTrip.ContentText gives the full statement.
- Lexer.Lex: its own contract states only that the tokens it produces are renderable. What the text lexes to is stated by Lexer.LexRun, Lexer.LexRender and the literal lemmas.
- Grammar.PathRule: its own contract gives validity and the stopping point. Its meaning is stated by RoundTrip.PathRoundTrip and RoundTrip.PathSpelling.
- Grammar.UseTreeRule: its own contract gives only progress. Its meaning is stated by RoundTrip.UseTreeRoundTrip and RoundTrip.UseTreeSpelling.
- Grammar.UseRule: its own contract gives only progress. Its meaning is stated by RoundTrip.UseRoundTrip and RoundTrip.UseSpelling.
- Grammar.ModuleRule: its own contract gives the tree invariants and progress. Its meaning is stated by StructureRoundTrip.ModuleRoundTrip and StructureRoundTrip.DocumentedModuleRoundTrip.
- Grammar.ModuleBodyRule: its own contract gives the tree invariants and progress. Its meaning is stated through Grammar.ModuleRule by StructureRoundTrip.ModuleRoundTrip.
- Grammar.ItemRule: its own contract gives the tree invariants and progress. Its meaning is stated by StructureRoundTrip.ItemRoundTrip.
- Grammar.ItemsRule: its own contract gives the tree invariants and where reading stops. Its meaning is stated by StructureRoundTrip.ItemsRoundTrip.
- Grammar.VariantRule: its own contract gives only progress. Its meaning is stated by DefinitionRoundTrip.VariantRoundTrip.
- Grammar.FieldBodyRule: its own contract gives only a non-empty range. Its meaning is stated by DefinitionRoundTrip.FieldBodyRoundTrip.
- Grammar.FieldRule: its own contract gives only a non-empty range and progress. Its meaning is stated by DefinitionRoundTrip.FieldRoundTrip.
- Grammar.RegisterRule: its own contract gives only the tree invariants. Its meaning is stated by DefinitionRoundTrip.RegisterRoundTrip.
- Grammar.RegisterTypeRule: its own contract gives only a non-empty path. Its meaning is stated by DefinitionRoundTrip.RegisterTypeRoundTrip.
- Grammar.InstanceRule: its own contract gives only a non-empty path. Its meaning is stated by DefinitionRoundTrip.InstanceRoundTrip.
- Grammar.AlternativesRule: its own contract gives only the shape of the alternatives. Their order is stated by DefinitionRoundTrip.AlternativesRoundTrip.
- Grammar.UnionRule: its own contract gives only the shape of the union. Its meaning is stated by DefinitionRoundTrip.UnionRuleRoundTrip and DefinitionRoundTrip.UnionRoundTrip.
- Grammar.SlotRule: its own contract gives only the slot invariants. Its meaning is stated by DefinitionRoundTrip.SlotRoundTrip.
- Grammar.PeripheralRule: its own contract gives only the tree invariants. Its meaning is stated by DefinitionRoundTrip.PeripheralRoundTrip.
- Grammar.PeripheralInstanceRule: its own contract gives only a non-empty path. Its meaning is stated by DefinitionRoundTrip.PeripheralInstanceRoundTrip.
- Grammar.DeviceRule: its own contract gives only the tree invariants. Its meaning is stated by DefinitionRoundTrip.DeviceRoundTrip.
- Grammar.CommaList: its own contract gives only the entry invariant. Order, with and without a trailing comma, is stated by RoundTrip.CommaListRoundTrip and RoundTrip.CommaListNoTrailing.
- Grammar.BracedList: its own contract gives only the entry invariant and that both braces are consumed. Order is stated by RoundTrip.BracedListRoundTrip and RoundTrip.BracedListNoTrailing.
- Grammar.BitsRule: its own contract gives only a non-empty range and progress. Its meaning is stated by RoundTrip.BitsRoundTrip.
- Grammar.AlternativeRule: its own contract gives only the shape of the alternative and progress. Its meaning is stated by DefinitionRoundTrip.AlternativeRoundTrip.
- Grammar.BitRangeRule: states non-emptiness of what it reads. The normalisation of `[N]` to `N..N+1` is stated by RoundTrip.BitRangeForms and RoundTrip.BitsRoundTrip.
- The reverse direction, that everything accepted is the printed form of its result, is proved only for accesses, paths and use trees. For the larger constructs, only the printed form is proved to be read back.
