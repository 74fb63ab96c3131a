/** The library's documentation examples, each stated on the tokens its
    text lexes to: the entry point's rule reads those tokens, to the end,
    as the tree the example expects. Token lists are written one source line
    at a time, so each constant lines up with a line of the example text. */
module Doctests {
  import opened Options
  import opened Tokens
  import opened Ast
  import opened Printer
  import opened Grammar
  import opened RoundTrip
  import opened DefinitionRoundTrip
  import opened StructureRoundTrip
  import opened Literals
  import opened Lexer
  import opened Parser

  /** PrintList on a list built from one entry and the rest. */
  lemma ListCons<T>(spell: T -> seq<Token>, x: T, xs: seq<T>)
    ensures PrintList(spell, [x] + xs) == spell(x) + [Comma] + PrintList(spell, xs)
  {
    assert ([x] + xs)[1..] == xs;
  }

  lemma List3<T>(spell: T -> seq<Token>, a: T, b: T, c: T)
    ensures PrintList(spell, [a, b, c])
         == spell(a) + [Comma] + spell(b) + [Comma] + spell(c) + [Comma]
  {
    ListCons(spell, c, []);
    assert [c] + [] == [c];
    ListCons(spell, b, [c]);
    assert [b] + [c] == [b, c];
    ListCons(spell, a, [b, c]);
    assert [a] + [b, c] == [a, b, c];
  }

  /** Printing a list is printing its two halves one after the other. */
  lemma {:induction false} ListAppend<T>(spell: T -> seq<Token>, xs: seq<T>, ys: seq<T>)
    ensures PrintList(spell, xs + ys) == PrintList(spell, xs) + PrintList(spell, ys)
    decreases |xs|
  {
    if xs == [] {
      assert xs + ys == ys;
    } else {
      ListAppend(spell, xs[1..], ys);
      assert (xs + ys)[0] == xs[0];
      assert (xs + ys)[1..] == xs[1..] + ys;
    }
  }

  // -- Register definitions (src/lib.rs lines 79-122) -------------------

  const SomeDocumentation := Some("Some documentation")

  /** `#[doc = "Some documentation"]` */
  const DocLine := [Hash, LBracket, Id("doc"), Eq, Str("Some documentation"), RBracket]

  const BarField := FieldInstance(Field("bar"), None, BitRange(0, 4), None)
  const BarVariants := [
    FieldVariant("BarA", 0, None),
    FieldVariant("BarB", 2, Some("some documentation")),
    FieldVariant("BarC", 4, None)]
  const BarXField := FieldInstance(Enum("barX", BarVariants), None, BitRange(4, 8), None)
  const BazField := FieldInstance(Field("baz"), None, BitRange(8, 9), Some(ReadOnly))
  const ReservedNine := FieldInstance(Reserved(0), SomeDocumentation, BitRange(9, 10), None)
  const ReservedTen := FieldInstance(Reserved(2), None, BitRange(10, 12), None)
  const BaxField := FieldInstance(Field("bax"), SomeDocumentation, BitRange(12, 32), None)

  const RegisterExpected := RegisterDefinition(
    WriteOnly, "Foo", SomeDocumentation, 32, Some(0),
    [BarField, BarXField, BazField, ReservedNine, ReservedTen, BaxField])

  /** `wo register[32] Foo = 0 {` */
  const RegisterHeadLine := [Kw(KwWo), Kw(KwRegister), LBracket, Num(32), RBracket, Id("Foo"), Eq, Num(0), LBrace]
  /** `field[0..4] bar,` */
  const BarLine := [Kw(KwField), LBracket, Num(0), DotDot, Num(4), RBracket, Id("bar"), Comma]
  /** `enum[4..8] barX {` */
  const BarXLine := [Kw(KwEnum), LBracket, Num(4), DotDot, Num(8), RBracket, Id("barX"), LBrace]
  /** `BarA = 0,` */
  const BarALine := [Id("BarA"), Eq, Num(0), Comma]
  /** `#[doc = "some documentation"]` */
  const LowerDocLine := [Hash, LBracket, Id("doc"), Eq, Str("some documentation"), RBracket]
  /** `BarB = 0b10,` */
  const BarBLine := [Id("BarB"), Eq, Num(2), Comma]
  /** `BarC = 0x4,` */
  const BarCLine := [Id("BarC"), Eq, Num(4), Comma]
  /** `},` */
  const CloseLine := [RBrace, Comma]
  /** `ro field[8] baz,` */
  const BazLine := [Kw(KwRo), Kw(KwField), LBracket, Num(8), RBracket, Id("baz"), Comma]
  /** `reserved[9] = 0,` */
  const ReservedNineLine := [Kw(KwReserved), LBracket, Num(9), RBracket, Eq, Num(0), Comma]
  /** `reserved[10..12] = 2,` */
  const ReservedTenLine := [Kw(KwReserved), LBracket, Num(10), DotDot, Num(12), RBracket, Eq, Num(2), Comma]
  /** `field[12..32] bax,` */
  const BaxLine := [Kw(KwField), LBracket, Num(12), DotDot, Num(32), RBracket, Id("bax"), Comma]

  /** The enum field, from `enum[4..8] barX {` to its closing `},`. */
  const BarXLines := BarXLine + BarALine + LowerDocLine + BarBLine + BarCLine + CloseLine

  /** The six field lines, `field[0..4] bar,` to `field[12..32] bax,`. */
  const FieldLines :=
    BarLine
    + BarXLines
    + BazLine
    + (DocLine + ReservedNineLine)
    + ReservedTenLine
    + (DocLine + BaxLine)

  const RegisterTokens := DocLine + RegisterHeadLine + FieldLines + [RBrace]

  /** Six entries printed one after another, each with its comma. */
  lemma List6<T>(spell: T -> seq<Token>, a: T, b: T, c: T, d: T, e: T, f: T,
                 la: seq<Token>, lb: seq<Token>, lc: seq<Token>,
                 ld: seq<Token>, le: seq<Token>, lf: seq<Token>)
    requires spell(a) + [Comma] == la && spell(b) + [Comma] == lb
    requires spell(c) + [Comma] == lc && spell(d) + [Comma] == ld
    requires spell(e) + [Comma] == le && spell(f) + [Comma] == lf
    ensures PrintList(spell, [a, b, c, d, e, f]) == la + lb + lc + ld + le + lf
  {
    assert [a, b, c, d, e, f] == [a, b, c] + [d, e, f];
    ListAppend(spell, [a, b, c], [d, e, f]);
    List3(spell, a, b, c);
    List3(spell, d, e, f);
  }

  /** A register whose head and fields print as the given lines. */
  lemma RegisterLines(r: RegisterDefinition, head: seq<Token>, fields: seq<Token>)
    requires PrintRegisterHead(r) + [LBrace] == head
    requires PrintList(PrintField, r.fields) == fields
    ensures PrintRegister(r) + [] == head + fields + [RBrace]
  {
  }

  lemma BarPrinted()
    ensures PrintField(BarField) + [Comma] == BarLine
  {
  }

  /** An enumeration field without documentation or access override,
      printed as its head line, its variants and the closing line. */
  lemma EnumFieldLines(f: FieldInstance, head: seq<Token>, variants: seq<Token>)
    requires f.ty.Enum? && f.documentation == None && f.access == None
    requires [Kw(KwEnum)] + PrintBits(f.bit_range) + [Id(f.ty.ident), LBrace] == head
    requires PrintList(PrintVariant, f.ty.variants) == variants
    ensures PrintField(f) + [Comma] == head + variants + CloseLine
  {
    var front := [Kw(KwEnum)] + PrintBits(f.bit_range);
    assert PrintField(f) == PrintFieldBody(f.ty, f.bit_range);
    assert PrintFieldBody(f.ty, f.bit_range) == front + [Id(f.ty.ident)] + Braced(variants);
    Regroup(front, Id(f.ty.ident), variants);
  }

  lemma Regroup(front: seq<Token>, name: Token, variants: seq<Token>)
    ensures front + [name] + Braced(variants) + [Comma] == front + [name, LBrace] + variants + CloseLine
  {
    var l := front + [name] + Braced(variants) + [Comma];
    var r := front + [name, LBrace] + variants + CloseLine;
    assert |l| == |r|;
    forall i | 0 <= i < |l| ensures l[i] == r[i] {
      if i < |front| + 2 + |variants| {
      }
    }
  }

  lemma BarVariantsPrinted()
    ensures PrintList(PrintVariant, BarVariants) == BarALine + LowerDocLine + BarBLine + BarCLine
  {
    assert PrintVariant(BarVariants[0]) + [Comma] == BarALine;
    assert PrintVariant(BarVariants[1]) + [Comma] == LowerDocLine + BarBLine;
    assert PrintVariant(BarVariants[2]) + [Comma] == BarCLine;
    List3(PrintVariant, BarVariants[0], BarVariants[1], BarVariants[2]);
    assert [BarVariants[0], BarVariants[1], BarVariants[2]] == BarVariants;
  }

  lemma BarXPrinted()
    ensures PrintField(BarXField) + [Comma] == BarXLines
  {
    assert PrintBits(BitRange(4, 8)) == [LBracket, Num(4), DotDot, Num(8), RBracket];
    BarVariantsPrinted();
    EnumFieldLines(BarXField, BarXLine, BarALine + LowerDocLine + BarBLine + BarCLine);
  }

  lemma BazPrinted()
    ensures PrintField(BazField) + [Comma] == BazLine
  {
  }

  lemma ReservedNinePrinted()
    ensures PrintField(ReservedNine) + [Comma] == DocLine + ReservedNineLine
  {
  }

  lemma ReservedTenPrinted()
    ensures PrintField(ReservedTen) + [Comma] == ReservedTenLine
  {
  }

  lemma BaxPrinted()
    ensures PrintField(BaxField) + [Comma] == DocLine + BaxLine
  {
  }

  lemma RegisterHeadPrinted()
    ensures PrintRegisterHead(RegisterExpected) + [LBrace] == DocLine + RegisterHeadLine
  {
  }

  lemma RegisterPrinted()
    ensures PrintRegister(RegisterExpected) + [] == RegisterTokens
  {
    BarPrinted();
    BarXPrinted();
    BazPrinted();
    ReservedNinePrinted();
    ReservedTenPrinted();
    BaxPrinted();
    List6(PrintField, BarField, BarXField, BazField, ReservedNine, ReservedTen, BaxField,
          BarLine, BarXLines, BazLine, DocLine + ReservedNineLine, ReservedTenLine, DocLine + BaxLine);
    RegisterHeadPrinted();
    RegisterLines(RegisterExpected, DocLine + RegisterHeadLine, FieldLines);
  }

  lemma RegisterValid()
    ensures RegisterExpected.Valid()
  {
    var fs := RegisterExpected.fields;
    forall i | 0 <= i < |fs| ensures ValidField(fs[i]) {
    }
  }

  /** The register example: documentation, access, size, reset value and
      all six fields, in the order written. */
  lemma RegisterDoctest()
    ensures RegisterRule(RegisterTokens) == Some(Parsed(RegisterExpected, []))
  {
    RegisterValid();
    RegisterPrinted();
    RegisterRoundTrip(RegisterExpected, []);
  }

  // -- Access (src/lib.rs lines 5-28), on the text itself ---------------

  /** A text that is exactly one token's spelling lexes to that token. */
  lemma LexAlone(t: Token, text: string)
    requires Renderable(t) && text == TokenText(t)
    ensures Lex(text) == Some([t])
  {
    assert Lex("") == Some([]);
    LexToken(t, "", []);
    assert TokenText(t) + "" == text;
    assert [t] + [] == [t];
  }

  lemma ReadOnlyDoctest()
    ensures ParseAccess("ro") == Some(ReadOnly)
  {
    LexAlone(Kw(KwRo), "ro");
  }

  lemma WriteOnlyDoctest()
    ensures ParseAccess("wo") == Some(WriteOnly)
  {
    LexAlone(Kw(KwWo), "wo");
  }

  lemma ReadWriteDoctest()
    ensures ParseAccess("rw") == Some(ReadWrite)
  {
    LexAlone(Kw(KwRw), "rw");
  }

  lemma ReadAsWriteDoctest()
    ensures ParseAccess("raw") == Some(ReadAsWrite)
  {
    LexAlone(Kw(KwRaw), "raw");
  }

  // -- Integer literals of the examples, in each base -------------------

  /** `0b10`, `0x4`, `0x00`, `0x04`, `0x0c` and `0x10` from the register,
      peripheral and device examples. */
  lemma PrefixedDoctest(marker: char, base: nat, ds: string, value: nat)
    requires (marker == 'x' && base == 16) || (marker == 'b' && base == 2)
    requires |ds| > 0 && forall i :: 0 <= i < |ds| ==> IsDigitIn(ds[i], base)
    requires DigitsValue(ds, base) == value
    ensures Lex(['0', marker] + ds) == Some([Num(value)])
  {
    assert Lex("") == Some([]);
    LexPrefixed(marker, base, ds, "", []);
    assert ['0', marker] + ds + "" == ['0', marker] + ds;
    assert [Num(value)] + [] == [Num(value)];
  }

  lemma BinaryTenDoctest()
    ensures Lex("0b10") == Some([Num(2)])
  {
    PrefixedDoctest('b', 2, "10", 2);
  }

  lemma HexFourDoctest()
    ensures Lex("0x4") == Some([Num(4)])
  {
    PrefixedDoctest('x', 16, "4", 4);
  }

  lemma HexZeroDoctest()
    ensures Lex("0x00") == Some([Num(0)])
  {
    PrefixedDoctest('x', 16, "00", 0);
  }

  /** A leading zero does not change the value: `0x04` is `0x4`. */
  lemma HexZeroFourDoctest()
    ensures Lex("0x04") == Lex("0x4") == Some([Num(4)])
  {
    HexFourDoctest();
    PrefixedDoctest('x', 16, "04", 4);
  }

  lemma HexTwelveDoctest()
    ensures Lex("0x0c") == Some([Num(12)])
  {
    PrefixedDoctest('x', 16, "0c", 12);
  }

  lemma HexSixteenDoctest()
    ensures Lex("0x10") == Some([Num(16)])
  {
    PrefixedDoctest('x', 16, "10", 16);
  }

  // -- Paths (src/lib.rs lines 30-36) ------------------------------------

  /** `foo::bar::baz` */
  const PathTokens := [Id("foo"), PathSep, Id("bar"), PathSep, Id("baz")]

  lemma PathDoctest()
    ensures PathRule(PathTokens) == Some(Parsed(Path.Path(["foo", "bar", "baz"]), []))
  {
    var p := Path.Path(["foo", "bar", "baz"]);
    PathRoundTrip(p, []);
    assert PrintPath(p) + [] == PathTokens;
  }

  // -- Modules (src/lib.rs lines 38-52) ----------------------------------

  /** `mod foo;` */
  const DeclaredModuleTokens := [Kw(KwMod), Id("foo"), Semi]

  lemma DeclaredModuleDoctest()
    ensures ModuleRule(DeclaredModuleTokens) == Some(Parsed(Module("foo", Declared), []))
  {
    ModuleRoundTrip(Module("foo", Declared), []);
    assert PrintModule(Module("foo", Declared)) + [] == DeclaredModuleTokens;
  }

  const UnclosedModuleTokens := [Kw(KwMod), Id("foo"), LBrace]

  /** `mod foo {` ends before its closing brace and is refused. */
  lemma UnclosedModuleDoctest()
    ensures ModuleRule(UnclosedModuleTokens) == None
  {
    UnclosedModule("foo", []);
    assert UnclosedModuleTokens + PrintItems([]) == UnclosedModuleTokens;
  }

  const NestedModule :=
    Module("foo", Inline([ModuleItem(Module("bar", Inline([ModuleItem(Module("baz", Declared))])))]))

  /** `mod foo {mod bar {mod baz;}}` */
  const NestedModuleTokens :=
    [Kw(KwMod), Id("foo"), LBrace, Kw(KwMod), Id("bar"), LBrace, Kw(KwMod), Id("baz"), Semi, RBrace, RBrace]

  lemma NestedModuleValid()
    ensures ValidModule(NestedModule)
  {
    var inner := Module("bar", Inline([ModuleItem(Module("baz", Declared))]));
    assert ValidItem(ModuleItem(Module("baz", Declared)));
    assert ValidModule(inner);
    assert ValidItem(ModuleItem(inner));
  }

  lemma NestedModulePrinted()
    ensures PrintModule(NestedModule) + [] == NestedModuleTokens
  {
    var baz := ModuleItem(Module("baz", Declared));
    var bar := ModuleItem(Module("bar", Inline([baz])));
    assert PrintItems([baz]) == [Kw(KwMod), Id("baz"), Semi];
    assert PrintItems([bar]) == [Kw(KwMod), Id("bar"), LBrace, Kw(KwMod), Id("baz"), Semi, RBrace];
  }

  lemma NestedModuleDoctest()
    ensures ModuleRule(NestedModuleTokens) == Some(Parsed(NestedModule, []))
  {
    NestedModuleValid();
    NestedModulePrinted();
    ModuleRoundTrip(NestedModule, []);
  }

  // -- Use declarations (src/lib.rs lines 53-78) -------------------------

  /** `use Foo;` */
  const UseIdentTokens := [Kw(KwUse), Id("Foo"), Semi]
  /** `use foo::bar::Baz;` */
  const UsePathTokens := [Kw(KwUse), Id("foo"), PathSep, Id("bar"), PathSep, Id("Baz"), Semi]
  /** `use foo::Bar as Baz;` */
  const UseRenameTokens := [Kw(KwUse), Id("foo"), PathSep, Id("Bar"), Kw(KwAs), Id("Baz"), Semi]

  lemma UseIdentDoctest()
    ensures UseRule(UseIdentTokens) == Some(Parsed(Use(Ident("Foo")), []))
  {
    UseRoundTrip(Use(Ident("Foo")), []);
    assert PrintUse(Use(Ident("Foo"))) + [] == UseIdentTokens;
  }

  lemma UsePathDoctest()
    ensures UseRule(UsePathTokens) == Some(Parsed(Use(UseTree.Path("foo", UseTree.Path("bar", Ident("Baz")))), []))
  {
    var u := Use(UseTree.Path("foo", UseTree.Path("bar", Ident("Baz"))));
    UseRoundTrip(u, []);
    assert PrintUse(u) + [] == UsePathTokens;
  }

  lemma UseRenameDoctest()
    ensures UseRule(UseRenameTokens) == Some(Parsed(Use(UseTree.Path("foo", Rename("Bar", "Baz"))), []))
  {
    var u := Use(UseTree.Path("foo", Rename("Bar", "Baz")));
    UseRoundTrip(u, []);
    assert PrintUse(u) + [] == UseRenameTokens;
  }

  // -- Peripheral definitions (src/lib.rs lines 123-151) -----------------

  const PeripheralExpected := PeripheralDefinition("Foo", SomeDocumentation, [
    RegisterSlot.Single(RegisterInstance("bar", RegisterType.Single(Path.Path(["bar", "Bar"]))), 0),
    RegisterSlot.Single(RegisterInstance("bax", Array(Path.Path(["bax", "Bax"]), 2)), 4),
    Union([
      RegisterInstance("baz1", RegisterType.Single(Path.Path(["baz", "Baz1"]))),
      RegisterInstance("baz2", RegisterType.Single(Path.Path(["baz", "Baz2"]))),
      RegisterInstance("baz3", RegisterType.Single(Path.Path(["baz", "Baz3"])))], 16)])

  /** `peripheral Foo {` */
  const PeripheralHeadLine := [Kw(KwPeripheral), Id("Foo"), LBrace]
  /** `bar: bar::Bar @ 0x00,` */
  const BarSlotLine := [Id("bar"), Colon, Id("bar"), PathSep, Id("Bar"), At, Num(0), Comma]
  /** `bax: [bax::Bax; 2] @ 0x04,` */
  const BaxSlotLine :=
    [Id("bax"), Colon, LBracket, Id("bax"), PathSep, Id("Bax"), Semi, Num(2), RBracket, At, Num(4), Comma]
  /** `baz1: baz::Baz1`, `baz2: baz::Baz2` and `baz3: baz::Baz3` */
  const Baz1Alternative := [Id("baz1"), Colon, Id("baz"), PathSep, Id("Baz1")]
  const Baz2Alternative := [Id("baz2"), Colon, Id("baz"), PathSep, Id("Baz2")]
  const Baz3Alternative := [Id("baz3"), Colon, Id("baz"), PathSep, Id("Baz3")]
  /** `(baz1: baz::Baz1 | baz2: baz::Baz2 | baz3: baz::Baz3) @ 0x10,` */
  const UnionSlotLine :=
    [LParen] + Baz1Alternative + [Pipe] + Baz2Alternative + [Pipe] + Baz3Alternative
    + [RParen, At, Num(16), Comma]

  const PeripheralTokens :=
    DocLine + PeripheralHeadLine + (BarSlotLine + BaxSlotLine + UnionSlotLine) + [RBrace]

  /** A definition whose head and entries print as the given lines. */
  lemma NamedLines(doc: Option<string>, keyword: Keyword, ident: string, body: seq<Token>,
                   head: seq<Token>, lines: seq<Token>)
    requires PrintDoc(doc) + [Kw(keyword), Id(ident), LBrace] == head
    requires body == lines
    ensures PrintDoc(doc) + [Kw(keyword), Id(ident)] + Braced(body) + [] == head + lines + [RBrace]
  {
  }

  /** Three union alternatives, separated by `|`. */
  lemma Alternatives3(a: RegisterInstance, b: RegisterInstance, c: RegisterInstance)
    ensures PrintAlternatives([a, b, c])
         == PrintInstance(a) + [Pipe] + (PrintInstance(b) + [Pipe] + PrintInstance(c))
  {
    assert [a, b, c][1..] == [b, c];
    assert [b, c][1..] == [c];
    assert PrintAlternatives([c]) == PrintInstance(c);
    assert PrintAlternatives([b, c]) == PrintInstance(b) + [Pipe] + PrintInstance(c);
  }

  lemma BazAlternativesPrinted(alts: seq<RegisterInstance>)
    requires alts == PeripheralExpected.registers[2].alternatives
    ensures PrintAlternatives(alts)
         == Baz1Alternative + [Pipe] + (Baz2Alternative + [Pipe] + Baz3Alternative)
  {
    assert PrintInstance(alts[0]) == Baz1Alternative;
    assert PrintInstance(alts[1]) == Baz2Alternative;
    assert PrintInstance(alts[2]) == Baz3Alternative;
    Alternatives3(alts[0], alts[1], alts[2]);
    assert [alts[0], alts[1], alts[2]] == alts;
  }

  /** A union of three alternatives, regrouped as one line. */
  lemma UnionLine(a: seq<Token>, b: seq<Token>, c: seq<Token>, offset: nat)
    ensures [LParen] + (a + [Pipe] + (b + [Pipe] + c)) + [RParen, At, Num(offset)] + [Comma]
         == [LParen] + a + [Pipe] + b + [Pipe] + c + [RParen, At, Num(offset), Comma]
  {
  }

  lemma UnionSlotPrinted()
    ensures PrintSlot(PeripheralExpected.registers[2]) + [Comma] == UnionSlotLine
  {
    var slot := PeripheralExpected.registers[2];
    BazAlternativesPrinted(slot.alternatives);
    assert PrintSlot(slot) == [LParen] + PrintAlternatives(slot.alternatives) + [RParen, At, Num(16)];
    UnionLine(Baz1Alternative, Baz2Alternative, Baz3Alternative, 16);
  }

  /** Three entries printed one after another, each with its comma. */
  lemma List3Lines<T>(spell: T -> seq<Token>, a: T, b: T, c: T, la: seq<Token>, lb: seq<Token>, lc: seq<Token>)
    requires spell(a) + [Comma] == la && spell(b) + [Comma] == lb && spell(c) + [Comma] == lc
    ensures PrintList(spell, [a, b, c]) == la + lb + lc
  {
    List3(spell, a, b, c);
  }

  lemma SlotsPrinted()
    ensures PrintList(PrintSlot, PeripheralExpected.registers)
         == BarSlotLine + BaxSlotLine + UnionSlotLine
  {
    var slots := PeripheralExpected.registers;
    assert PrintSlot(slots[0]) + [Comma] == BarSlotLine;
    assert PrintSlot(slots[1]) + [Comma] == BaxSlotLine;
    UnionSlotPrinted();
    List3Lines(PrintSlot, slots[0], slots[1], slots[2], BarSlotLine, BaxSlotLine, UnionSlotLine);
    assert [slots[0], slots[1], slots[2]] == slots;
  }

  lemma PeripheralValid()
    ensures PeripheralExpected.Valid()
  {
    var slots := PeripheralExpected.registers;
    var alts := slots[2].alternatives;
    assert forall i | 0 <= i < |alts| :: alts[i].ValidAlternative();
    assert forall i | 0 <= i < |slots| :: ValidSlot(slots[i]);
  }

  /** The peripheral example: a plain slot, an array slot and a union of
      three alternatives, at their offsets and in the order written. */
  lemma PeripheralDoctest()
    ensures PeripheralRule(PeripheralTokens) == Some(Parsed(PeripheralExpected, []))
  {
    PeripheralValid();
    SlotsPrinted();
    NamedLines(SomeDocumentation, KwPeripheral, "Foo", PrintList(PrintSlot, PeripheralExpected.registers),
               DocLine + PeripheralHeadLine, BarSlotLine + BaxSlotLine + UnionSlotLine);
    PeripheralRoundTrip(PeripheralExpected, []);
  }

  // -- Device definitions (src/lib.rs lines 152-172) ---------------------

  const DeviceExpected := DeviceDefinition("Foo", SomeDocumentation, [
    PeripheralInstance("bar", Path.Path(["bar", "Bar"]), 0),
    PeripheralInstance("baz", Path.Path(["baz", "Baz"]), 4),
    PeripheralInstance("bax", Path.Path(["bax", "Bax"]), 12)])

  /** `device Foo {` */
  const DeviceHeadLine := [Kw(KwDevice), Id("Foo"), LBrace]
  /** `bar: bar::Bar @ 0x00,` */
  const BarEntryLine := [Id("bar"), Colon, Id("bar"), PathSep, Id("Bar"), At, Num(0), Comma]
  /** `baz: baz::Baz @ 0x04,` */
  const BazEntryLine := [Id("baz"), Colon, Id("baz"), PathSep, Id("Baz"), At, Num(4), Comma]
  /** `bax: bax::Bax @ 0x0c,` */
  const BaxEntryLine := [Id("bax"), Colon, Id("bax"), PathSep, Id("Bax"), At, Num(12), Comma]

  const DeviceTokens :=
    DocLine + DeviceHeadLine + (BarEntryLine + BazEntryLine + BaxEntryLine) + [RBrace]

  lemma EntriesPrinted()
    ensures PrintList(PrintPeripheralInstance, DeviceExpected.peripherals)
         == BarEntryLine + BazEntryLine + BaxEntryLine
  {
    var entries := DeviceExpected.peripherals;
    List3(PrintPeripheralInstance, entries[0], entries[1], entries[2]);
  }

  lemma DeviceValid()
    ensures DeviceExpected.Valid()
  {
    var entries := DeviceExpected.peripherals;
    assert forall i | 0 <= i < |entries| :: ValidPeripheralInstance(entries[i]);
  }

  /** The device example: three peripherals at their addresses, in the
      order written. */
  lemma DeviceDoctest()
    ensures DeviceRule(DeviceTokens) == Some(Parsed(DeviceExpected, []))
  {
    DeviceValid();
    EntriesPrinted();
    NamedLines(SomeDocumentation, KwDevice, "Foo", PrintList(PrintPeripheralInstance, DeviceExpected.peripherals),
               DocLine + DeviceHeadLine, BarEntryLine + BazEntryLine + BaxEntryLine);
    DeviceRoundTrip(DeviceExpected, []);
  }

  // -- Content (src/lib.rs lines 173-185) --------------------------------

  const InnerPeripheral := PeripheralDefinition("Peripheral", None, [
    RegisterSlot.Single(RegisterInstance("foo", RegisterType.Single(Path.Path(["Foo"]))), 0),
    RegisterSlot.Single(RegisterInstance("nar", RegisterType.Single(Path.Path(["Baz"]))), 16)])

  const ContentExpected := [
    UseItem(Use(Ident("Foo"))),
    UseItem(Use(UseTree.Path("crate", UseTree.Path("bar", Ident("Baz"))))),
    ModuleItem(Module("module", Inline([PeripheralItem(InnerPeripheral)])))]

  /** `use Foo;` */
  const UseFooLine := [Kw(KwUse), Id("Foo"), Semi]
  /** `use crate::bar::Baz;` */
  const UseCrateLine := [Kw(KwUse), Id("crate"), PathSep, Id("bar"), PathSep, Id("Baz"), Semi]
  /** `mod module {` */
  const ModuleHeadLine := [Kw(KwMod), Id("module"), LBrace]
  /** `peripheral Peripheral {` */
  const InnerHeadLine := [Kw(KwPeripheral), Id("Peripheral"), LBrace]
  /** `foo: Foo @ 0x00,` */
  const FooSlotLine := [Id("foo"), Colon, Id("Foo"), At, Num(0), Comma]
  /** `nar: Baz @ 0x10,` */
  const NarSlotLine := [Id("nar"), Colon, Id("Baz"), At, Num(16), Comma]

  const InnerPeripheralLines := InnerHeadLine + FooSlotLine + NarSlotLine + [RBrace]

  const ContentTokens := UseFooLine + UseCrateLine + ModuleHeadLine + InnerPeripheralLines + [RBrace]

  /** Items are printed one after another, with nothing between them. */
  lemma Items3(a: Item, b: Item, c: Item)
    ensures PrintItems([a, b, c]) == PrintItem(a) + PrintItem(b) + PrintItem(c)
  {
    assert [a, b, c][1..] == [b, c];
    assert [b, c][1..] == [c];
    assert [c][1..] == [];
    assert PrintItems([c]) == PrintItem(c);
    assert PrintItems([b, c]) == PrintItem(b) + PrintItem(c);
  }

  lemma ItemsOne(item: Item)
    ensures PrintItems([item]) == PrintItem(item)
  {
    assert [item][1..] == [];
    assert PrintItems([]) == [];
  }

  lemma InlineOne(ident: string, item: Item)
    ensures PrintModule(Module(ident, Inline([item]))) == [Kw(KwMod), Id(ident), LBrace] + PrintItem(item) + [RBrace]
  {
    InlineSpelled(ident, [item], []);
    ItemsOne(item);
    assert PrintModule(Module(ident, Inline([item]))) + [] == PrintModule(Module(ident, Inline([item])));
  }

  lemma InnerPeripheralPrinted()
    ensures PrintPeripheral(InnerPeripheral) == InnerPeripheralLines
  {
    var slots := InnerPeripheral.registers;
    ListCons(PrintSlot, slots[1], []);
    assert [slots[1]] + [] == slots[1..];
    ListCons(PrintSlot, slots[0], slots[1..]);
    assert [slots[0]] + slots[1..] == slots;
  }

  lemma ModuleItemPrinted()
    ensures PrintItem(ContentExpected[2]) == ModuleHeadLine + InnerPeripheralLines + [RBrace]
  {
    InnerPeripheralPrinted();
    InlineOne("module", PeripheralItem(InnerPeripheral));
  }

  /** Three printed items, regrouped as the lines of the example. */
  lemma ContentLines(a: seq<Token>, b: seq<Token>, m: seq<Token>, i: seq<Token>)
    ensures a + b + (m + i + [RBrace]) + [] == a + b + m + i + [RBrace]
  {
  }

  lemma ContentPrinted()
    ensures PrintItems(ContentExpected) + [] == ContentTokens
  {
    Items3(ContentExpected[0], ContentExpected[1], ContentExpected[2]);
    assert [ContentExpected[0], ContentExpected[1], ContentExpected[2]] == ContentExpected;
    assert PrintItem(ContentExpected[0]) == UseFooLine;
    assert PrintItem(ContentExpected[1]) == UseCrateLine;
    ModuleItemPrinted();
    ContentLines(UseFooLine, UseCrateLine, ModuleHeadLine, InnerPeripheralLines);
  }

  lemma ContentValid()
    ensures ValidItems(ContentExpected)
  {
    var slots := InnerPeripheral.registers;
    assert forall i | 0 <= i < |slots| :: ValidSlot(slots[i]);
    assert ValidItem(PeripheralItem(InnerPeripheral));
    assert ValidModule(Module("module", Inline([PeripheralItem(InnerPeripheral)])));
  }

  /** The content example: two use declarations and an inline module that
      holds a peripheral, in the order written. */
  lemma ContentDoctest()
    ensures ItemsRule(ContentTokens) == Some(Parsed(ContentExpected, []))
  {
    ContentValid();
    ContentPrinted();
    ItemsRoundTrip(ContentExpected, []);
  }
}
