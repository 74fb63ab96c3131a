/** Round trips for modules and items, proved together because an inline
    module holds items and an item may be a module. */
module StructureRoundTrip {
  import opened Options
  import opened Tokens
  import opened Ast
  import opened Printer
  import opened Grammar
  import opened RoundTrip
  import opened DefinitionRoundTrip
  import opened Seqs

  lemma DeclaredSpelled(ident: string, tail: seq<Token>)
    ensures PrintModule(Module(ident, Declared)) + tail == [Kw(KwMod), Id(ident), Semi] + tail
  {
  }

  lemma InlineSpelled(ident: string, items: seq<Item>, tail: seq<Token>)
    ensures PrintModule(Module(ident, Inline(items))) + tail
         == [Kw(KwMod), Id(ident), LBrace] + (PrintItems(items) + ([RBrace] + tail))
  {
    assert PrintModule(Module(ident, Inline(items))) == [Kw(KwMod), Id(ident)] + Braced(PrintItems(items));
    InlineRegroup(ident, PrintItems(items), tail);
  }

  lemma InlineRegroup(ident: string, inner: seq<Token>, tail: seq<Token>)
    ensures [Kw(KwMod), Id(ident)] + Braced(inner) + tail
         == [Kw(KwMod), Id(ident), LBrace] + (inner + ([RBrace] + tail))
  {
  }

  /** ModuleBodyRule on `mod x { ... }` once the items inside have been read. */
  lemma InlineSteps(ident: string, inner: seq<Token>, items: seq<Item>, tail: seq<Token>)
    requires ItemsRule(inner) == Some(Parsed(items, [RBrace] + tail))
    ensures ModuleBodyRule([Kw(KwMod), Id(ident), LBrace] + inner)
         == Some(Parsed(Module(ident, Inline(items)), tail))
  {
    InlineHead(ident, inner);
    ConsDrop(RBrace, tail);
    assert Expect([RBrace] + tail, RBrace) == Some(tail);
  }

  /** `mod x {` followed by items and no closing brace is refused: the items
      rule reads every item, and the brace the module then expects is missing. */
  lemma UnclosedModule(ident: string, items: seq<Item>)
    requires ValidItems(items)
    ensures ModuleRule([Kw(KwMod), Id(ident), LBrace] + PrintItems(items)) == None
  {
    ItemsRoundTrip(items, []);
    assert PrintItems(items) + [] == PrintItems(items);
    UnclosedSteps(ident, PrintItems(items), items);
    InlineStart(ident, PrintItems(items));
  }

  /** ModuleBodyRule on `mod x {` once the items have used up the input. */
  lemma UnclosedSteps(ident: string, inner: seq<Token>, items: seq<Item>)
    requires ItemsRule(inner) == Some(Parsed(items, []))
    ensures ModuleBodyRule([Kw(KwMod), Id(ident), LBrace] + inner) == None
  {
    InlineHead(ident, inner);
  }

  /** No attribute comes before `mod x {`. */
  lemma InlineStart(ident: string, inner: seq<Token>)
    ensures ModuleRule([Kw(KwMod), Id(ident), LBrace] + inner)
         == ModuleBodyRule([Kw(KwMod), Id(ident), LBrace] + inner)
  {
    var ts := [Kw(KwMod), Id(ident), LBrace] + inner;
    DocRoundTrip(None, ts);
    assert PrintDoc(None) + ts == ts;
  }

  /** The tokens of `mod x {`, read one at a time. */
  lemma InlineHead(ident: string, inner: seq<Token>)
    ensures Expect([Kw(KwMod), Id(ident), LBrace] + inner, Kw(KwMod)) == Some([Id(ident), LBrace] + inner)
    ensures IdentRule([Id(ident), LBrace] + inner) == Some(Parsed(ident, [LBrace] + inner))
    ensures ([LBrace] + inner)[0] == LBrace
    ensures Expect([LBrace] + inner, LBrace) == Some(inner)
  {
    Drop3(Kw(KwMod), Id(ident), LBrace, inner);
  }

  lemma ItemsCons(items: seq<Item>, tail: seq<Token>)
    requires items != []
    ensures PrintItems(items) + tail == PrintItem(items[0]) + (PrintItems(items[1..]) + tail)
  {
  }

  /** A printed item is never empty and never starts with a closing brace,
      so a run of items ends exactly where the printed items do. */
  lemma ItemStart(item: Item)
    ensures PrintItem(item) != [] && PrintItem(item)[0] != RBrace
  {
    match item
    case ModuleItem(m) =>
    case UseItem(u) =>
    case RegisterItem(r) =>
      RegisterStart(r, []);
      assert PrintRegister(r) + [] == PrintRegister(r);
    case PeripheralItem(p) =>
      PeripheralStart(p, []);
      assert PrintPeripheral(p) + [] == PrintPeripheral(p);
    case DeviceItem(d) =>
      DeviceStart(d, []);
      assert PrintDevice(d) + [] == PrintDevice(d);
  }

  /** Every valid module, declared or inline, reads back as itself. */
  lemma ModuleRoundTrip(m: Module, tail: seq<Token>)
    requires ValidModule(m)
    ensures ModuleRule(PrintModule(m) + tail) == Some(Parsed(m, tail))
  {
    ModuleBodyRoundTrip(m, tail);
    ModuleStart(m, tail);
  }

  /** From `mod` on, a valid module reads back as itself. */
  lemma {:induction false} ModuleBodyRoundTrip(m: Module, tail: seq<Token>)
    requires ValidModule(m)
    ensures ModuleBodyRule(PrintModule(m) + tail) == Some(Parsed(m, tail))
    decreases m, 0
  {
    match m.content
    case Declared =>
      DeclaredSpelled(m.ident, tail);
      assert ([Kw(KwMod), Id(m.ident), Semi] + tail)[1..][1..][1..] == tail;
    case Inline(items) =>
      InlineSpelled(m.ident, items, tail);
      ItemsRoundTrip(items, [RBrace] + tail);
      InlineSteps(m.ident, PrintItems(items) + ([RBrace] + tail), items, tail);
  }

  /** A printed module starts with `mod`, so no attribute is read in front of it. */
  lemma ModuleStart(m: Module, tail: seq<Token>)
    ensures (PrintModule(m) + tail)[0] == Kw(KwMod)
    ensures ModuleRule(PrintModule(m) + tail) == ModuleBodyRule(PrintModule(m) + tail)
  {
    assert DocRule(PrintModule(m) + tail).rest == PrintModule(m) + tail;
  }

  /** A module with a documentation attribute in front of it reads back as
      the same module: the attribute is read and dropped. */
  lemma DocumentedModuleRoundTrip(doc: Option<string>, m: Module, tail: seq<Token>)
    requires ValidModule(m)
    ensures ModuleRule(PrintDoc(doc) + PrintModule(m) + tail) == Some(Parsed(m, tail))
  {
    var body := PrintModule(m) + tail;
    ModuleRoundTrip(m, tail);
    ModuleStart(m, tail);
    DocRoundTrip(doc, body);
    Assoc(PrintDoc(doc), PrintModule(m), tail);
  }

  /** As an item, too, a documented module is the module alone. */
  lemma DocumentedModuleItemRoundTrip(doc: Option<string>, m: Module, tail: seq<Token>)
    requires ValidModule(m)
    ensures ItemRule(PrintDoc(doc) + PrintModule(m) + tail) == Some(Parsed(ModuleItem(m), tail))
  {
    var ts := PrintDoc(doc) + PrintModule(m) + tail;
    DocumentedModuleRoundTrip(doc, m, tail);
    ModuleStart(m, tail);
    DocRoundTrip(doc, PrintModule(m) + tail);
    Assoc(PrintDoc(doc), PrintModule(m), tail);
    ModuleItemStep(ts, m, tail);
  }

  /** Every valid item reads back as itself, whatever follows it. */
  lemma {:induction false} ItemRoundTrip(item: Item, tail: seq<Token>)
    requires ValidItem(item)
    ensures ItemRule(PrintItem(item) + tail) == Some(Parsed(item, tail))
    decreases item, 1
  {
    match item
    case ModuleItem(m) =>
      ModuleBodyRoundTrip(m, tail);
      ModuleStart(m, tail);
      ModuleItemStep(PrintModule(m) + tail, m, tail);
    case UseItem(u) => UseItemRoundTrip(u, tail);
    case RegisterItem(r) => RegisterItemRoundTrip(r, tail);
    case PeripheralItem(p) => PeripheralItemRoundTrip(p, tail);
    case DeviceItem(d) => DeviceItemRoundTrip(d, tail);
  }

  /** An item whose documentation is followed by `mod` is read as a module. */
  lemma ModuleItemStep(ts: seq<Token>, m: Module, tail: seq<Token>)
    requires DocRule(ts).rest != [] && DocRule(ts).rest[0] == Kw(KwMod)
    requires ModuleRule(ts) == Some(Parsed(m, tail))
    ensures ItemRule(ts) == Some(Parsed(ModuleItem(m), tail))
  {
  }

  /** An item whose documentation is followed by `peripheral` is read as a peripheral. */
  lemma PeripheralItemStep(ts: seq<Token>, p: PeripheralDefinition, tail: seq<Token>)
    requires DocRule(ts).rest != [] && DocRule(ts).rest[0] == Kw(KwPeripheral)
    requires PeripheralRule(ts) == Some(Parsed(p, tail))
    ensures ItemRule(ts) == Some(Parsed(PeripheralItem(p), tail))
  {
    var head := DocRule(ts).rest;
    assert head[0] != Kw(KwMod) && head[0] != Kw(KwUse);
  }

  /** An item whose documentation is followed by `device` is read as a device. */
  lemma DeviceItemStep(ts: seq<Token>, d: DeviceDefinition, tail: seq<Token>)
    requires DocRule(ts).rest != [] && DocRule(ts).rest[0] == Kw(KwDevice)
    requires DeviceRule(ts) == Some(Parsed(d, tail))
    ensures ItemRule(ts) == Some(Parsed(DeviceItem(d), tail))
  {
    var head := DocRule(ts).rest;
    assert head[0] != Kw(KwMod) && head[0] != Kw(KwUse) && head[0] != Kw(KwPeripheral);
  }

  /** An item whose documentation is followed by an access keyword is read as a register. */
  lemma RegisterItemStep(ts: seq<Token>, r: RegisterDefinition, tail: seq<Token>)
    requires DocRule(ts).rest != [] && DocRule(ts).rest[0] == Kw(AccessKeyword(r.access))
    requires RegisterRule(ts) == Some(Parsed(r, tail))
    ensures ItemRule(ts) == Some(Parsed(RegisterItem(r), tail))
  {
    var head := DocRule(ts).rest;
    var k := AccessKeyword(r.access);
    assert k in {KwRo, KwWo, KwRw, KwRaw};
    assert head[0] != Kw(KwMod) && head[0] != Kw(KwUse);
    assert head[0] != Kw(KwPeripheral) && head[0] != Kw(KwDevice);
  }

  lemma UseItemRoundTrip(u: Use, tail: seq<Token>)
    ensures ItemRule(PrintItem(UseItem(u)) + tail) == Some(Parsed(UseItem(u), tail))
  {
    var ts := PrintUse(u) + tail;
    UseRoundTrip(u, tail);
    assert ts[0] == Kw(KwUse);
    assert DocRule(ts).rest == ts;
  }

  lemma RegisterItemRoundTrip(r: RegisterDefinition, tail: seq<Token>)
    requires r.Valid()
    ensures ItemRule(PrintItem(RegisterItem(r)) + tail) == Some(Parsed(RegisterItem(r), tail))
  {
    assert PrintItem(RegisterItem(r)) == PrintRegister(r);
    RegisterStart(r, tail);
    RegisterRoundTrip(r, tail);
    RegisterItemStep(PrintRegister(r) + tail, r, tail);
  }

  lemma PeripheralItemRoundTrip(p: PeripheralDefinition, tail: seq<Token>)
    requires p.Valid()
    ensures ItemRule(PrintItem(PeripheralItem(p)) + tail) == Some(Parsed(PeripheralItem(p), tail))
  {
    assert PrintItem(PeripheralItem(p)) == PrintPeripheral(p);
    PeripheralStart(p, tail);
    PeripheralRoundTrip(p, tail);
    PeripheralItemStep(PrintPeripheral(p) + tail, p, tail);
  }

  lemma DeviceItemRoundTrip(d: DeviceDefinition, tail: seq<Token>)
    requires d.Valid()
    ensures ItemRule(PrintItem(DeviceItem(d)) + tail) == Some(Parsed(DeviceItem(d), tail))
  {
    assert PrintItem(DeviceItem(d)) == PrintDevice(d);
    DeviceStart(d, tail);
    DeviceRoundTrip(d, tail);
    DeviceItemStep(PrintDevice(d) + tail, d, tail);
  }

  /** A run of valid items reads back in order, up to a closing brace or
      the end of the input. */
  lemma {:induction false} ItemsRoundTrip(items: seq<Item>, tail: seq<Token>)
    requires ValidItems(items)
    requires tail == [] || tail[0] == RBrace
    ensures ItemsRule(PrintItems(items) + tail) == Some(Parsed(items, tail))
    decreases items, 2
  {
    if items == [] {
      assert PrintItems(items) + tail == tail;
    } else {
      var ts := PrintItems(items) + tail;
      var more := PrintItems(items[1..]) + tail;
      ItemsCons(items, tail);
      ValidItemsCons(items);
      ItemStart(items[0]);
      ItemRoundTrip(items[0], more);
      ItemsRoundTrip(items[1..], tail);
      ItemsStep(ts, items[0], more, items[1..], tail);
    }
  }

  lemma ValidItemsCons(items: seq<Item>)
    requires ValidItems(items) && items != []
    ensures ValidItem(items[0]) && ValidItems(items[1..])
    ensures [items[0]] + items[1..] == items
  {
    assert ValidItem(items[0]);
    forall i | 0 <= i < |items[1..]| ensures ValidItem(items[1..][i]) {
      assert items[1..][i] == items[i + 1];
    }
  }

  /** ItemsRule reads one item and then the rest of the run. */
  lemma ItemsStep(ts: seq<Token>, x: Item, rest: seq<Token>, xs: seq<Item>, tail: seq<Token>)
    requires ts != [] && ts[0] != RBrace
    requires ItemRule(ts) == Some(Parsed(x, rest))
    requires ItemsRule(rest) == Some(Parsed(xs, tail))
    ensures ItemsRule(ts) == Some(Parsed([x] + xs, tail))
  {
  }
}
