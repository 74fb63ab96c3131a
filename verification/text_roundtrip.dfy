/** Round trips through source text: a valid tree, printed to tokens and
    rendered with a space after each token, is parsed back by the matching
    entry point. The condition `AllRenderable` says the tree's names are
    identifiers other than keywords and its strings hold no quote. */
module TextRoundTrip {
  import opened Options
  import opened Tokens
  import opened Lexer
  import opened Ast
  import opened Printer
  import opened Grammar
  import opened RoundTrip
  import opened DefinitionRoundTrip
  import opened StructureRoundTrip
  import opened Parser

  lemma ParseRendered<T>(rule: seq<Token> -> Option<Parsed<T>>, ts: seq<Token>, x: T)
    requires AllRenderable(ts)
    requires rule(ts) == Some(Parsed(x, []))
    ensures ParseWith(rule, Render(ts)) == Some(x)
  {
    LexRender(ts);
  }

  lemma NoTail(ts: seq<Token>)
    ensures ts + [] == ts
  {
  }

  lemma AccessText(a: Access)
    ensures ParseAccess(Render(PrintAccess(a))) == Some(a)
  {
    LexRender(PrintAccess(a));
  }

  lemma PathText(p: Path)
    requires p.Valid() && AllRenderable(PrintPath(p))
    ensures ParsePath(Render(PrintPath(p))) == Some(p)
  {
    PathRoundTrip(p, []);
    NoTail(PrintPath(p));
    ParseRendered(PathRule, PrintPath(p), p);
  }

  lemma UseText(u: Use)
    requires AllRenderable(PrintUse(u))
    ensures ParseUse(Render(PrintUse(u))) == Some(u)
  {
    UseRoundTrip(u, []);
    NoTail(PrintUse(u));
    ParseRendered(UseRule, PrintUse(u), u);
  }

  lemma ModuleText(m: Module)
    requires ValidModule(m) && AllRenderable(PrintModule(m))
    ensures ParseModule(Render(PrintModule(m))) == Some(m)
  {
    ModuleRoundTrip(m, []);
    NoTail(PrintModule(m));
    ParseRendered(ModuleRule, PrintModule(m), m);
  }

  /** The text of a module may begin with a documentation attribute. */
  lemma DocumentedModuleText(doc: Option<string>, m: Module)
    requires ValidModule(m) && AllRenderable(PrintDoc(doc) + PrintModule(m))
    ensures ParseModule(Render(PrintDoc(doc) + PrintModule(m))) == Some(m)
  {
    DocumentedModuleRoundTrip(doc, m, []);
    NoTail(PrintDoc(doc) + PrintModule(m));
    ParseRendered(ModuleRule, PrintDoc(doc) + PrintModule(m), m);
  }

  lemma RegisterDefinitionText(r: RegisterDefinition)
    requires r.Valid() && AllRenderable(PrintRegister(r))
    ensures ParseRegisterDefinition(Render(PrintRegister(r))) == Some(r)
  {
    RegisterRoundTrip(r, []);
    NoTail(PrintRegister(r));
    ParseRendered(RegisterRule, PrintRegister(r), r);
  }

  lemma PeripheralDefinitionText(p: PeripheralDefinition)
    requires p.Valid() && AllRenderable(PrintPeripheral(p))
    ensures ParsePeripheralDefinition(Render(PrintPeripheral(p))) == Some(p)
  {
    PeripheralRoundTrip(p, []);
    NoTail(PrintPeripheral(p));
    ParseRendered(PeripheralRule, PrintPeripheral(p), p);
  }

  lemma DeviceDefinitionText(d: DeviceDefinition)
    requires d.Valid() && AllRenderable(PrintDevice(d))
    ensures ParseDeviceDefinition(Render(PrintDevice(d))) == Some(d)
  {
    DeviceRoundTrip(d, []);
    NoTail(PrintDevice(d));
    ParseRendered(DeviceRule, PrintDevice(d), d);
  }

  lemma ItemText(item: Item)
    requires ValidItem(item) && AllRenderable(PrintItem(item))
    ensures ParseItem(Render(PrintItem(item))) == Some(item)
  {
    ItemRoundTrip(item, []);
    NoTail(PrintItem(item));
    ParseRendered(ItemRule, PrintItem(item), item);
  }

  lemma ContentText(items: seq<Item>)
    requires ValidItems(items) && AllRenderable(PrintItems(items))
    ensures ParseContent(Render(PrintItems(items))) == Some(items)
  {
    ItemsRoundTrip(items, []);
    NoTail(PrintItems(items));
    ParseRendered(ItemsRule, PrintItems(items), items);
  }
}
