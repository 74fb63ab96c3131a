/** The canonical token spelling of each syntax tree node: the partner
    against which the grammar rules are stated. A parsed node prints back to
    tokens the grammar reads as that same node; lists are printed with a
    comma after every entry and bit ranges in their shortest form. */
module Printer {
  import opened Options
  import opened Tokens
  import opened Ast

  /** `ro`, `wo`, `rw`, `raw`. */
  function AccessKeyword(a: Access): Keyword {
    match a
    case ReadOnly => KwRo
    case WriteOnly => KwWo
    case ReadWrite => KwRw
    case ReadAsWrite => KwRaw
  }

  function PrintAccess(a: Access): seq<Token> {
    [Kw(AccessKeyword(a))]
  }

  function PrintOptAccess(a: Option<Access>): seq<Token> {
    match a
    case None => []
    case Some(x) => PrintAccess(x)
  }

  /** `foo::bar::baz` */
  function PrintSegments(segments: seq<string>): seq<Token>
    decreases |segments|
  {
    if segments == [] then []
    else if |segments| == 1 then [Id(segments[0])]
    else [Id(segments[0]), PathSep] + PrintSegments(segments[1..])
  }

  /** The spelling of the segments that follow a first one: `::b::c`. */
  function MoreSegments(segments: seq<string>): seq<Token> {
    if segments == [] then [] else [PathSep] + PrintSegments(segments)
  }

  function PrintPath(p: Path): seq<Token> {
    PrintSegments(p.segments)
  }

  function PrintUseTree(t: UseTree): seq<Token> {
    match t
    case Ident(name) => [Id(name)]
    case Path(segment, sub_tree) => [Id(segment), PathSep] + PrintUseTree(sub_tree)
    case Rename(ident, rename) => [Id(ident), Kw(KwAs), Id(rename)]
  }

  function PrintUse(u: Use): seq<Token> {
    [Kw(KwUse)] + PrintUseTree(u.tree) + [Semi]
  }

  /** `#[doc = "..."]` */
  function PrintDoc(doc: Option<string>): seq<Token> {
    match doc
    case None => []
    case Some(text) => [Hash, LBracket, Id("doc"), Eq, Str(text), RBracket]
  }

  /** `N` for the one-bit range `N..N+1`, `N..M` otherwise. */
  function PrintBitRange(b: BitRange): seq<Token> {
    if b.end == b.start + 1 then [Num(b.start)] else [Num(b.start), DotDot, Num(b.end)]
  }

  /** Every entry followed by a comma, so the last comma is a trailing one. */
  function PrintList<T>(spell: T -> seq<Token>, xs: seq<T>): seq<Token>
    decreases |xs|
  {
    if xs == [] then [] else spell(xs[0]) + [Comma] + PrintList(spell, xs[1..])
  }

  function Braced(ts: seq<Token>): seq<Token> {
    [LBrace] + ts + [RBrace]
  }

  function PrintVariant(v: FieldVariant): seq<Token> {
    PrintDoc(v.documentation) + [Id(v.ident), Eq, Num(v.value)]
  }

  /** `[` BitRange `]` */
  function PrintBits(range: BitRange): seq<Token> {
    [LBracket] + PrintBitRange(range) + [RBracket]
  }

  function PrintFieldBody(ty: FieldType, range: BitRange): seq<Token> {
    var bits := PrintBits(range);
    match ty
    case Field(ident) => [Kw(KwField)] + bits + [Id(ident)]
    case Enum(ident, variants) =>
      [Kw(KwEnum)] + bits + [Id(ident)] + Braced(PrintList(PrintVariant, variants))
    case Reserved(value) => [Kw(KwReserved)] + bits + [Eq, Num(value)]
  }

  function PrintField(f: FieldInstance): seq<Token> {
    PrintDoc(f.documentation) + PrintOptAccess(f.access) + PrintFieldBody(f.ty, f.bit_range)
  }

  function PrintReset(reset: Option<nat>): seq<Token> {
    match reset
    case None => []
    case Some(v) => [Eq, Num(v)]
  }

  function PrintRegisterHead(r: RegisterDefinition): seq<Token> {
    PrintDoc(r.documentation) + PrintAccess(r.access)
    + [Kw(KwRegister), LBracket, Num(r.size), RBracket, Id(r.ident)]
    + PrintReset(r.reset_value)
  }

  function PrintRegister(r: RegisterDefinition): seq<Token> {
    PrintRegisterHead(r) + Braced(PrintList(PrintField, r.fields))
  }

  function PrintRegisterType(t: RegisterType): seq<Token> {
    match t
    case Single(path) => PrintPath(path)
    case Array(path, size) => [LBracket] + PrintPath(path) + [Semi, Num(size), RBracket]
  }

  function PrintInstance(i: RegisterInstance): seq<Token> {
    [Id(i.ident), Colon] + PrintRegisterType(i.ty)
  }

  /** `a: P | b: Q | ...` */
  function PrintAlternatives(alternatives: seq<RegisterInstance>): seq<Token>
    decreases |alternatives|
  {
    if alternatives == [] then []
    else if |alternatives| == 1 then PrintInstance(alternatives[0])
    else PrintInstance(alternatives[0]) + [Pipe] + PrintAlternatives(alternatives[1..])
  }

  function PrintSlot(s: RegisterSlot): seq<Token> {
    match s
    case Single(instance, offset) => PrintInstance(instance) + [At, Num(offset)]
    case Union(alternatives, offset) =>
      [LParen] + PrintAlternatives(alternatives) + [RParen, At, Num(offset)]
  }

  function PrintPeripheral(p: PeripheralDefinition): seq<Token> {
    PrintDoc(p.documentation) + [Kw(KwPeripheral), Id(p.ident)]
    + Braced(PrintList(PrintSlot, p.registers))
  }

  function PrintPeripheralInstance(i: PeripheralInstance): seq<Token> {
    [Id(i.ident), Colon] + PrintPath(i.path) + [At, Num(i.address)]
  }

  function PrintDevice(d: DeviceDefinition): seq<Token> {
    PrintDoc(d.documentation) + [Kw(KwDevice), Id(d.ident)]
    + Braced(PrintList(PrintPeripheralInstance, d.peripherals))
  }

  function PrintModule(m: Module): seq<Token>
    decreases m
  {
    [Kw(KwMod), Id(m.ident)]
    + match m.content
      case Declared => [Semi]
      case Inline(items) => Braced(PrintItems(items))
  }

  function PrintItem(item: Item): seq<Token>
    decreases item
  {
    match item
    case ModuleItem(m) => PrintModule(m)
    case UseItem(u) => PrintUse(u)
    case RegisterItem(r) => PrintRegister(r)
    case PeripheralItem(p) => PrintPeripheral(p)
    case DeviceItem(d) => PrintDevice(d)
  }

  function PrintItems(items: seq<Item>): seq<Token>
    decreases items
  {
    if items == [] then [] else PrintItem(items[0]) + PrintItems(items[1..])
  }
}
