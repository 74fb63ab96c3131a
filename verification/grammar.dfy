/** The racr grammar as recursive-descent rules over tokens. Every rule takes
    the remaining tokens and returns the node it read together with the tokens
    after it, or None when the tokens do not start that construct. Some rules
    (an optional attribute, access or reset value, a list) may read nothing;
    the mutual recursion of modules and items terminates because a module and
    an item each consume at least one token, as their contracts state, and
    every recursive call is on a strictly shorter input or on the same input
    at a lower rank of the `decreases` clause. */
module Grammar {
  import opened Options
  import opened Tokens
  import opened Ast
  import opened Printer

  /** A node read from the front of the input, and the input after it. */
  datatype Parsed<+T> = Parsed(node: T, rest: seq<Token>)

  /** The token `t`, if it comes first. */
  function Expect(ts: seq<Token>, t: Token): (r: Option<seq<Token>>)
    ensures r.Some? <==> ts != [] && ts[0] == t
    ensures r.Some? ==> r.value == ts[1..]
  {
    if ts != [] && ts[0] == t then Some(ts[1..]) else None
  }

  function IdentRule(ts: seq<Token>): (r: Option<Parsed<string>>)
    ensures r.Some? <==> ts != [] && ts[0].Id?
    ensures r.Some? ==> r.value == Parsed(ts[0].name, ts[1..])
  {
    if ts != [] && ts[0].Id? then Some(Parsed(ts[0].name, ts[1..])) else None
  }

  function NumRule(ts: seq<Token>): (r: Option<Parsed<nat>>)
    ensures r.Some? <==> ts != [] && ts[0].Num?
    ensures r.Some? ==> r.value == Parsed(ts[0].value, ts[1..])
  {
    if ts != [] && ts[0].Num? then Some(Parsed(ts[0].value, ts[1..])) else None
  }

  /** Access ::= "ro" | "wo" | "rw" | "raw" */
  function AccessRule(ts: seq<Token>): (r: Option<Parsed<Access>>)
    ensures r.Some? <==> ts != [] && ts[0].Kw? && ts[0].keyword in {KwRo, KwWo, KwRw, KwRaw}
    ensures r.Some? ==> ts == PrintAccess(r.value.node) + r.value.rest
  {
    if ts == [] then None
    else
      match ts[0]
      case Kw(KwRo) => Some(Parsed(ReadOnly, ts[1..]))
      case Kw(KwWo) => Some(Parsed(WriteOnly, ts[1..]))
      case Kw(KwRw) => Some(Parsed(ReadWrite, ts[1..]))
      case Kw(KwRaw) => Some(Parsed(ReadAsWrite, ts[1..]))
      case _ => None
  }

  /** An access keyword if one comes first (a per-field override). */
  function OptAccessRule(ts: seq<Token>): (r: Parsed<Option<Access>>)
    ensures ts == PrintOptAccess(r.node) + r.rest
  {
    match AccessRule(ts)
    case Some(a) => Parsed(Some(a.node), a.rest)
    case None => Parsed(None, ts)
  }

  /** Path ::= Ident ("::" Ident)* */
  function PathRule(ts: seq<Token>): (r: Option<Parsed<Path>>)
    ensures r.Some? ==> r.value.node.Valid() && |r.value.rest| < |ts|
    ensures r.Some? ==> r.value.rest == [] || r.value.rest[0] != PathSep
  {
    var first :- IdentRule(ts);
    var more :- PathTail(first.rest);
    var segments := [first.node] + more.node;
    Some(Parsed(Path.Path(segments), more.rest))
  }

  /** ("::" Ident)*, read for as long as a `::` follows. */
  function PathTail(ts: seq<Token>): (r: Option<Parsed<seq<string>>>)
    ensures r.Some? ==> |r.value.rest| <= |ts|
    ensures r.Some? ==> r.value.rest == [] || r.value.rest[0] != PathSep
    decreases |ts|
  {
    if ts != [] && ts[0] == PathSep then
      var segment :- IdentRule(ts[1..]);
      var more :- PathTail(segment.rest);
      Some(Parsed([segment.node] + more.node, more.rest))
    else
      Some(Parsed([], ts))
  }

  /** UseTree ::= Ident "::" UseTree | Ident "as" Ident | Ident */
  function UseTreeRule(ts: seq<Token>): (r: Option<Parsed<UseTree>>)
    ensures r.Some? ==> |r.value.rest| < |ts|
    decreases |ts|
  {
    var head :- IdentRule(ts);
    var after := head.rest;
    if after != [] && after[0] == PathSep then
      var sub :- UseTreeRule(after[1..]);
      Some(Parsed(UseTree.Path(head.node, sub.node), sub.rest))
    else if after != [] && after[0] == Kw(KwAs) then
      var alias :- IdentRule(after[1..]);
      Some(Parsed(Rename(head.node, alias.node), alias.rest))
    else
      Some(Parsed(Ident(head.node), after))
  }

  /** Use ::= "use" UseTree ";" */
  function UseRule(ts: seq<Token>): (r: Option<Parsed<Use>>)
    ensures r.Some? ==> |r.value.rest| < |ts|
  {
    var afterUse :- Expect(ts, Kw(KwUse));
    var tree :- UseTreeRule(afterUse);
    var close :- Expect(tree.rest, Semi);
    Some(Parsed(Use(tree.node), close))
  }

  /** Doc ::= "#" "[" "doc" "=" String "]", optional: at most one is read. */
  function DocRule(ts: seq<Token>): (r: Parsed<Option<string>>)
    ensures ts == PrintDoc(r.node) + r.rest
  {
    if && |ts| >= 6
       && ts[0] == Hash && ts[1] == LBracket && ts[2] == Id("doc") && ts[3] == Eq
       && ts[4].Str? && ts[5] == RBracket
    then Parsed(Some(ts[4].text), ts[6..])
    else Parsed(None, ts)
  }

  /** BitRange ::= Int | Int ".." Int, where a bare `N` stands for `N..N+1`
      and an explicit range must not be empty. */
  function BitRangeRule(ts: seq<Token>): (r: Option<Parsed<BitRange>>)
    ensures r.Some? ==> r.value.node.Valid() && |r.value.rest| < |ts|
  {
    var low :- NumRule(ts);
    if low.rest != [] && low.rest[0] == DotDot then
      var high :- NumRule(low.rest[1..]);
      if low.node < high.node then Some(Parsed(BitRange(low.node, high.node), high.rest)) else None
    else
      Some(Parsed(BitRange(low.node, low.node + 1), low.rest))
  }

  /** "[" BitRange "]" */
  function BitsRule(ts: seq<Token>): (r: Option<Parsed<BitRange>>)
    ensures r.Some? ==> r.value.node.Valid() && |r.value.rest| < |ts|
  {
    var open :- Expect(ts, LBracket);
    var range :- BitRangeRule(open);
    var close :- Expect(range.rest, RBracket);
    Some(Parsed(range.node, close))
  }

  /** FieldVariant ::= Doc? Ident "=" Int */
  function VariantRule(ts: seq<Token>): (r: Option<Parsed<FieldVariant>>)
    ensures r.Some? ==> |r.value.rest| < |ts|
  {
    var doc := DocRule(ts);
    var name :- IdentRule(doc.rest);
    var eq :- Expect(name.rest, Eq);
    var value :- NumRule(eq);
    Some(Parsed(FieldVariant(name.node, value.node, doc.node), value.rest))
  }

  /** Enumeration variants carry no shape constraint of their own. */
  predicate AnyVariant(v: FieldVariant) {
    true
  }

  /** FieldEntry ::= Doc? Access? FieldBody */
  function FieldRule(ts: seq<Token>): (r: Option<Parsed<FieldInstance>>)
    ensures r.Some? ==> ValidField(r.value.node) && |r.value.rest| < |ts|
  {
    var doc := DocRule(ts);
    var access := OptAccessRule(doc.rest);
    var body :- FieldBodyRule(access.rest);
    var (ty, bits) := body.node;
    Some(Parsed(FieldInstance(ty, doc.node, bits, access.node), body.rest))
  }

  /** FieldBody ::= "field" "[" BitRange "]" Ident
                  | "enum" "[" BitRange "]" Ident "{" (FieldVariant ",")* FieldVariant? "}"
                  | "reserved" "[" BitRange "]" "=" Int */
  function FieldBodyRule(ts: seq<Token>): (r: Option<Parsed<(FieldType, BitRange)>>)
    ensures r.Some? ==> r.value.node.1.Valid() && |r.value.rest| < |ts|
  {
    if ts == [] then None
    else if ts[0] == Kw(KwField) then
      var bits :- BitsRule(ts[1..]);
      var name :- IdentRule(bits.rest);
      Some(Parsed((Field(name.node), bits.node), name.rest))
    else if ts[0] == Kw(KwEnum) then
      var bits :- BitsRule(ts[1..]);
      var name :- IdentRule(bits.rest);
      var variants :- BracedList(VariantRule, AnyVariant, name.rest);
      Some(Parsed((Enum(name.node, variants.node), bits.node), variants.rest))
    else if ts[0] == Kw(KwReserved) then
      var bits :- BitsRule(ts[1..]);
      var eq :- Expect(bits.rest, Eq);
      var value :- NumRule(eq);
      Some(Parsed((Reserved(value.node), bits.node), value.rest))
    else
      None
  }

  /** (Entry ",")* Entry? -- entries separated by commas, a trailing comma
      allowed, up to the closing brace. Every entry satisfies `inv`
      whenever the entry rule guarantees it. */
  function CommaList<T>(entry: seq<Token> -> Option<Parsed<T>>, inv: T -> bool, ts: seq<Token>)
    : (r: Option<Parsed<seq<T>>>)
    requires forall u :: entry(u).Some? ==> |entry(u).value.rest| < |u| && inv(entry(u).value.node)
    ensures r.Some? ==> |r.value.rest| <= |ts|
    ensures r.Some? ==> forall i :: 0 <= i < |r.value.node| ==> inv(r.value.node[i])
    decreases |ts|
  {
    if ts != [] && ts[0] == RBrace then
      Some(Parsed([], ts))
    else
      var first :- entry(ts);
      if first.rest != [] && first.rest[0] == Comma then
        var more :- CommaList(entry, inv, first.rest[1..]);
        Some(Parsed([first.node] + more.node, more.rest))
      else
        Some(Parsed([first.node], first.rest))
  }

  /** "{" (Entry ",")* Entry? "}" */
  function BracedList<T>(entry: seq<Token> -> Option<Parsed<T>>, inv: T -> bool, ts: seq<Token>)
    : (r: Option<Parsed<seq<T>>>)
    requires forall u :: entry(u).Some? ==> |entry(u).value.rest| < |u| && inv(entry(u).value.node)
    ensures r.Some? ==> |r.value.rest| + 2 <= |ts|
    ensures r.Some? ==> forall i :: 0 <= i < |r.value.node| ==> inv(r.value.node[i])
  {
    var open :- Expect(ts, LBrace);
    var entries :- CommaList(entry, inv, open);
    var close :- Expect(entries.rest, RBrace);
    Some(Parsed(entries.node, close))
  }

  /** "=" Int, optional */
  function ResetRule(ts: seq<Token>): (r: Option<Parsed<Option<nat>>>)
    ensures r.Some? ==> |r.value.rest| <= |ts|
    ensures r.Some? ==> ts == PrintReset(r.value.node) + r.value.rest
    ensures r.Some? && r.value.node.None? ==> ts == [] || ts[0] != Eq
    ensures r.None? ==> ts != [] && ts[0] == Eq
  {
    if ts != [] && ts[0] == Eq then
      var value :- NumRule(ts[1..]);
      Some(Parsed(Some(value.node), value.rest))
    else
      Some(Parsed(None, ts))
  }

  /** RegisterDef ::= Doc? Access "register" "[" Int "]" Ident ("=" Int)?
                      "{" (FieldEntry ",")* FieldEntry? "}" */
  function RegisterRule(ts: seq<Token>): (r: Option<Parsed<RegisterDefinition>>)
    ensures r.Some? ==> r.value.node.Valid() && |r.value.rest| < |ts|
  {
    var doc := DocRule(ts);
    var access :- AccessRule(doc.rest);
    var head :- RegisterHeadRule(access.rest);
    var (size, name) := head.node;
    var reset :- ResetRule(head.rest);
    var fields :- BracedList(FieldRule, ValidField, reset.rest);
    Some(Parsed(RegisterDefinition(access.node, name, doc.node, size, reset.node, fields.node), fields.rest))
  }

  /** "register" "[" Int "]" Ident: the size in bits and the name */
  function RegisterHeadRule(ts: seq<Token>): (r: Option<Parsed<(nat, string)>>)
    ensures r.Some? <==> |ts| >= 5 && ts[0] == Kw(KwRegister) && ts[1] == LBracket
                         && ts[2].Num? && ts[3] == RBracket && ts[4].Id?
    ensures r.Some? ==> r.value == Parsed((ts[2].value, ts[4].name), ts[5..])
  {
    var afterKw :- Expect(ts, Kw(KwRegister));
    var open :- Expect(afterKw, LBracket);
    var size :- NumRule(open);
    var close :- Expect(size.rest, RBracket);
    var name :- IdentRule(close);
    Some(Parsed((size.node, name.node), name.rest))
  }

  /** RegisterType ::= Path | "[" Path ";" Int "]" */
  function RegisterTypeRule(ts: seq<Token>): (r: Option<Parsed<RegisterType>>)
    ensures r.Some? ==> r.value.node.path.Valid() && |r.value.rest| < |ts|
  {
    if ts != [] && ts[0] == LBracket then
      var path :- PathRule(ts[1..]);
      var semi :- Expect(path.rest, Semi);
      var size :- NumRule(semi);
      var close :- Expect(size.rest, RBracket);
      Some(Parsed(RegisterType.Array(path.node, size.node), close))
    else
      var path :- PathRule(ts);
      Some(Parsed(RegisterType.Single(path.node), path.rest))
  }

  /** Ident ":" RegisterType */
  function InstanceRule(ts: seq<Token>): (r: Option<Parsed<RegisterInstance>>)
    ensures r.Some? ==> r.value.node.Valid() && |r.value.rest| < |ts|
  {
    var name :- IdentRule(ts);
    var colon :- Expect(name.rest, Colon);
    var ty :- RegisterTypeRule(colon);
    Some(Parsed(RegisterInstance(name.node, ty.node), ty.rest))
  }

  /** Ident ":" Path, one alternative of a union. */
  function AlternativeRule(ts: seq<Token>): (r: Option<Parsed<RegisterInstance>>)
    ensures r.Some? ==> r.value.node.ValidAlternative() && |r.value.rest| < |ts|
  {
    var name :- IdentRule(ts);
    var colon :- Expect(name.rest, Colon);
    var path :- PathRule(colon);
    Some(Parsed(RegisterInstance(name.node, RegisterType.Single(path.node)), path.rest))
  }

  /** Ident ":" Path ("|" Ident ":" Path)* */
  function AlternativesRule(ts: seq<Token>): (r: Option<Parsed<seq<RegisterInstance>>>)
    ensures r.Some? ==> |r.value.node| > 0 && |r.value.rest| < |ts|
    ensures r.Some? ==> forall i :: 0 <= i < |r.value.node| ==> r.value.node[i].ValidAlternative()
    decreases |ts|
  {
    var first :- AlternativeRule(ts);
    if first.rest != [] && first.rest[0] == Pipe then
      var more :- AlternativesRule(first.rest[1..]);
      Some(Parsed([first.node] + more.node, more.rest))
    else
      Some(Parsed([first.node], first.rest))
  }

  /** "(" Ident ":" Path ("|" Ident ":" Path)+ ")" "@" Int */
  function UnionRule(ts: seq<Token>): (r: Option<Parsed<RegisterSlot>>)
    ensures r.Some? ==> r.value.node.Union? && r.value.node.Valid() && |r.value.rest| < |ts|
  {
    var open :- Expect(ts, LParen);
    var alternatives :- AlternativesRule(open);
    if |alternatives.node| < 2 then None
    else
      var close :- Expect(alternatives.rest, RParen);
      var at :- Expect(close, At);
      var offset :- NumRule(at);
      Some(Parsed(Union(alternatives.node, offset.node), offset.rest))
  }

  /** Slot ::= Ident ":" RegisterType "@" Int | a union */
  function SlotRule(ts: seq<Token>): (r: Option<Parsed<RegisterSlot>>)
    ensures r.Some? ==> ValidSlot(r.value.node) && |r.value.rest| < |ts|
  {
    if ts != [] && ts[0] == LParen then
      UnionRule(ts)
    else
      var instance :- InstanceRule(ts);
      var at :- Expect(instance.rest, At);
      var offset :- NumRule(at);
      Some(Parsed(RegisterSlot.Single(instance.node, offset.node), offset.rest))
  }

  /** PeripheralDef ::= Doc? "peripheral" Ident "{" (Slot ",")* Slot? "}" */
  function PeripheralRule(ts: seq<Token>): (r: Option<Parsed<PeripheralDefinition>>)
    ensures r.Some? ==> r.value.node.Valid() && |r.value.rest| < |ts|
  {
    var doc := DocRule(ts);
    var afterKw :- Expect(doc.rest, Kw(KwPeripheral));
    var name :- IdentRule(afterKw);
    var slots :- BracedList(SlotRule, ValidSlot, name.rest);
    Some(Parsed(PeripheralDefinition(name.node, doc.node, slots.node), slots.rest))
  }

  /** DeviceEntry ::= Ident ":" Path "@" Int */
  function PeripheralInstanceRule(ts: seq<Token>): (r: Option<Parsed<PeripheralInstance>>)
    ensures r.Some? ==> ValidPeripheralInstance(r.value.node) && |r.value.rest| < |ts|
  {
    var name :- IdentRule(ts);
    var colon :- Expect(name.rest, Colon);
    var path :- PathRule(colon);
    var at :- Expect(path.rest, At);
    var address :- NumRule(at);
    Some(Parsed(PeripheralInstance(name.node, path.node, address.node), address.rest))
  }

  /** DeviceDef ::= Doc? "device" Ident "{" (DeviceEntry ",")* DeviceEntry? "}" */
  function DeviceRule(ts: seq<Token>): (r: Option<Parsed<DeviceDefinition>>)
    ensures r.Some? ==> r.value.node.Valid() && |r.value.rest| < |ts|
  {
    var doc := DocRule(ts);
    var afterKw :- Expect(doc.rest, Kw(KwDevice));
    var name :- IdentRule(afterKw);
    var entries :- BracedList(PeripheralInstanceRule, ValidPeripheralInstance, name.rest);
    Some(Parsed(DeviceDefinition(name.node, doc.node, entries.node), entries.rest))
  }

  /** Module ::= Doc? "mod" Ident (";" | "{" Item* "}"). A module has no
      documentation of its own, so an attribute in front of it is read and
      dropped. */
  function ModuleRule(ts: seq<Token>): (r: Option<Parsed<Module>>)
    ensures r.Some? ==> ValidModule(r.value.node) && |r.value.rest| < |ts|
    decreases |ts|, 1
  {
    ModuleBodyRule(DocRule(ts).rest)
  }

  /** "mod" Ident (";" | "{" Item* "}"): a module after its attribute. */
  function ModuleBodyRule(ts: seq<Token>): (r: Option<Parsed<Module>>)
    ensures r.Some? ==> ValidModule(r.value.node) && |r.value.rest| < |ts|
    decreases |ts|, 0
  {
    var afterKw :- Expect(ts, Kw(KwMod));
    var name :- IdentRule(afterKw);
    if name.rest != [] && name.rest[0] == Semi then
      Some(Parsed(Module(name.node, Declared), name.rest[1..]))
    else
      var open :- Expect(name.rest, LBrace);
      var items :- ItemsRule(open);
      var close :- Expect(items.rest, RBrace);
      Some(Parsed(Module(name.node, Inline(items.node)), close))
  }

  /** Item ::= Module | Use | RegisterDef | PeripheralDef | DeviceDef,
      chosen by the keyword after an optional documentation attribute. */
  function ItemRule(ts: seq<Token>): (r: Option<Parsed<Item>>)
    ensures r.Some? ==> ValidItem(r.value.node) && |r.value.rest| < |ts|
    decreases |ts|, 2
  {
    var head := DocRule(ts).rest;
    if head == [] then None
    else if head[0] == Kw(KwMod) then
      var m :- ModuleRule(ts);
      Some(Parsed(ModuleItem(m.node), m.rest))
    else if head[0] == Kw(KwUse) then
      var u :- UseRule(ts);
      Some(Parsed(UseItem(u.node), u.rest))
    else if head[0] == Kw(KwPeripheral) then
      var p :- PeripheralRule(ts);
      Some(Parsed(PeripheralItem(p.node), p.rest))
    else if head[0] == Kw(KwDevice) then
      var d :- DeviceRule(ts);
      Some(Parsed(DeviceItem(d.node), d.rest))
    else
      var reg :- RegisterRule(ts);
      Some(Parsed(RegisterItem(reg.node), reg.rest))
  }

  /** Item*, up to a closing brace or the end of the input. */
  function ItemsRule(ts: seq<Token>): (r: Option<Parsed<seq<Item>>>)
    ensures r.Some? ==> |r.value.rest| <= |ts|
    ensures r.Some? ==> r.value.rest == [] || r.value.rest[0] == RBrace
    ensures r.Some? ==> ValidItems(r.value.node)
    decreases |ts|, 3
  {
    if ts == [] || ts[0] == RBrace then
      Some(Parsed([], ts))
    else
      var first :- ItemRule(ts);
      var more :- ItemsRule(first.rest);
      Some(Parsed([first.node] + more.node, more.rest))
  }
}
