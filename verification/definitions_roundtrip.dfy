/** Round trips for register, peripheral and device definitions: every
    valid definition, printed, reads back as itself, with its fields,
    variants, slots and peripheral instances in source order. */
module DefinitionRoundTrip {
  import opened Options
  import opened Tokens
  import opened Ast
  import opened Printer
  import opened Grammar
  import opened RoundTrip
  import opened Seqs

  /** ---- Registers ---- */

  lemma VariantRoundTrip(v: FieldVariant, tail: seq<Token>)
    ensures VariantRule(PrintVariant(v) + tail) == Some(Parsed(v, tail))
  {
    var rest := [Id(v.ident), Eq, Num(v.value)] + tail;
    Assoc(PrintDoc(v.documentation), [Id(v.ident), Eq, Num(v.value)], tail);
    DocRoundTrip(v.documentation, rest);
    VariantSteps(PrintVariant(v) + tail, v, tail);
  }

  /** VariantRule once the documentation has been read. */
  lemma VariantSteps(ts: seq<Token>, v: FieldVariant, tail: seq<Token>)
    requires DocRule(ts) == Parsed(v.documentation, [Id(v.ident), Eq, Num(v.value)] + tail)
    ensures VariantRule(ts) == Some(Parsed(v, tail))
  {
    Drop3(Id(v.ident), Eq, Num(v.value), tail);
  }

  lemma VariantsRoundTrip(variants: seq<FieldVariant>, tail: seq<Token>)
    ensures BracedList(VariantRule, AnyVariant, Braced(PrintList(PrintVariant, variants)) + tail)
         == Some(Parsed(variants, tail))
  {
    forall x, t | x in variants
      ensures VariantRule(PrintVariant(x) + t) == Some(Parsed(x, t))
    {
      VariantRoundTrip(x, t);
    }
    BracedListRoundTrip(VariantRule, AnyVariant, PrintVariant, variants, tail);
  }

  lemma ConsDrop(t: Token, rest: seq<Token>)
    ensures ([t] + rest)[1..] == rest
  {
  }

  lemma FieldSpelled(ident: string, range: BitRange, tail: seq<Token>)
    ensures PrintFieldBody(Field(ident), range) + tail
         == [Kw(KwField)] + (PrintBits(range) + ([Id(ident)] + tail))
  {
  }

  lemma EnumSpelled(ident: string, variants: seq<FieldVariant>, range: BitRange, tail: seq<Token>)
    ensures PrintFieldBody(Enum(ident, variants), range) + tail
         == [Kw(KwEnum)] + (PrintBits(range) + ([Id(ident)] + (Braced(PrintList(PrintVariant, variants)) + tail)))
  {
  }

  lemma ReservedSpelled(value: nat, range: BitRange, tail: seq<Token>)
    ensures PrintFieldBody(Reserved(value), range) + tail
         == [Kw(KwReserved)] + (PrintBits(range) + ([Eq, Num(value)] + tail))
  {
  }

  lemma FieldCaseRoundTrip(ident: string, range: BitRange, tail: seq<Token>)
    requires range.Valid()
    ensures FieldBodyRule([Kw(KwField)] + (PrintBits(range) + ([Id(ident)] + tail)))
         == Some(Parsed((Field(ident), range), tail))
  {
    var ts := [Kw(KwField)] + (PrintBits(range) + ([Id(ident)] + tail));
    ConsDrop(Kw(KwField), PrintBits(range) + ([Id(ident)] + tail));
    BitsRoundTrip(range, [Id(ident)] + tail);
    ConsDrop(Id(ident), tail);
    assert ts[0] == Kw(KwField);
    assert IdentRule([Id(ident)] + tail) == Some(Parsed(ident, tail));
  }

  lemma EnumCaseRoundTrip(ident: string, variants: seq<FieldVariant>, range: BitRange, tail: seq<Token>)
    requires range.Valid()
    ensures FieldBodyRule([Kw(KwEnum)] + (PrintBits(range) + ([Id(ident)] + (Braced(PrintList(PrintVariant, variants)) + tail))))
         == Some(Parsed((Enum(ident, variants), range), tail))
  {
    var list := Braced(PrintList(PrintVariant, variants)) + tail;
    var ts := [Kw(KwEnum)] + (PrintBits(range) + ([Id(ident)] + list));
    ConsDrop(Kw(KwEnum), PrintBits(range) + ([Id(ident)] + list));
    BitsRoundTrip(range, [Id(ident)] + list);
    ConsDrop(Id(ident), list);
    VariantsRoundTrip(variants, tail);
    assert ts[0] == Kw(KwEnum) && ts[0] != Kw(KwField);
    assert IdentRule([Id(ident)] + list) == Some(Parsed(ident, list));
  }

  lemma ReservedCaseRoundTrip(value: nat, range: BitRange, tail: seq<Token>)
    requires range.Valid()
    ensures FieldBodyRule([Kw(KwReserved)] + (PrintBits(range) + ([Eq, Num(value)] + tail)))
         == Some(Parsed((Reserved(value), range), tail))
  {
    var ts := [Kw(KwReserved)] + (PrintBits(range) + ([Eq, Num(value)] + tail));
    ConsDrop(Kw(KwReserved), PrintBits(range) + ([Eq, Num(value)] + tail));
    BitsRoundTrip(range, [Eq, Num(value)] + tail);
    Drop2(Eq, Num(value), tail);
    assert ts[0] == Kw(KwReserved) && ts[0] != Kw(KwField) && ts[0] != Kw(KwEnum);
    assert Expect([Eq, Num(value)] + tail, Eq) == Some([Num(value)] + tail);
    assert NumRule([Num(value)] + tail) == Some(Parsed(value, tail));
  }

  lemma FieldBodyRoundTrip(ty: FieldType, range: BitRange, tail: seq<Token>)
    requires range.Valid()
    ensures FieldBodyRule(PrintFieldBody(ty, range) + tail) == Some(Parsed((ty, range), tail))
  {
    match ty
    case Field(ident) =>
      FieldSpelled(ident, range, tail);
      FieldCaseRoundTrip(ident, range, tail);
    case Enum(ident, variants) =>
      EnumSpelled(ident, variants, range, tail);
      EnumCaseRoundTrip(ident, variants, range, tail);
    case Reserved(value) =>
      ReservedSpelled(value, range, tail);
      ReservedCaseRoundTrip(value, range, tail);
  }

  lemma FieldRoundTrip(f: FieldInstance, tail: seq<Token>)
    requires ValidField(f)
    ensures FieldRule(PrintField(f) + tail) == Some(Parsed(f, tail))
  {
    var body := PrintFieldBody(f.ty, f.bit_range) + tail;
    var afterDoc := PrintOptAccess(f.access) + body;
    assert PrintField(f) + tail == PrintDoc(f.documentation) + afterDoc;
    assert body[0].Kw? && body[0].keyword in {KwField, KwEnum, KwReserved};
    DocRoundTrip(f.documentation, afterDoc);
    OptAccessRoundTrip(f.access, body);
    FieldBodyRoundTrip(f.ty, f.bit_range, tail);
  }

  lemma FieldsRoundTrip(fields: seq<FieldInstance>, tail: seq<Token>)
    requires forall i :: 0 <= i < |fields| ==> ValidField(fields[i])
    ensures BracedList(FieldRule, ValidField, Braced(PrintList(PrintField, fields)) + tail)
         == Some(Parsed(fields, tail))
  {
    forall x, t | x in fields
      ensures FieldRule(PrintField(x) + t) == Some(Parsed(x, t))
    {
      FieldRoundTrip(x, t);
    }
    forall x | x in fields
      ensures PrintField(x) != [] && PrintField(x)[0] != RBrace
    {
      FieldStart(x);
    }
    BracedListRoundTrip(FieldRule, ValidField, PrintField, fields, tail);
  }

  /** A printed field is never empty and never starts with the closing brace. */
  lemma FieldStart(f: FieldInstance)
    ensures PrintField(f) != [] && PrintField(f)[0] != RBrace
  {
    var body := PrintFieldBody(f.ty, f.bit_range);
    assert PrintField(f) == PrintDoc(f.documentation) + (PrintOptAccess(f.access) + body);
  }

  lemma ResetRoundTrip(reset: Option<nat>, rest: seq<Token>)
    requires rest == [] || rest[0] != Eq
    ensures ResetRule(PrintReset(reset) + rest) == Some(Parsed(reset, rest))
  {
    if reset.Some? {
      assert (PrintReset(reset) + rest)[1..][1..] == rest;
    } else {
      assert PrintReset(reset) + rest == rest;
    }
  }

  /** A register definition reads back whole: access, name, size, reset
      value, documentation and its fields in source order. */
  lemma RegisterRoundTrip(r: RegisterDefinition, tail: seq<Token>)
    requires r.Valid()
    ensures RegisterRule(PrintRegister(r) + tail) == Some(Parsed(r, tail))
  {
    var fields := Braced(PrintList(PrintField, r.fields)) + tail;
    var afterName := PrintReset(r.reset_value) + fields;
    var afterAccess := [Kw(KwRegister), LBracket, Num(r.size), RBracket, Id(r.ident)] + afterName;
    var afterDoc := PrintAccess(r.access) + afterAccess;
    RegisterSpelled(r, tail, fields, afterName, afterAccess, afterDoc);
    DocRoundTrip(r.documentation, afterDoc);
    AccessRoundTrip(r.access, afterAccess);
    RegisterHeadRoundTrip(r.size, r.ident, afterName);
    ResetRoundTrip(r.reset_value, fields);
    FieldsRoundTrip(r.fields, tail);
    RegisterSteps(PrintRegister(r) + tail, r, afterDoc, afterAccess, afterName, fields, tail);
  }

  lemma RegisterHeadRoundTrip(size: nat, ident: string, rest: seq<Token>)
    ensures RegisterHeadRule([Kw(KwRegister), LBracket, Num(size), RBracket, Id(ident)] + rest)
         == Some(Parsed((size, ident), rest))
  {
    assert ([Kw(KwRegister), LBracket, Num(size), RBracket, Id(ident)] + rest)[5..] == rest;
  }

  /** RegisterRule succeeds once each of its parts has. */
  lemma RegisterSteps(
    ts: seq<Token>, r: RegisterDefinition,
    afterDoc: seq<Token>, afterAccess: seq<Token>, afterName: seq<Token>, fields: seq<Token>, tail: seq<Token>)
    requires DocRule(ts) == Parsed(r.documentation, afterDoc)
    requires AccessRule(afterDoc) == Some(Parsed(r.access, afterAccess))
    requires RegisterHeadRule(afterAccess) == Some(Parsed((r.size, r.ident), afterName))
    requires ResetRule(afterName) == Some(Parsed(r.reset_value, fields))
    requires BracedList(FieldRule, ValidField, fields) == Some(Parsed(r.fields, tail))
    ensures RegisterRule(ts) == Some(Parsed(r, tail))
  {
  }

  lemma RegisterSpelled(
    r: RegisterDefinition, tail: seq<Token>,
    fields: seq<Token>, afterName: seq<Token>, afterAccess: seq<Token>, afterDoc: seq<Token>)
    requires fields == Braced(PrintList(PrintField, r.fields)) + tail
    requires afterName == PrintReset(r.reset_value) + fields
    requires afterAccess == [Kw(KwRegister), LBracket, Num(r.size), RBracket, Id(r.ident)] + afterName
    requires afterDoc == PrintAccess(r.access) + afterAccess
    ensures PrintRegister(r) + tail == PrintDoc(r.documentation) + afterDoc
  {
  }

  /** ---- Peripherals ---- */

  lemma RegisterTypeSpelled(t: RegisterType, tail: seq<Token>)
    ensures t.Single? ==> PrintRegisterType(t) + tail == PrintPath(t.path) + tail
    ensures t.Array? ==>
      PrintRegisterType(t) + tail == [LBracket] + (PrintPath(t.path) + ([Semi, Num(t.size), RBracket] + tail))
  {
  }

  lemma RegisterTypeRoundTrip(t: RegisterType, tail: seq<Token>)
    requires t.path.Valid()
    requires tail == [] || tail[0] != PathSep
    ensures RegisterTypeRule(PrintRegisterType(t) + tail) == Some(Parsed(t, tail))
  {
    RegisterTypeSpelled(t, tail);
    match t
    case Single(path) =>
      PathRoundTrip(path, tail);
      SingleStart(path, tail);
    case Array(path, size) =>
      var after := [Semi, Num(size), RBracket] + tail;
      PathRoundTrip(path, after);
      ArraySteps(PrintPath(path) + after, path, size, tail);
  }

  /** A single register type does not start with the bracket of an array. */
  lemma SingleStart(path: Path, tail: seq<Token>)
    requires path.Valid()
    ensures PrintPath(path) + tail != [] && (PrintPath(path) + tail)[0] != LBracket
  {
    assert PrintPath(path)[0] == Id(path.segments[0]);
  }

  /** RegisterTypeRule on `[` once the path inside has been read. */
  lemma ArraySteps(inner: seq<Token>, path: Path, size: nat, tail: seq<Token>)
    requires PathRule(inner) == Some(Parsed(path, [Semi, Num(size), RBracket] + tail))
    ensures RegisterTypeRule([LBracket] + inner) == Some(Parsed(RegisterType.Array(path, size), tail))
  {
    ConsDrop(LBracket, inner);
    Drop3(Semi, Num(size), RBracket, tail);
  }

  lemma InstanceSpelled(i: RegisterInstance, tail: seq<Token>)
    ensures PrintInstance(i) + tail == [Id(i.ident), Colon] + (PrintRegisterType(i.ty) + tail)
  {
  }

  lemma InstanceRoundTrip(i: RegisterInstance, tail: seq<Token>)
    requires i.Valid()
    requires tail == [] || tail[0] != PathSep
    ensures InstanceRule(PrintInstance(i) + tail) == Some(Parsed(i, tail))
  {
    var after := PrintRegisterType(i.ty) + tail;
    InstanceSpelled(i, tail);
    assert ([Id(i.ident), Colon] + after)[1..][1..] == after;
    RegisterTypeRoundTrip(i.ty, tail);
  }

  lemma AlternativeRoundTrip(i: RegisterInstance, tail: seq<Token>)
    requires i.ValidAlternative()
    requires tail == [] || tail[0] != PathSep
    ensures AlternativeRule(PrintInstance(i) + tail) == Some(Parsed(i, tail))
  {
    var after := PrintPath(i.ty.path) + tail;
    InstanceSpelled(i, tail);
    assert ([Id(i.ident), Colon] + after)[1..][1..] == after;
    PathRoundTrip(i.ty.path, tail);
  }

  lemma AlternativesSpelled(alternatives: seq<RegisterInstance>, tail: seq<Token>)
    requires |alternatives| >= 2
    ensures PrintAlternatives(alternatives) + tail
         == PrintInstance(alternatives[0]) + ([Pipe] + (PrintAlternatives(alternatives[1..]) + tail))
  {
  }

  /** Union alternatives separated by `|` read back in order. */
  lemma {:induction false} AlternativesRoundTrip(alternatives: seq<RegisterInstance>, tail: seq<Token>)
    requires |alternatives| > 0
    requires forall i :: 0 <= i < |alternatives| ==> alternatives[i].ValidAlternative()
    requires tail == [] || (tail[0] != PathSep && tail[0] != Pipe)
    ensures AlternativesRule(PrintAlternatives(alternatives) + tail) == Some(Parsed(alternatives, tail))
    decreases |alternatives|
  {
    if |alternatives| == 1 {
      assert PrintAlternatives(alternatives) == PrintInstance(alternatives[0]);
      AlternativeRoundTrip(alternatives[0], tail);
      assert alternatives == [alternatives[0]];
    } else {
      var more := PrintAlternatives(alternatives[1..]) + tail;
      AlternativesSpelled(alternatives, tail);
      AlternativeRoundTrip(alternatives[0], [Pipe] + more);
      ConsDrop(Pipe, more);
      AlternativesRoundTrip(alternatives[1..], tail);
      assert alternatives == [alternatives[0]] + alternatives[1..];
    }
  }

  lemma SlotSpelled(s: RegisterSlot, tail: seq<Token>)
    ensures s.Single? ==> PrintSlot(s) + tail == PrintInstance(s.instance) + ([At, Num(s.offset)] + tail)
    ensures s.Single? ==> PrintSlot(s)[0] == Id(s.instance.ident)
    ensures s.Union? ==>
      PrintSlot(s) + tail == [LParen] + (PrintAlternatives(s.alternatives) + ([RParen, At, Num(s.offset)] + tail))
  {
  }

  lemma UnionRoundTrip(alternatives: seq<RegisterInstance>, offset: nat, tail: seq<Token>)
    requires Union(alternatives, offset).Valid()
    ensures SlotRule([LParen] + (PrintAlternatives(alternatives) + ([RParen, At, Num(offset)] + tail)))
         == Some(Parsed(Union(alternatives, offset), tail))
  {
    UnionRuleRoundTrip(alternatives, offset, tail);
  }

  lemma UnionRuleRoundTrip(alternatives: seq<RegisterInstance>, offset: nat, tail: seq<Token>)
    requires Union(alternatives, offset).Valid()
    ensures UnionRule([LParen] + (PrintAlternatives(alternatives) + ([RParen, At, Num(offset)] + tail)))
         == Some(Parsed(Union(alternatives, offset), tail))
  {
    var after := [RParen, At, Num(offset)] + tail;
    ConsDrop(LParen, PrintAlternatives(alternatives) + after);
    AlternativesRoundTrip(alternatives, after);
    UnionSteps([LParen] + (PrintAlternatives(alternatives) + after), alternatives, offset, tail);
  }

  /** UnionRule succeeds once its alternatives have been read. */
  lemma UnionSteps(ts: seq<Token>, alternatives: seq<RegisterInstance>, offset: nat, tail: seq<Token>)
    requires |alternatives| >= 2
    requires ts != [] && ts[0] == LParen
    requires AlternativesRule(ts[1..]) == Some(Parsed(alternatives, [RParen, At, Num(offset)] + tail))
    ensures UnionRule(ts) == Some(Parsed(Union(alternatives, offset), tail))
  {
    Drop3(RParen, At, Num(offset), tail);
    assert Expect([RParen, At, Num(offset)] + tail, RParen) == Some([At, Num(offset)] + tail);
    assert Expect([At, Num(offset)] + tail, At) == Some([Num(offset)] + tail);
    assert NumRule([Num(offset)] + tail) == Some(Parsed(offset, tail));
  }

  /** A register slot, single or union, reads back with its offset. */
  lemma SlotRoundTrip(s: RegisterSlot, tail: seq<Token>)
    requires ValidSlot(s)
    ensures SlotRule(PrintSlot(s) + tail) == Some(Parsed(s, tail))
  {
    SlotSpelled(s, tail);
    match s
    case Single(instance, offset) =>
      var after := [At, Num(offset)] + tail;
      InstanceRoundTrip(instance, after);
      assert after[1..][1..] == tail;
    case Union(alternatives, offset) =>
      UnionRoundTrip(alternatives, offset, tail);
  }

  lemma SlotStart(s: RegisterSlot)
    ensures PrintSlot(s) != [] && PrintSlot(s)[0] != RBrace
  {
    SlotSpelled(s, []);
  }

  lemma SlotsRoundTrip(slots: seq<RegisterSlot>, tail: seq<Token>)
    requires forall i :: 0 <= i < |slots| ==> ValidSlot(slots[i])
    ensures BracedList(SlotRule, ValidSlot, Braced(PrintList(PrintSlot, slots)) + tail)
         == Some(Parsed(slots, tail))
  {
    forall x, t | x in slots
      ensures SlotRule(PrintSlot(x) + t) == Some(Parsed(x, t))
    {
      SlotRoundTrip(x, t);
    }
    forall x | x in slots
      ensures PrintSlot(x) != [] && PrintSlot(x)[0] != RBrace
    {
      SlotStart(x);
    }
    BracedListRoundTrip(SlotRule, ValidSlot, PrintSlot, slots, tail);
  }

  lemma NamedSpelled(doc: Option<string>, keyword: Keyword, ident: string, body: seq<Token>, tail: seq<Token>)
    ensures PrintDoc(doc) + [Kw(keyword), Id(ident)] + body + tail
         == PrintDoc(doc) + ([Kw(keyword), Id(ident)] + (body + tail))
  {
  }

  /** A peripheral reads back with its documentation and slots in order. */
  lemma PeripheralRoundTrip(p: PeripheralDefinition, tail: seq<Token>)
    requires p.Valid()
    ensures PeripheralRule(PrintPeripheral(p) + tail) == Some(Parsed(p, tail))
  {
    var body := Braced(PrintList(PrintSlot, p.registers)) + tail;
    NamedSpelled(p.documentation, KwPeripheral, p.ident, Braced(PrintList(PrintSlot, p.registers)), tail);
    DocRoundTrip(p.documentation, [Kw(KwPeripheral), Id(p.ident)] + body);
    SlotsRoundTrip(p.registers, tail);
    PeripheralSteps(PrintPeripheral(p) + tail, p, body, tail);
  }

  /** PeripheralRule once the documentation and the slots have been read. */
  lemma PeripheralSteps(ts: seq<Token>, p: PeripheralDefinition, body: seq<Token>, tail: seq<Token>)
    requires DocRule(ts) == Parsed(p.documentation, [Kw(KwPeripheral), Id(p.ident)] + body)
    requires BracedList(SlotRule, ValidSlot, body) == Some(Parsed(p.registers, tail))
    ensures PeripheralRule(ts) == Some(Parsed(p, tail))
  {
    Drop2(Kw(KwPeripheral), Id(p.ident), body);
    assert Expect([Kw(KwPeripheral), Id(p.ident)] + body, Kw(KwPeripheral)) == Some([Id(p.ident)] + body);
    assert IdentRule([Id(p.ident)] + body) == Some(Parsed(p.ident, body));
  }

  /** ---- Devices ---- */

  lemma PeripheralInstanceSpelled(i: PeripheralInstance, tail: seq<Token>)
    ensures PrintPeripheralInstance(i) + tail
         == [Id(i.ident), Colon] + (PrintPath(i.path) + ([At, Num(i.address)] + tail))
  {
  }

  lemma PeripheralInstanceRoundTrip(i: PeripheralInstance, tail: seq<Token>)
    requires ValidPeripheralInstance(i)
    ensures PeripheralInstanceRule(PrintPeripheralInstance(i) + tail) == Some(Parsed(i, tail))
  {
    var after := [At, Num(i.address)] + tail;
    PeripheralInstanceSpelled(i, tail);
    assert ([Id(i.ident), Colon] + (PrintPath(i.path) + after))[1..][1..] == PrintPath(i.path) + after;
    PathRoundTrip(i.path, after);
    assert after[1..][1..] == tail;
  }

  lemma PeripheralInstancesRoundTrip(entries: seq<PeripheralInstance>, tail: seq<Token>)
    requires forall i :: 0 <= i < |entries| ==> ValidPeripheralInstance(entries[i])
    ensures BracedList(PeripheralInstanceRule, ValidPeripheralInstance,
                       Braced(PrintList(PrintPeripheralInstance, entries)) + tail)
         == Some(Parsed(entries, tail))
  {
    forall x, t | x in entries
      ensures PeripheralInstanceRule(PrintPeripheralInstance(x) + t) == Some(Parsed(x, t))
    {
      PeripheralInstanceRoundTrip(x, t);
    }
    forall x | x in entries
      ensures PrintPeripheralInstance(x) != [] && PrintPeripheralInstance(x)[0] != RBrace
    {
      PeripheralInstanceSpelled(x, []);
    }
    BracedListRoundTrip(PeripheralInstanceRule, ValidPeripheralInstance, PrintPeripheralInstance, entries, tail);
  }

  /** A device reads back with its documentation and peripheral instances in order. */
  lemma DeviceRoundTrip(d: DeviceDefinition, tail: seq<Token>)
    requires d.Valid()
    ensures DeviceRule(PrintDevice(d) + tail) == Some(Parsed(d, tail))
  {
    var body := Braced(PrintList(PrintPeripheralInstance, d.peripherals)) + tail;
    NamedSpelled(d.documentation, KwDevice, d.ident, Braced(PrintList(PrintPeripheralInstance, d.peripherals)), tail);
    DocRoundTrip(d.documentation, [Kw(KwDevice), Id(d.ident)] + body);
    PeripheralInstancesRoundTrip(d.peripherals, tail);
    DeviceSteps(PrintDevice(d) + tail, d, body, tail);
  }

  /** DeviceRule once the documentation and the entries have been read. */
  lemma DeviceSteps(ts: seq<Token>, d: DeviceDefinition, body: seq<Token>, tail: seq<Token>)
    requires DocRule(ts) == Parsed(d.documentation, [Kw(KwDevice), Id(d.ident)] + body)
    requires BracedList(PeripheralInstanceRule, ValidPeripheralInstance, body) == Some(Parsed(d.peripherals, tail))
    ensures DeviceRule(ts) == Some(Parsed(d, tail))
  {
    Drop2(Kw(KwDevice), Id(d.ident), body);
    assert Expect([Kw(KwDevice), Id(d.ident)] + body, Kw(KwDevice)) == Some([Id(d.ident)] + body);
    assert IdentRule([Id(d.ident)] + body) == Some(Parsed(d.ident, body));
  }

  /** ---- What an item starts with, after its documentation ---- */

  lemma RegisterStart(r: RegisterDefinition, tail: seq<Token>)
    ensures DocRule(PrintRegister(r) + tail).rest != []
    ensures DocRule(PrintRegister(r) + tail).rest[0] == Kw(AccessKeyword(r.access))
  {
    var fields := Braced(PrintList(PrintField, r.fields)) + tail;
    var afterName := PrintReset(r.reset_value) + fields;
    var afterAccess := [Kw(KwRegister), LBracket, Num(r.size), RBracket, Id(r.ident)] + afterName;
    var afterDoc := PrintAccess(r.access) + afterAccess;
    RegisterSpelled(r, tail, fields, afterName, afterAccess, afterDoc);
    DocRoundTrip(r.documentation, afterDoc);
  }

  lemma PeripheralStart(p: PeripheralDefinition, tail: seq<Token>)
    ensures DocRule(PrintPeripheral(p) + tail).rest != []
    ensures DocRule(PrintPeripheral(p) + tail).rest[0] == Kw(KwPeripheral)
  {
    var body := Braced(PrintList(PrintSlot, p.registers)) + tail;
    NamedSpelled(p.documentation, KwPeripheral, p.ident, Braced(PrintList(PrintSlot, p.registers)), tail);
    DocRoundTrip(p.documentation, [Kw(KwPeripheral), Id(p.ident)] + body);
  }

  lemma DeviceStart(d: DeviceDefinition, tail: seq<Token>)
    ensures DocRule(PrintDevice(d) + tail).rest != []
    ensures DocRule(PrintDevice(d) + tail).rest[0] == Kw(KwDevice)
  {
    var body := Braced(PrintList(PrintPeripheralInstance, d.peripherals)) + tail;
    NamedSpelled(d.documentation, KwDevice, d.ident, Braced(PrintList(PrintPeripheralInstance, d.peripherals)), tail);
    DocRoundTrip(d.documentation, [Kw(KwDevice), Id(d.ident)] + body);
  }
}
