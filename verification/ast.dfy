/** The abstract syntax tree of the racr description language: the values the
    parser produces. Every entity is an immutable value; ownership is
    tree-shaped. */
module Ast {
  import opened Options

  /** Read/write qualifier of a register or of a single field. */
  datatype Access = ReadOnly | WriteOnly | ReadWrite | ReadAsWrite

  /** `foo::bar::baz`: identifier segments in source order. */
  datatype Path = Path(segments: seq<string>) {
    predicate Valid() {
      |segments| > 0
    }
  }

  /** Import tree of a `use` statement, nesting to the right. */
  datatype UseTree =
    | Ident(name: string)
    | Path(path_segment: string, sub_tree: UseTree)
    | Rename(ident: string, rename: string)

  datatype Use = Use(tree: UseTree)

  /** Half-open range of bit positions, `start..end`. */
  datatype BitRange = BitRange(start: nat, end: nat) {
    predicate Valid() {
      start < end
    }
  }

  datatype FieldVariant = FieldVariant(ident: string, value: nat, documentation: Option<string>)

  datatype FieldType =
    | Field(ident: string)
    | Enum(ident: string, variants: seq<FieldVariant>)
    | Reserved(value: nat)

  datatype FieldInstance = FieldInstance(
    ty: FieldType,
    documentation: Option<string>,
    bit_range: BitRange,
    access: Option<Access>)

  predicate ValidField(f: FieldInstance) {
    f.bit_range.Valid()
  }

  datatype RegisterDefinition = RegisterDefinition(
    access: Access,
    ident: string,
    documentation: Option<string>,
    size: nat,
    reset_value: Option<nat>,
    fields: seq<FieldInstance>)
  {
    predicate Valid() {
      forall i :: 0 <= i < |fields| ==> ValidField(fields[i])
    }
  }

  datatype RegisterType =
    | Single(path: Path)
    | Array(path: Path, size: nat)

  datatype RegisterInstance = RegisterInstance(ident: string, ty: RegisterType) {
    predicate Valid() {
      ty.path.Valid()
    }

    /** The shape a union alternative has: `ident: Path`. */
    predicate ValidAlternative() {
      ty.Single? && ty.path.Valid()
    }
  }

  datatype RegisterSlot =
    | Single(instance: RegisterInstance, offset: nat)
    | Union(alternatives: seq<RegisterInstance>, offset: nat)
  {
    predicate Valid() {
      match this
      case Single(instance, _) => instance.Valid()
      case Union(alternatives, _) =>
        && |alternatives| >= 2
        && forall i :: 0 <= i < |alternatives| ==> alternatives[i].ValidAlternative()
    }
  }

  predicate ValidSlot(s: RegisterSlot) {
    s.Valid()
  }

  datatype PeripheralDefinition = PeripheralDefinition(
    ident: string,
    documentation: Option<string>,
    registers: seq<RegisterSlot>)
  {
    predicate Valid() {
      forall i :: 0 <= i < |registers| ==> ValidSlot(registers[i])
    }
  }

  datatype PeripheralInstance = PeripheralInstance(ident: string, path: Path, address: nat)

  predicate ValidPeripheralInstance(i: PeripheralInstance) {
    i.path.Valid()
  }

  datatype DeviceDefinition = DeviceDefinition(
    ident: string,
    documentation: Option<string>,
    peripherals: seq<PeripheralInstance>)
  {
    predicate Valid() {
      forall i :: 0 <= i < |peripherals| ==> ValidPeripheralInstance(peripherals[i])
    }
  }

  /** The `content` of a module: absent for a forward declaration
      (`mod foo;`), or the items of an inline body (`mod foo { ... }`). */
  datatype ModuleContent = Declared | Inline(items: seq<Item>)

  datatype Module = Module(ident: string, content: ModuleContent)

  datatype Item =
    | ModuleItem(module_: Module)
    | UseItem(use_: Use)
    | RegisterItem(register: RegisterDefinition)
    | PeripheralItem(peripheral: PeripheralDefinition)
    | DeviceItem(device: DeviceDefinition)

  /** The shape invariants every parsed tree satisfies: non-empty paths,
      non-empty bit ranges, unions of at least two plain alternatives. */
  predicate ValidItem(item: Item)
    decreases item, 1
  {
    match item
    case ModuleItem(m) => ValidModule(m)
    case UseItem(_) => true
    case RegisterItem(r) => r.Valid()
    case PeripheralItem(p) => p.Valid()
    case DeviceItem(d) => d.Valid()
  }

  predicate ValidModule(m: Module)
    decreases m, 0
  {
    match m.content
    case Declared => true
    case Inline(items) => forall i :: 0 <= i < |items| ==> ValidItem(items[i])
  }

  predicate ValidItems(items: seq<Item>) {
    forall i :: 0 <= i < |items| ==> ValidItem(items[i])
  }
}
