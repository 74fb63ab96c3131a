/** The parsers the library exports, one per entry point: each lexes the
    whole text, applies its rule and accepts only when the rule has consumed
    every token. A failure of any kind is None. */
module Parser {
  import opened Options
  import opened Tokens
  import opened Lexer
  import opened Ast
  import opened Printer
  import opened Grammar
  import opened RoundTrip

  /** Lex `text` and read one `rule` construct that spans all of it. */
  function ParseWith<T>(rule: seq<Token> -> Option<Parsed<T>>, text: string): (r: Option<T>)
    ensures r.Some? ==> Lex(text).Some? && rule(Lex(text).value) == Some(Parsed(r.value, []))
    ensures Lex(text).Some? && rule(Lex(text).value).Some? && rule(Lex(text).value).value.rest == []
            ==> r.Some?
  {
    var ts :- Lex(text);
    var p :- rule(ts);
    if p.rest == [] then Some(p.node) else None
  }

  /** Access: accepted exactly when the text is one access keyword. */
  function ParseAccess(text: string): (r: Option<Access>)
    ensures forall a :: r == Some(a) <==> Lex(text) == Some(PrintAccess(a))
  {
    var r := ParseWith(AccessRule, text);
    forall a ensures r == Some(a) <==> Lex(text) == Some(PrintAccess(a)) {
      AccessSpelling(text, a);
    }
    r
  }

  lemma AccessSpelling(text: string, a: Access)
    ensures ParseWith(AccessRule, text) == Some(a) <==> Lex(text) == Some(PrintAccess(a))
  {
    if Lex(text) == Some(PrintAccess(a)) {
      AccessRoundTrip(a, []);
      assert PrintAccess(a) + [] == PrintAccess(a);
      assert AccessRule(Lex(text).value) == Some(Parsed(a, []));
      assert ParseWith(AccessRule, text).Some?;
      assert ParseWith(AccessRule, text) == Some(a);
    }
    if ParseWith(AccessRule, text) == Some(a) {
      var ts := Lex(text).value;
      assert AccessRule(ts) == Some(Parsed(a, []));
      assert ts == PrintAccess(a) + [];
      assert ts == PrintAccess(a);
    }
  }

  /** Path: the text is exactly the `::`-separated segments. */
  function ParsePath(text: string): (r: Option<Path>)
    ensures r.Some? ==> r.value.Valid() && Lex(text) == Some(PrintPath(r.value))
  {
    var r := ParseWith(PathRule, text);
    if r.Some? then
      var ts := Lex(text).value;
      PathSpelling(ts);
      assert PathRule(ts).value == Parsed(r.value, []);
      assert ts == PrintPath(r.value) + [];
      assert ts == PrintPath(r.value);
      r
    else r
  }

  function ParseModule(text: string): (r: Option<Module>)
    ensures r.Some? ==> ValidModule(r.value)
  {
    ParseWith(ModuleRule, text)
  }

  /** Use: the text is exactly `use`, the tree and `;`. */
  function ParseUse(text: string): (r: Option<Use>)
    ensures r.Some? ==> Lex(text) == Some(PrintUse(r.value))
  {
    var r := ParseWith(UseRule, text);
    if r.Some? then
      var ts := Lex(text).value;
      UseSpelling(ts);
      assert UseRule(ts).value == Parsed(r.value, []);
      assert ts == PrintUse(r.value) + [];
      assert ts == PrintUse(r.value);
      r
    else r
  }

  function ParseRegisterDefinition(text: string): (r: Option<RegisterDefinition>)
    ensures r.Some? ==> r.value.Valid()
  {
    ParseWith(RegisterRule, text)
  }

  function ParsePeripheralDefinition(text: string): (r: Option<PeripheralDefinition>)
    ensures r.Some? ==> r.value.Valid()
  {
    ParseWith(PeripheralRule, text)
  }

  function ParseDeviceDefinition(text: string): (r: Option<DeviceDefinition>)
    ensures r.Some? ==> r.value.Valid()
  {
    ParseWith(DeviceRule, text)
  }

  function ParseItem(text: string): (r: Option<Item>)
    ensures r.Some? ==> ValidItem(r.value)
  {
    ParseWith(ItemRule, text)
  }

  /** Content: a whole file, any number of items. */
  function ParseContent(text: string): (r: Option<seq<Item>>)
    ensures r.Some? ==> ValidItems(r.value)
  {
    ParseWith(ItemsRule, text)
  }
}
