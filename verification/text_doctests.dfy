/** The shorter documentation examples stated on their source text: the
    exported parser, given the example's text character for character,
    returns the expected tree. Each text is first lexed by a lemma over
    abstract names, then instantiated with the example's names. */
module TextDoctests {
  import opened Options
  import opened Tokens
  import opened Lexer
  import opened Ast
  import opened Grammar
  import opened Parser
  import opened Doctests

  /** A token's spelling followed by text that does not glue onto it. */
  lemma LexStep(t: Token, s: string, rest: string, ts: seq<Token>, out: seq<Token>)
    requires Renderable(t) && Separated(t, rest)
    requires Lex(rest) == Some(ts)
    requires s == TokenText(t) + rest
    requires out == [t] + ts
    ensures Lex(s) == Some(out)
  {
    LexToken(t, rest, ts);
  }

  lemma SeparatorStep(rest: string, ts: seq<Token>)
    requires Lex(rest) == Some(ts)
    ensures Lex("::" + rest) == Some([PathSep] + ts)
  {
    LexStep(PathSep, "::" + rest, rest, ts, [PathSep] + ts);
  }

  /** `a::` in front of the rest. */
  lemma SegmentStep(a: string, rest: string, ts: seq<Token>, s: string, out: seq<Token>)
    requires Renderable(Id(a)) && Lex(rest) == Some(ts)
    requires s == a + ("::" + rest) && out == [Id(a)] + ([PathSep] + ts)
    ensures Lex(s) == Some(out)
  {
    SeparatorStep(rest, ts);
    assert ("::" + rest)[0] == ':';
    LexStep(Id(a), s, "::" + rest, [PathSep] + ts, out);
  }

  /** A keyword, one space, then the rest. */
  lemma KeywordStep(k: Keyword, rest: string, ts: seq<Token>, s: string, out: seq<Token>)
    requires Lex(rest) == Some(ts)
    requires s == KeywordText(k) + (" " + rest) && out == [Kw(k)] + ts
    ensures Lex(s) == Some(out)
  {
    LexSkip(' ', rest);
    assert [' '] + rest == " " + rest;
    assert TokenText(Kw(k)) == KeywordText(k);
    LexStep(Kw(k), s, " " + rest, ts, out);
  }

  lemma SemiStep(rest: string, ts: seq<Token>)
    requires Lex(rest) == Some(ts)
    ensures Lex(";" + rest) == Some([Semi] + ts)
  {
    LexStep(Semi, ";" + rest, rest, ts, [Semi] + ts);
  }

  /** `a;` in front of the rest. */
  lemma NameSemiStep(a: string, rest: string, ts: seq<Token>, s: string, out: seq<Token>)
    requires Renderable(Id(a)) && Lex(rest) == Some(ts)
    requires s == a + (";" + rest) && out == [Id(a)] + ([Semi] + ts)
    ensures Lex(s) == Some(out)
  {
    SemiStep(rest, ts);
    assert (";" + rest)[0] == ';';
    LexStep(Id(a), s, ";" + rest, [Semi] + ts, out);
  }

  /** `a ` followed by a word. */
  lemma NameSpaceStep(a: string, rest: string, ts: seq<Token>, s: string, out: seq<Token>)
    requires Renderable(Id(a)) && Lex(rest) == Some(ts)
    requires s == a + (" " + rest) && out == [Id(a)] + ts
    ensures Lex(s) == Some(out)
  {
    LexSkip(' ', rest);
    assert [' '] + rest == " " + rest;
    LexStep(Id(a), s, " " + rest, ts, out);
  }

  lemma OpenStep(rest: string, ts: seq<Token>)
    requires Lex(rest) == Some(ts)
    ensures Lex("{" + rest) == Some([LBrace] + ts)
  {
    LexStep(LBrace, "{" + rest, rest, ts, [LBrace] + ts);
  }

  /** `a {` in front of the rest. */
  lemma NameOpenStep(a: string, rest: string, ts: seq<Token>, s: string, out: seq<Token>)
    requires Renderable(Id(a)) && Lex(rest) == Some(ts)
    requires s == a + (" " + ("{" + rest)) && out == [Id(a)] + ([LBrace] + ts)
    ensures Lex(s) == Some(out)
  {
    OpenStep(rest, ts);
    NameSpaceStep(a, "{" + rest, [LBrace] + ts, s, out);
  }

  /** A parser entry point applied to a text whose tokens its rule reads
      to the end. */
  lemma ParsedText<T>(rule: seq<Token> -> Option<Parsed<T>>, text: string, ts: seq<Token>, x: T)
    requires Lex(text) == Some(ts)
    requires rule(ts) == Some(Parsed(x, []))
    ensures ParseWith(rule, text) == Some(x)
  {
  }

  /** The names the examples use are identifiers and not keywords. */
  lemma LowerNames()
    ensures Renderable(Id("foo")) && Renderable(Id("bar")) && Renderable(Id("baz"))
  {
  }

  lemma UpperNames()
    ensures Renderable(Id("Foo")) && Renderable(Id("Bar")) && Renderable(Id("Baz"))
  {
  }

  // -- Paths (src/lib.rs lines 30-36) ------------------------------------

  lemma PathText3(a: string, b: string, c: string, s: string, out: seq<Token>)
    requires Renderable(Id(a)) && Renderable(Id(b)) && Renderable(Id(c))
    requires s == a + ("::" + (b + ("::" + c)))
    requires out == [Id(a)] + ([PathSep] + ([Id(b)] + ([PathSep] + [Id(c)])))
    ensures Lex(s) == Some(out)
  {
    LexAlone(Id(c), c);
    SegmentStep(b, c, [Id(c)], b + ("::" + c), [Id(b)] + ([PathSep] + [Id(c)]));
    SegmentStep(a, b + ("::" + c), [Id(b)] + ([PathSep] + [Id(c)]), s, out);
  }

  lemma PathSpelled()
    ensures "foo::bar::baz" == "foo" + ("::" + ("bar" + ("::" + "baz")))
    ensures [Id("foo"), PathSep, Id("bar"), PathSep, Id("baz")]
         == [Id("foo")] + ([PathSep] + ([Id("bar")] + ([PathSep] + [Id("baz")])))
  {
  }

  lemma PathTextLexed()
    ensures Lex("foo::bar::baz") == Some([Id("foo"), PathSep, Id("bar"), PathSep, Id("baz")])
  {
    LowerNames();
    PathSpelled();
    PathText3("foo", "bar", "baz", "foo::bar::baz", [Id("foo"), PathSep, Id("bar"), PathSep, Id("baz")]);
  }

  lemma PathTextDoctest()
    ensures ParsePath("foo::bar::baz") == Some(Path.Path(["foo", "bar", "baz"]))
  {
    PathTextLexed();
    PathDoctest();
    ParsedText(PathRule, "foo::bar::baz", PathTokens, Path.Path(["foo", "bar", "baz"]));
  }

  // -- Modules (src/lib.rs lines 38-52) ----------------------------------

  /** `mod a;` in front of the rest. */
  lemma ModDeclaredText(a: string, rest: string, ts: seq<Token>, s: string, out: seq<Token>)
    requires Renderable(Id(a)) && Lex(rest) == Some(ts)
    requires s == "mod" + (" " + (a + (";" + rest))) && out == [Kw(KwMod)] + ([Id(a)] + ([Semi] + ts))
    ensures Lex(s) == Some(out)
  {
    NameSemiStep(a, rest, ts, a + (";" + rest), [Id(a)] + ([Semi] + ts));
    KeywordStep(KwMod, a + (";" + rest), [Id(a)] + ([Semi] + ts), s, out);
  }

  /** `mod a {` in front of the rest. */
  lemma ModOpenText(a: string, rest: string, ts: seq<Token>, s: string, out: seq<Token>)
    requires Renderable(Id(a)) && Lex(rest) == Some(ts)
    requires s == "mod" + (" " + (a + (" " + ("{" + rest)))) && out == [Kw(KwMod)] + ([Id(a)] + ([LBrace] + ts))
    ensures Lex(s) == Some(out)
  {
    NameOpenStep(a, rest, ts, a + (" " + ("{" + rest)), [Id(a)] + ([LBrace] + ts));
    KeywordStep(KwMod, a + (" " + ("{" + rest)), [Id(a)] + ([LBrace] + ts), s, out);
  }

  lemma DeclaredModuleSpelled()
    ensures "mod foo;" == "mod" + (" " + ("foo" + (";" + "")))
    ensures [Kw(KwMod), Id("foo"), Semi] == [Kw(KwMod)] + ([Id("foo")] + ([Semi] + []))
  {
  }

  lemma DeclaredModuleTextLexed()
    ensures Lex("mod foo;") == Some([Kw(KwMod), Id("foo"), Semi])
  {
    assert Lex("") == Some([]);
    LowerNames();
    DeclaredModuleSpelled();
    ModDeclaredText("foo", "", [], "mod foo;", [Kw(KwMod), Id("foo"), Semi]);
  }

  lemma DeclaredModuleTextDoctest()
    ensures ParseModule("mod foo;") == Some(Module("foo", Declared))
  {
    DeclaredModuleTextLexed();
    DeclaredModuleDoctest();
    ParsedText(ModuleRule, "mod foo;", DeclaredModuleTokens, Module("foo", Declared));
  }

  lemma UnclosedModuleSpelled()
    ensures "mod foo {" == "mod" + (" " + ("foo" + (" " + ("{" + ""))))
    ensures UnclosedModuleTokens == [Kw(KwMod)] + ([Id("foo")] + ([LBrace] + []))
  {
  }

  lemma UnclosedModuleTextLexed()
    ensures Lex("mod foo {") == Some(UnclosedModuleTokens)
  {
    assert Lex("") == Some([]);
    LowerNames();
    UnclosedModuleSpelled();
    ModOpenText("foo", "", [], "mod foo {", UnclosedModuleTokens);
  }

  /** A text that lexes but whose tokens the rule refuses does not parse. */
  lemma RefusedText<T>(rule: seq<Token> -> Option<Parsed<T>>, text: string, ts: seq<Token>)
    requires Lex(text) == Some(ts)
    requires rule(ts) == None
    ensures ParseWith(rule, text) == None
  {
  }

  /** The text `mod foo {` is refused as a whole. */
  lemma UnclosedModuleTextDoctest()
    ensures ParseModule("mod foo {") == None
  {
    UnclosedModuleTextLexed();
    UnclosedModuleDoctest();
    RefusedText(ModuleRule, "mod foo {", UnclosedModuleTokens);
  }

  lemma ClosingText()
    ensures Lex("}}") == Some([RBrace, RBrace])
  {
    LexAlone(RBrace, "}");
    LexStep(RBrace, "}}", "}", [RBrace], [RBrace, RBrace]);
  }

  /** `mod a {mod b {mod c;}}` */
  lemma NestedText(a: string, b: string, c: string, s: string, out: seq<Token>)
    requires Renderable(Id(a)) && Renderable(Id(b)) && Renderable(Id(c))
    requires s == "mod" + (" " + (a + (" " + ("{" + ("mod" + (" " + (b + (" " + ("{"
                 + ("mod" + (" " + (c + (";" + "}}")))))))))))))
    requires out == [Kw(KwMod)] + ([Id(a)] + ([LBrace] + ([Kw(KwMod)] + ([Id(b)] + ([LBrace]
                 + ([Kw(KwMod)] + ([Id(c)] + ([Semi] + [RBrace, RBrace]))))))))
    ensures Lex(s) == Some(out)
  {
    var inner := "mod" + (" " + (c + (";" + "}}")));
    var innerTokens := [Kw(KwMod)] + ([Id(c)] + ([Semi] + [RBrace, RBrace]));
    var middle := "mod" + (" " + (b + (" " + ("{" + inner))));
    var middleTokens := [Kw(KwMod)] + ([Id(b)] + ([LBrace] + innerTokens));
    ClosingText();
    ModDeclaredText(c, "}}", [RBrace, RBrace], inner, innerTokens);
    ModOpenText(b, inner, innerTokens, middle, middleTokens);
    ModOpenText(a, middle, middleTokens, s, out);
  }

  lemma NestedModuleSpelled()
    ensures "mod foo {mod bar {mod baz;}}"
         == "mod" + (" " + ("foo" + (" " + ("{" + ("mod" + (" " + ("bar" + (" " + ("{"
            + ("mod" + (" " + ("baz" + (";" + "}}")))))))))))))
    ensures [Kw(KwMod), Id("foo"), LBrace, Kw(KwMod), Id("bar"), LBrace,
             Kw(KwMod), Id("baz"), Semi, RBrace, RBrace]
         == [Kw(KwMod)] + ([Id("foo")] + ([LBrace] + ([Kw(KwMod)] + ([Id("bar")] + ([LBrace]
            + ([Kw(KwMod)] + ([Id("baz")] + ([Semi] + [RBrace, RBrace]))))))))
  {
  }

  lemma NestedModuleTextLexed()
    ensures Lex("mod foo {mod bar {mod baz;}}")
         == Some([Kw(KwMod), Id("foo"), LBrace, Kw(KwMod), Id("bar"), LBrace,
                  Kw(KwMod), Id("baz"), Semi, RBrace, RBrace])
  {
    LowerNames();
    NestedModuleSpelled();
    NestedText("foo", "bar", "baz", "mod foo {mod bar {mod baz;}}",
               [Kw(KwMod), Id("foo"), LBrace, Kw(KwMod), Id("bar"), LBrace,
                Kw(KwMod), Id("baz"), Semi, RBrace, RBrace]);
  }

  lemma NestedModuleTextDoctest()
    ensures ParseModule("mod foo {mod bar {mod baz;}}") == Some(NestedModule)
  {
    NestedModuleTextLexed();
    NestedModuleDoctest();
    ParsedText(ModuleRule, "mod foo {mod bar {mod baz;}}", NestedModuleTokens, NestedModule);
  }

  // -- Use declarations (src/lib.rs lines 53-78) -------------------------

  /** `use a;` */
  lemma UseIdentText(a: string, s: string, out: seq<Token>)
    requires Renderable(Id(a))
    requires s == "use" + (" " + (a + ";")) && out == [Kw(KwUse)] + [Id(a), Semi]
    ensures Lex(s) == Some(out)
  {
    assert Lex("") == Some([]);
    assert a + ";" == a + (";" + "");
    NameSemiStep(a, "", [], a + ";", [Id(a), Semi]);
    KeywordStep(KwUse, a + ";", [Id(a), Semi], s, out);
  }

  /** `use a::b::c;` */
  lemma UsePathText(a: string, b: string, c: string, s: string, out: seq<Token>)
    requires Renderable(Id(a)) && Renderable(Id(b)) && Renderable(Id(c))
    requires s == "use" + (" " + (a + ("::" + (b + ("::" + (c + ";"))))))
    requires out == [Kw(KwUse)] + ([Id(a)] + ([PathSep] + ([Id(b)] + ([PathSep] + [Id(c), Semi]))))
    ensures Lex(s) == Some(out)
  {
    var last := c + ";";
    var lastTokens := [Id(c), Semi];
    var middle := b + ("::" + last);
    var middleTokens := [Id(b)] + ([PathSep] + lastTokens);
    var path := a + ("::" + middle);
    var pathTokens := [Id(a)] + ([PathSep] + middleTokens);
    assert Lex("") == Some([]);
    assert last == c + (";" + "");
    NameSemiStep(c, "", [], last, lastTokens);
    SegmentStep(b, last, lastTokens, middle, middleTokens);
    SegmentStep(a, middle, middleTokens, path, pathTokens);
    KeywordStep(KwUse, path, pathTokens, s, out);
  }

  /** `use a::b as c;` */
  lemma UseRenameText(a: string, b: string, c: string, s: string, out: seq<Token>)
    requires Renderable(Id(a)) && Renderable(Id(b)) && Renderable(Id(c))
    requires s == "use" + (" " + (a + ("::" + (b + (" " + ("as" + (" " + (c + ";"))))))))
    requires out == [Kw(KwUse)] + ([Id(a)] + ([PathSep] + ([Id(b)] + ([Kw(KwAs)] + [Id(c), Semi]))))
    ensures Lex(s) == Some(out)
  {
    var last := c + ";";
    var lastTokens := [Id(c), Semi];
    var renamed := "as" + (" " + last);
    var renamedTokens := [Kw(KwAs)] + lastTokens;
    var middle := b + (" " + renamed);
    var middleTokens := [Id(b)] + renamedTokens;
    var path := a + ("::" + middle);
    var pathTokens := [Id(a)] + ([PathSep] + middleTokens);
    assert Lex("") == Some([]);
    assert last == c + (";" + "");
    NameSemiStep(c, "", [], last, lastTokens);
    KeywordStep(KwAs, last, lastTokens, renamed, renamedTokens);
    NameSpaceStep(b, renamed, renamedTokens, middle, middleTokens);
    SegmentStep(a, middle, middleTokens, path, pathTokens);
    KeywordStep(KwUse, path, pathTokens, s, out);
  }

  lemma UseIdentSpelled()
    ensures "use Foo;" == "use" + (" " + ("Foo" + ";"))
    ensures [Kw(KwUse), Id("Foo"), Semi] == [Kw(KwUse)] + [Id("Foo"), Semi]
  {
  }

  lemma UseIdentTextLexed()
    ensures Lex("use Foo;") == Some([Kw(KwUse), Id("Foo"), Semi])
  {
    UpperNames();
    UseIdentSpelled();
    UseIdentText("Foo", "use Foo;", [Kw(KwUse), Id("Foo"), Semi]);
  }

  lemma UseIdentTextDoctest()
    ensures ParseUse("use Foo;") == Some(Use(Ident("Foo")))
  {
    UseIdentTextLexed();
    UseIdentDoctest();
    ParsedText(UseRule, "use Foo;", UseIdentTokens, Use(Ident("Foo")));
  }

  lemma UsePathSpelled()
    ensures "use foo::bar::Baz;" == "use" + (" " + ("foo" + ("::" + ("bar" + ("::" + ("Baz" + ";"))))))
    ensures [Kw(KwUse), Id("foo"), PathSep, Id("bar"), PathSep, Id("Baz"), Semi]
         == [Kw(KwUse)] + ([Id("foo")] + ([PathSep] + ([Id("bar")] + ([PathSep] + [Id("Baz"), Semi]))))
  {
  }

  lemma UsePathTextLexed()
    ensures Lex("use foo::bar::Baz;")
         == Some([Kw(KwUse), Id("foo"), PathSep, Id("bar"), PathSep, Id("Baz"), Semi])
  {
    LowerNames();
    UpperNames();
    UsePathSpelled();
    UsePathText("foo", "bar", "Baz", "use foo::bar::Baz;",
                [Kw(KwUse), Id("foo"), PathSep, Id("bar"), PathSep, Id("Baz"), Semi]);
  }

  lemma UsePathTextDoctest()
    ensures ParseUse("use foo::bar::Baz;")
         == Some(Use(UseTree.Path("foo", UseTree.Path("bar", Ident("Baz")))))
  {
    UsePathTextLexed();
    UsePathDoctest();
    ParsedText(UseRule, "use foo::bar::Baz;", UsePathTokens,
               Use(UseTree.Path("foo", UseTree.Path("bar", Ident("Baz")))));
  }

  lemma UseRenameSpelled()
    ensures "use foo::Bar as Baz;"
         == "use" + (" " + ("foo" + ("::" + ("Bar" + (" " + ("as" + (" " + ("Baz" + ";"))))))))
    ensures [Kw(KwUse), Id("foo"), PathSep, Id("Bar"), Kw(KwAs), Id("Baz"), Semi]
         == [Kw(KwUse)] + ([Id("foo")] + ([PathSep] + ([Id("Bar")] + ([Kw(KwAs)] + [Id("Baz"), Semi]))))
  {
  }

  lemma UseRenameTextLexed()
    ensures Lex("use foo::Bar as Baz;")
         == Some([Kw(KwUse), Id("foo"), PathSep, Id("Bar"), Kw(KwAs), Id("Baz"), Semi])
  {
    LowerNames();
    UpperNames();
    UseRenameSpelled();
    UseRenameText("foo", "Bar", "Baz", "use foo::Bar as Baz;",
                  [Kw(KwUse), Id("foo"), PathSep, Id("Bar"), Kw(KwAs), Id("Baz"), Semi]);
  }

  lemma UseRenameTextDoctest()
    ensures ParseUse("use foo::Bar as Baz;") == Some(Use(UseTree.Path("foo", Rename("Bar", "Baz"))))
  {
    UseRenameTextLexed();
    UseRenameDoctest();
    ParsedText(UseRule, "use foo::Bar as Baz;", UseRenameTokens,
               Use(UseTree.Path("foo", Rename("Bar", "Baz"))));
  }
}
