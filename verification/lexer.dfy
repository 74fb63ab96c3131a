/** The lexer: source text to tokens. Whitespace and `//` line comments
    separate tokens and are dropped; identifiers are promoted to keywords by
    spelling; integer literals are decimal, `0x` hexadecimal or `0b` binary. */
module Lexer {
  import opened Options
  import opened Literals
  import opened Tokens
  import opened Seqs

  /** The runs of characters the lexer scans over. */
  datatype CharClass = IdentChars | DigitsOf(base: nat) | StringChars | LineChars

  predicate InClass(c: char, k: CharClass) {
    match k
    case IdentChars => IsIdentChar(c)
    case DigitsOf(base) => IsDigitIn(c, base)
    case StringChars => c != '"'
    case LineChars => c != '\n'
  }

  /** Length of the longest prefix of `s` made of characters of class `k`. */
  function Span(s: string, k: CharClass): (n: nat)
    ensures n <= |s|
    ensures forall i :: 0 <= i < n ==> InClass(s[i], k)
    ensures n < |s| ==> !InClass(s[n], k)
    decreases |s|
  {
    if s == [] || !InClass(s[0], k) then 0 else 1 + Span(s[1..], k)
  }

  /** The tokens spelled with a single character that starts no longer
      token (`:` and `.` are handled by the caller). */
  function Punctuation(c: char): Option<Token> {
    if c == ';' then Some(Semi)
    else if c == ',' then Some(Comma)
    else if c == '=' then Some(Eq)
    else if c == '@' then Some(At)
    else if c == '|' then Some(Pipe)
    else if c == '#' then Some(Hash)
    else if c == '{' then Some(LBrace)
    else if c == '}' then Some(RBrace)
    else if c == '[' then Some(LBracket)
    else if c == ']' then Some(RBracket)
    else if c == '(' then Some(LParen)
    else if c == ')' then Some(RParen)
    else None
  }

  /** Digits of `base` at the front of `s`. The run must be non-empty and must
      not run on into an identifier character (`0x`, `0b12`, `12ab` fail). */
  function DigitRun(s: string, base: nat): (r: Option<(Token, string)>)
    ensures r.Some? ==> |r.value.1| < |s| && r.value.1 == s[|s| - |r.value.1|..]
  {
    var n := Span(s, DigitsOf(base));
    if n == 0 || (n < |s| && IsIdentChar(s[n])) then None
    else Some((Num(DigitsValue(s[..n], base)), s[n..]))
  }

  /** An integer literal; the `0x` and `0b` prefixes select the base. */
  function ScanNumber(s: string): (r: Option<(Token, string)>)
    requires s != [] && IsDecimalDigit(s[0])
    ensures r.Some? ==> |r.value.1| < |s| && r.value.1 == s[|s| - |r.value.1|..]
  {
    if |s| >= 2 && s[0] == '0' && (s[1] == 'x' || s[1] == 'b') then
      DigitRun(s[2..], if s[1] == 'x' then 16 else 2)
    else
      DigitRun(s, 10)
  }

  /** One token at the front of `s`, and the text after it. */
  function Scan(s: string): (r: Option<(Token, string)>)
    requires s != [] && !IsSpace(s[0])
    ensures r.Some? ==> Renderable(r.value.0)
    ensures r.Some? ==> |r.value.1| < |s| && r.value.1 == s[|s| - |r.value.1|..]
  {
    var c := s[0];
    if IsIdentStart(c) then
      var n := Span(s, IdentChars);
      var w := s[..n];
      match KeywordOf(w)
      case Some(k) => Some((Kw(k), s[n..]))
      case None => Some((Id(w), s[n..]))
    else if IsDecimalDigit(c) then
      ScanNumber(s)
    else if c == '"' then
      var n := Span(s[1..], StringChars);
      if n == |s| - 1 then None else Some((Str(s[1..n + 1]), s[n + 2..]))
    else if c == ':' then
      if |s| >= 2 && s[1] == ':' then Some((PathSep, s[2..])) else Some((Colon, s[1..]))
    else if c == '.' then
      if |s| >= 2 && s[1] == '.' then Some((DotDot, s[2..])) else None
    else
      match Punctuation(c)
      case Some(t) => Some((t, s[1..]))
      case None => None
  }

  /** `rest` cannot glue onto the end of token `t`'s spelling: a word or
      number is not followed by an identifier character, a `:` not by a
      second `:`. */
  predicate Separated(t: Token, rest: string) {
    rest == [] ||
    match t
    case Id(_) => !IsIdentChar(rest[0])
    case Kw(_) => !IsIdentChar(rest[0])
    case Num(_) => !IsIdentChar(rest[0])
    case Colon => rest[0] != ':'
    case _ => true
  }

  /** The token sequence of a source text, or None at the first character
      that starts no token. */
  function Lex(s: string): (r: Option<seq<Token>>)
    ensures r.Some? ==> AllRenderable(r.value)
    decreases |s|
  {
    if s == [] then Some([])
    else if IsSpace(s[0]) then Lex(s[1..])
    else if |s| >= 2 && s[0] == '/' && s[1] == '/' then Lex(s[Span(s, LineChars)..])
    else
      match Scan(s)
      case None => None
      case Some((t, rest)) =>
        match Lex(rest)
        case None => None
        case Some(ts) => Some([t] + ts)
  }

  /** A run of class-`k` characters ends where the class does. */
  lemma SpanOfRun(w: string, rest: string, k: CharClass)
    requires forall i :: 0 <= i < |w| ==> InClass(w[i], k)
    requires rest == [] || !InClass(rest[0], k)
    ensures Span(w + rest, k) == |w|
  {
    var s := w + rest;
    assert forall i :: 0 <= i < |w| ==> s[i] == w[i];
    if |w| < |s| {
      assert s[|w|] == rest[0];
    }
  }

  /** The spelling of a token is not whitespace and does not open a comment. */
  lemma TokenTextStart(t: Token)
    requires Renderable(t)
    ensures |TokenText(t)| > 0
    ensures !IsSpace(TokenText(t)[0]) && TokenText(t)[0] != '/'
  {
    if t.Kw? {
      KeywordSpelling(t.keyword);
    }
  }

  /** Scanning the spelling of a token, followed by whitespace or the end of
      input, gives that token back. */
  lemma ScanTokenText(t: Token, rest: string)
    requires Renderable(t)
    requires Separated(t, rest)
    ensures Scan(TokenText(t) + rest) == Some((t, rest))
  {
    TokenTextStart(t);
    match t
    case Id(_) => ScanWordText(t, rest);
    case Kw(_) => ScanWordText(t, rest);
    case Num(v) => ScanNumberText(v, rest);
    case Str(text) => ScanStringText(text, rest);
    case _ => ScanPunctuationText(t, rest);
  }

  lemma ScanWordText(t: Token, rest: string)
    requires t.Id? || t.Kw?
    requires Renderable(t)
    requires rest == [] || !IsIdentChar(rest[0])
    ensures Scan(TokenText(t) + rest) == Some((t, rest))
  {
    var w := TokenText(t);
    if t.Kw? {
      KeywordSpelling(t.keyword);
    }
    assert IsIdentifier(w);
    var s := w + rest;
    assert s[0] == w[0];
    SpanOfRun(w, rest, IdentChars);
    assert s[..|w|] == w;
    assert s[|w|..] == rest;
  }

  lemma ScanNumberText(v: nat, rest: string)
    requires rest == [] || !IsIdentChar(rest[0])
    ensures Scan(TokenText(Num(v)) + rest) == Some((Num(v), rest))
  {
    var s := Digits(v, 10) + rest;
    DecimalRunText(v, rest);
    assert !IsIdentStart(s[0]);
  }

  /** The digits of a number, followed by text that does not continue them,
      scan as that number. */
  lemma DecimalRunText(v: nat, rest: string)
    requires rest == [] || !IsIdentChar(rest[0])
    ensures Digits(v, 10) + rest != [] && IsDecimalDigit((Digits(v, 10) + rest)[0])
    ensures ScanNumber(Digits(v, 10) + rest) == Some((Num(v), rest))
  {
    var w := Digits(v, 10);
    var s := w + rest;
    assert s[0] == w[0];
    assert IsDecimalDigit(s[0]);
    if |s| >= 2 {
      assert s[1] == (if |w| >= 2 then w[1] else rest[0]);
    }
    SpanOfRun(w, rest, DigitsOf(10));
    assert s[..|w|] == w;
    assert s[|w|..] == rest;
    DigitsValueOfDigits(v, 10);
    assert DigitRun(s, 10) == Some((Num(v), rest));
  }

  lemma ScanStringText(text: string, rest: string)
    requires Renderable(Str(text))
    ensures Scan(TokenText(Str(text)) + rest) == Some((Str(text), rest))
  {
    var s := "\"" + text + "\"" + rest;
    assert TokenText(Str(text)) + rest == s;
    assert s[1..] == text + ("\"" + rest);
    SpanOfRun(text, "\"" + rest, StringChars);
    assert s[1..|text| + 1] == text;
    assert s[|text| + 2..] == rest;
  }

  lemma ScanPunctuationText(t: Token, rest: string)
    requires !t.Id? && !t.Kw? && !t.Num? && !t.Str?
    requires Separated(t, rest)
    ensures Scan(TokenText(t) + rest) == Some((t, rest))
  {
    if t == PathSep || t == DotDot || t == Colon {
      ScanPairText(t, rest);
    } else {
      ScanSingleText(t, rest);
    }
  }

  /** `::`, `..` and `:`, the tokens whose first character may start a
      longer one. */
  lemma ScanPairText(t: Token, rest: string)
    requires t == PathSep || t == DotDot || t == Colon
    requires Separated(t, rest)
    ensures Scan(TokenText(t) + rest) == Some((t, rest))
  {
    var s := TokenText(t) + rest;
    if t == Colon {
      assert s[1..] == rest;
    } else {
      assert s[2..] == rest;
    }
  }

  /** The punctuation spelled with one character of its own. */
  lemma ScanSingleText(t: Token, rest: string)
    requires !t.Id? && !t.Kw? && !t.Num? && !t.Str?
    requires t != PathSep && t != DotDot && t != Colon
    ensures Scan(TokenText(t) + rest) == Some((t, rest))
  {
    var s := TokenText(t) + rest;
    var c := TokenText(t)[0];
    assert |TokenText(t)| == 1 && Punctuation(c) == Some(t);
    assert s[0] == c && s[1..] == rest;
  }

  /** Lexing rendered tokens gives the tokens back: the lexer inverts
      `Render` on every token sequence it can produce. */
  lemma {:induction false} LexRender(ts: seq<Token>)
    requires AllRenderable(ts)
    ensures Lex(Render(ts)) == Some(ts)
    decreases |ts|
  {
    if ts != [] {
      var t, rest := ts[0], Render(ts[1..]);
      assert Renderable(ts[0]);
      ScanTokenText(t, " " + rest);
      var s := TokenText(t) + (" " + rest);
      assert Render(ts) == s;
      TokenTextStart(t);
      assert s[0] == TokenText(t)[0];
      assert (" " + rest)[1..] == rest;
      assert Lex(" " + rest) == Lex(rest);
      assert AllRenderable(ts[1..]) by {
        forall i | 0 <= i < |ts[1..]| ensures Renderable(ts[1..][i]) {
          assert ts[1..][i] == ts[i + 1];
        }
      }
      LexRender(ts[1..]);
      assert [t] + ts[1..] == ts;
    }
  }

  /** A decimal literal denotes its value. */
  lemma LexDecimal(n: nat)
    ensures Lex(Digits(n, 10)) == Some([Num(n)])
  {
    var s := Digits(n, 10);
    DecimalRun(n);
    assert !IsSpace(s[0]) && s[0] != '/' && !IsIdentStart(s[0]);
    assert Scan(s) == Some((Num(n), []));
    assert [Num(n)] + [] == [Num(n)];
  }

  /** The digits of a number, scanned as a number, are that number and
      nothing after it. */
  lemma DecimalRun(n: nat)
    ensures Digits(n, 10) != [] && IsDecimalDigit(Digits(n, 10)[0])
    ensures ScanNumber(Digits(n, 10)) == Some((Num(n), []))
  {
    var s := Digits(n, 10);
    SpanOfRun(s, [], DigitsOf(10));
    assert s + [] == s;
    assert s[..|s|] == s;
    DigitsValueOfDigits(n, 10);
    assert IsDecimalDigit(s[0]);
    if |s| >= 2 {
      assert IsDecimalDigit(s[1]);
    }
    assert s[|s|..] == [];
    assert DigitRun(s, 10) == Some((Num(n), []));
  }

  /** A `0x` literal denotes the value of its hexadecimal digits. */
  lemma LexHexadecimal(n: nat)
    ensures Lex("0x" + Digits(n, 16)) == Some([Num(n)])
  {
    PrefixedLiteral(n, 'x', 16);
  }

  /** A `0b` literal denotes the value of its binary digits. */
  lemma LexBinary(n: nat)
    ensures Lex("0b" + Digits(n, 2)) == Some([Num(n)])
  {
    PrefixedLiteral(n, 'b', 2);
  }

  lemma PrefixedLiteral(n: nat, marker: char, base: nat)
    requires (marker == 'x' && base == 16) || (marker == 'b' && base == 2)
    ensures Lex(['0', marker] + Digits(n, base)) == Some([Num(n)])
  {
    var ds := Digits(n, base);
    var s := ['0', marker] + ds;
    assert s[2..] == ds;
    SpanOfRun(ds, [], DigitsOf(base));
    assert ds + [] == ds;
    assert ds[..|ds|] == ds;
    DigitsValueOfDigits(n, base);
    assert ds[|ds|..] == [];
    assert DigitRun(ds, base) == Some((Num(n), []));
    assert Scan(s) == Some((Num(n), []));
    assert !IsSpace(s[0]) && s[0] != '/';
    assert [Num(n)] + [] == [Num(n)];
  }

  /** ---- Lexing text piece by piece ---- */

  /** Whitespace in front of the text is skipped. */
  lemma LexSkip(c: char, rest: string)
    requires IsSpace(c)
    ensures Lex([c] + rest) == Lex(rest)
  {
    assert ([c] + rest)[1..] == rest;
  }

  /** A token's spelling, followed by text that does not glue onto it,
      lexes to that token and then the tokens of the text. */
  lemma LexToken(t: Token, rest: string, ts: seq<Token>)
    requires Renderable(t) && Separated(t, rest)
    requires Lex(rest) == Some(ts)
    ensures Lex(TokenText(t) + rest) == Some([t] + ts)
  {
    var s := TokenText(t) + rest;
    TokenTextStart(t);
    ScanTokenText(t, rest);
    assert s[0] == TokenText(t)[0];
  }

  /** `0x` or `0b` followed by digits of that base, not running on into an
      identifier character, is one integer token. */
  lemma ScanPrefixed(marker: char, base: nat, ds: string, rest: string)
    requires (marker == 'x' && base == 16) || (marker == 'b' && base == 2)
    requires |ds| > 0 && forall i :: 0 <= i < |ds| ==> IsDigitIn(ds[i], base)
    requires rest == [] || !IsIdentChar(rest[0])
    ensures Scan(['0', marker] + ds + rest) == Some((Num(DigitsValue(ds, base)), rest))
  {
    var s := ['0', marker] + ds + rest;
    assert s[2..] == ds + rest;
    SpanOfRun(ds, rest, DigitsOf(base));
    assert (ds + rest)[..|ds|] == ds;
    assert (ds + rest)[|ds|..] == rest;
    assert DigitRun(ds + rest, base) == Some((Num(DigitsValue(ds, base)), rest));
  }

  lemma LexPrefixed(marker: char, base: nat, ds: string, rest: string, ts: seq<Token>)
    requires (marker == 'x' && base == 16) || (marker == 'b' && base == 2)
    requires |ds| > 0 && forall i :: 0 <= i < |ds| ==> IsDigitIn(ds[i], base)
    requires rest == [] || !IsIdentChar(rest[0])
    requires Lex(rest) == Some(ts)
    ensures Lex(['0', marker] + ds + rest) == Some([Num(DigitsValue(ds, base))] + ts)
  {
    ScanPrefixed(marker, base, ds, rest);
  }

  /** A run of whitespace in front of the text is skipped. */
  lemma {:induction false} LexSpaces(ws: string, rest: string)
    requires forall i :: 0 <= i < |ws| ==> IsSpace(ws[i])
    ensures Lex(ws + rest) == Lex(rest)
    decreases |ws|
  {
    if ws != [] {
      assert ws + rest == [ws[0]] + (ws[1..] + rest);
      LexSkip(ws[0], ws[1..] + rest);
      LexSpaces(ws[1..], rest);
    } else {
      assert ws + rest == rest;
    }
  }

  /** Decimal digits, not running on into an identifier character, are one
      integer token. */
  lemma LexDigits(ds: string, rest: string, ts: seq<Token>)
    requires |ds| > 0 && forall i :: 0 <= i < |ds| ==> IsDecimalDigit(ds[i])
    requires rest == [] || !IsIdentChar(rest[0])
    requires Lex(rest) == Some(ts)
    ensures Lex(ds + rest) == Some([Num(DigitsValue(ds, 10))] + ts)
  {
    var s := ds + rest;
    assert s[0] == ds[0];
    if |s| >= 2 {
      assert s[1] == (if |ds| >= 2 then ds[1] else rest[0]);
    }
    SpanOfRun(ds, rest, DigitsOf(10));
    assert s[..|ds|] == ds;
    assert s[|ds|..] == rest;
    assert DigitRun(s, 10) == Some((Num(DigitsValue(ds, 10)), rest));
    assert Scan(s) == Some((Num(DigitsValue(ds, 10)), rest));
  }

  /** ---- Written text, piece by piece ----
      A source text described as a run of pieces: whitespace, the spelling
      of a token, or an integer literal as written (decimal, `0x` or `0b`,
      leading zeros allowed). */
  datatype Piece = Blank(ws: string) | Word(t: Token) | Decimal(ds: string) | Prefixed(marker: char, ds: string)

  function MarkerBase(marker: char): nat {
    if marker == 'x' then 16 else 2
  }

  function PieceText(p: Piece): string {
    match p
    case Blank(ws) => ws
    case Word(t) => TokenText(t)
    case Decimal(ds) => ds
    case Prefixed(marker, ds) => ['0', marker] + ds
  }

  function PieceTokens(p: Piece): seq<Token> {
    match p
    case Blank(_) => []
    case Word(t) => [t]
    case Decimal(ds) => [Num(DigitsValue(ds, 10))]
    case Prefixed(marker, ds) => [Num(DigitsValue(ds, MarkerBase(marker)))]
  }

  /** The piece is well formed and the text after it cannot glue onto it. */
  predicate PieceOk(p: Piece, next: string) {
    match p
    case Blank(ws) => forall i :: 0 <= i < |ws| ==> IsSpace(ws[i])
    case Word(t) => Renderable(t) && Separated(t, next)
    case Decimal(ds) =>
      && |ds| > 0 && (forall i :: 0 <= i < |ds| ==> IsDecimalDigit(ds[i]))
      && (next == [] || !IsIdentChar(next[0]))
    case Prefixed(marker, ds) =>
      && (marker == 'x' || marker == 'b')
      && |ds| > 0 && (forall i :: 0 <= i < |ds| ==> IsDigitIn(ds[i], MarkerBase(marker)))
      && (next == [] || !IsIdentChar(next[0]))
  }

  /** A run of pieces, written front to back. */
  datatype Run = Done | Then(piece: Piece, more: Run)

  function RunText(r: Run): string {
    match r
    case Done => ""
    case Then(p, m) => PieceText(p) + RunText(m)
  }

  function RunTokens(r: Run): seq<Token> {
    match r
    case Done => []
    case Then(p, m) => PieceTokens(p) + RunTokens(m)
  }

  /** Every piece of the run is well formed and separated from what follows
      it, the last one from `rest`. */
  predicate RunOk(r: Run, rest: string) {
    match r
    case Done => true
    case Then(p, m) => PieceOk(p, RunText(m) + rest) && RunOk(m, rest)
  }

  /** One piece in front of text whose tokens are known. */
  lemma LexPiece(p: Piece, next: string, ts: seq<Token>)
    requires PieceOk(p, next)
    requires Lex(next) == Some(ts)
    ensures Lex(PieceText(p) + next) == Some(PieceTokens(p) + ts)
  {
    match p
    case Blank(ws) =>
      LexSpaces(ws, next);
      assert PieceTokens(p) + ts == ts;
    case Word(t) =>
      LexToken(t, next, ts);
    case Decimal(ds) =>
      LexDigits(ds, next, ts);
    case Prefixed(marker, ds) =>
      LexPrefixed(marker, MarkerBase(marker), ds, next, ts);
  }

  /** A run of well-formed pieces lexes to the pieces' tokens. */
  lemma {:induction false} LexRun(r: Run, rest: string, ts: seq<Token>)
    requires RunOk(r, rest)
    requires Lex(rest) == Some(ts)
    ensures Lex(RunText(r) + rest) == Some(RunTokens(r) + ts)
  {
    match r
    case Done =>
      assert RunText(r) + rest == rest;
      assert RunTokens(r) + ts == ts;
    case Then(p, m) =>
      LexRun(m, rest, ts);
      LexPiece(p, RunText(m) + rest, RunTokens(m) + ts);
      Assoc(PieceText(p), RunText(m), rest);
      Assoc(PieceTokens(p), RunTokens(m), ts);
  }
}
