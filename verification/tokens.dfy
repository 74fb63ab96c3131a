/** The tokens of the racr language and their spelling. */
module Tokens {
  import opened Options
  import opened Literals

  datatype Keyword =
    | KwMod | KwUse | KwAs
    | KwRegister | KwEnum | KwReserved | KwField
    | KwPeripheral | KwDevice
    | KwRo | KwWo | KwRw | KwRaw

  datatype Token =
    | Id(name: string)
    | Kw(keyword: Keyword)
    | Num(value: nat)
    | Str(text: string)
    | PathSep | Colon | Semi | Comma | Eq | DotDot | At | Pipe | Hash
    | LBrace | RBrace | LBracket | RBracket | LParen | RParen

  function KeywordText(k: Keyword): string {
    match k
    case KwMod => "mod"
    case KwUse => "use"
    case KwAs => "as"
    case KwRegister => "register"
    case KwEnum => "enum"
    case KwReserved => "reserved"
    case KwField => "field"
    case KwPeripheral => "peripheral"
    case KwDevice => "device"
    case KwRo => "ro"
    case KwWo => "wo"
    case KwRw => "rw"
    case KwRaw => "raw"
  }

  /** Promotes an identifier spelling to the keyword spelled that way, if any. */
  function KeywordOf(w: string): (r: Option<Keyword>)
    ensures r.Some? ==> KeywordText(r.value) == w
    ensures r.None? ==> forall k :: KeywordText(k) != w
  {
    if w == "mod" then Some(KwMod)
    else if w == "use" then Some(KwUse)
    else if w == "as" then Some(KwAs)
    else if w == "register" then Some(KwRegister)
    else if w == "enum" then Some(KwEnum)
    else if w == "reserved" then Some(KwReserved)
    else if w == "field" then Some(KwField)
    else if w == "peripheral" then Some(KwPeripheral)
    else if w == "device" then Some(KwDevice)
    else if w == "ro" then Some(KwRo)
    else if w == "wo" then Some(KwWo)
    else if w == "rw" then Some(KwRw)
    else if w == "raw" then Some(KwRaw)
    else None
  }

  /** Every keyword is spelled as an identifier and is promoted back to itself. */
  lemma KeywordSpelling(k: Keyword)
    ensures IsIdentifier(KeywordText(k))
    ensures KeywordOf(KeywordText(k)) == Some(k)
  {
  }

  /** The source spelling of a token; integers are spelled in decimal. */
  function TokenText(t: Token): string {
    match t
    case Id(name) => name
    case Kw(k) => KeywordText(k)
    case Num(v) => Digits(v, 10)
    case Str(text) => "\"" + text + "\""
    case PathSep => "::"
    case Colon => ":"
    case Semi => ";"
    case Comma => ","
    case Eq => "="
    case DotDot => ".."
    case At => "@"
    case Pipe => "|"
    case Hash => "#"
    case LBrace => "{"
    case RBrace => "}"
    case LBracket => "["
    case RBracket => "]"
    case LParen => "("
    case RParen => ")"
  }

  /** A token the lexer can produce: identifiers are well-formed and are not
      keyword spellings, strings hold no quote character. */
  predicate Renderable(t: Token) {
    match t
    case Id(name) => IsIdentifier(name) && KeywordOf(name).None?
    case Str(text) => forall i :: 0 <= i < |text| ==> text[i] != '"'
    case _ => true
  }

  predicate AllRenderable(ts: seq<Token>) {
    forall i :: 0 <= i < |ts| ==> Renderable(ts[i])
  }

  /** Source text for a token sequence: each token followed by one space. */
  function Render(ts: seq<Token>): string
    decreases |ts|
  {
    if ts == [] then "" else TokenText(ts[0]) + " " + Render(ts[1..])
  }
}
