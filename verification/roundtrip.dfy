/** The grammar reads back what the printer writes: for every valid node
    `x` and any tokens `tail` that may legally follow it, the rule for `x`
    applied to `Print(x) + tail` returns `x` and leaves exactly `tail`.
    For the constructs with a single spelling (paths, use trees, use
    statements) the converse holds too: whatever the rule reads is the
    printed form of its result. */
module RoundTrip {
  import opened Options
  import opened Tokens
  import opened Ast
  import opened Printer
  import opened Grammar
  import opened Seqs

  lemma AccessRoundTrip(a: Access, tail: seq<Token>)
    ensures AccessRule(PrintAccess(a) + tail) == Some(Parsed(a, tail))
  {
  }

  /** The four access keywords and the four access values correspond one to one. */
  lemma AccessKeywordInjective(a: Access, b: Access)
    ensures AccessKeyword(a) == AccessKeyword(b) <==> a == b
  {
  }

  /** ---- Paths ---- */

  lemma PrintSegmentsCons(segments: seq<string>)
    requires segments != []
    ensures PrintSegments(segments) == [Id(segments[0])] + MoreSegments(segments[1..])
  {
  }

  lemma MoreSegmentsCons(segments: seq<string>)
    requires segments != []
    ensures MoreSegments(segments) == [PathSep, Id(segments[0])] + MoreSegments(segments[1..])
  {
  }

  lemma PathTailCons(segment: string, inner: seq<Token>)
    ensures PathTail([PathSep, Id(segment)] + inner)
         == match PathTail(inner)
            case None => None
            case Some(m) => Some(Parsed([segment] + m.node, m.rest))
  {
    var ts := [PathSep, Id(segment)] + inner;
    assert ts[1..][1..] == inner;
  }

  lemma {:induction false} SegmentsRoundTrip(segments: seq<string>, tail: seq<Token>)
    requires tail == [] || tail[0] != PathSep
    ensures PathTail(MoreSegments(segments) + tail) == Some(Parsed(segments, tail))
    decreases |segments|
  {
    if segments == [] {
      assert MoreSegments(segments) + tail == tail;
    } else {
      var more := segments[1..];
      MoreSegmentsCons(segments);
      Assoc([PathSep, Id(segments[0])], MoreSegments(more), tail);
      PathTailCons(segments[0], MoreSegments(more) + tail);
      SegmentsRoundTrip(more, tail);
      assert [segments[0]] + more == segments;
    }
  }

  /** A path reads back with its segments in source order. */
  lemma PathRoundTrip(p: Path, tail: seq<Token>)
    requires p.Valid()
    requires tail == [] || tail[0] != PathSep
    ensures PathRule(PrintPath(p) + tail) == Some(Parsed(p, tail))
  {
    var segments := p.segments;
    PrintSegmentsCons(segments);
    Assoc([Id(segments[0])], MoreSegments(segments[1..]), tail);
    SegmentsRoundTrip(segments[1..], tail);
    assert [segments[0]] + segments[1..] == segments;
  }

  lemma {:induction false} PathTailSpelling(ts: seq<Token>)
    requires PathTail(ts).Some?
    ensures ts == MoreSegments(PathTail(ts).value.node) + PathTail(ts).value.rest
    decreases |ts|
  {
    if ts != [] && ts[0] == PathSep {
      var inner := ts[2..];
      assert ts == [PathSep, Id(ts[1].name)] + inner;
      PathTailCons(ts[1].name, inner);
      PathTailSpelling(inner);
      var m := PathTail(inner).value;
      MoreSegmentsCons([ts[1].name] + m.node);
      assert ([ts[1].name] + m.node)[1..] == m.node;
      Assoc([PathSep, Id(ts[1].name)], MoreSegments(m.node), m.rest);
    }
  }

  /** Whatever the path rule reads is the printed form of the path it returns. */
  lemma PathSpelling(ts: seq<Token>)
    requires PathRule(ts).Some?
    ensures ts == PrintPath(PathRule(ts).value.node) + PathRule(ts).value.rest
  {
    var m := PathTail(ts[1..]).value;
    PathTailSpelling(ts[1..]);
    PrintSegmentsCons([ts[0].name] + m.node);
    assert ([ts[0].name] + m.node)[1..] == m.node;
    Assoc([Id(ts[0].name)], MoreSegments(m.node), m.rest);
  }

  /** ---- Use trees ---- */

  lemma {:induction false} UseTreeRoundTrip(t: UseTree, tail: seq<Token>)
    requires tail == [] || (tail[0] != PathSep && tail[0] != Kw(KwAs))
    ensures UseTreeRule(PrintUseTree(t) + tail) == Some(Parsed(t, tail))
  {
    match t
    case Ident(name) =>
    case Path(segment, sub) =>
      var inner := PrintUseTree(sub) + tail;
      Assoc([Id(segment), PathSep], PrintUseTree(sub), tail);
      assert ([Id(segment), PathSep] + inner)[1..][1..] == inner;
      UseTreeRoundTrip(sub, tail);
    case Rename(ident, rename) =>
      assert ([Id(ident), Kw(KwAs), Id(rename)] + tail)[1..][1..][1..] == tail;
  }

  lemma {:induction false} UseTreeSpelling(ts: seq<Token>)
    requires UseTreeRule(ts).Some?
    ensures ts == PrintUseTree(UseTreeRule(ts).value.node) + UseTreeRule(ts).value.rest
    decreases |ts|
  {
    var after := ts[1..];
    if after != [] && after[0] == PathSep {
      UseTreeSpelling(after[1..]);
      var sub := UseTreeRule(after[1..]).value;
      assert ts == [Id(ts[0].name), PathSep] + after[1..];
      Assoc([Id(ts[0].name), PathSep], PrintUseTree(sub.node), sub.rest);
    } else if after != [] && after[0] == Kw(KwAs) {
      assert ts == [Id(ts[0].name), Kw(KwAs), Id(after[1].name)] + after[2..];
    } else {
      assert ts == [Id(ts[0].name)] + after;
    }
  }

  /** `use` statements read back whole. */
  lemma UseRoundTrip(u: Use, tail: seq<Token>)
    ensures UseRule(PrintUse(u) + tail) == Some(Parsed(u, tail))
  {
    var inner := PrintUseTree(u.tree) + ([Semi] + tail);
    assert PrintUse(u) + tail == [Kw(KwUse)] + inner;
    assert ([Kw(KwUse)] + inner)[1..] == inner;
    UseTreeRoundTrip(u.tree, [Semi] + tail);
  }

  lemma UseSpelling(ts: seq<Token>)
    requires UseRule(ts).Some?
    ensures ts == PrintUse(UseRule(ts).value.node) + UseRule(ts).value.rest
  {
    UseTreeSpelling(ts[1..]);
    var tree := UseTreeRule(ts[1..]).value;
    assert tree.rest == [Semi] + tree.rest[1..];
    assert ts == [Kw(KwUse)] + PrintUseTree(tree.node) + [Semi] + tree.rest[1..];
  }

  /** ---- Attributes, bit ranges and lists ---- */

  /** An attribute attaches to what follows it; without one the result is None. */
  lemma DocRoundTrip(doc: Option<string>, rest: seq<Token>)
    requires rest == [] || rest[0] != Hash
    ensures DocRule(PrintDoc(doc) + rest) == Parsed(doc, rest)
  {
    if doc.Some? {
      assert (PrintDoc(doc) + rest)[6..] == rest;
    }
  }

  lemma OptAccessRoundTrip(access: Option<Access>, rest: seq<Token>)
    requires rest == [] || !rest[0].Kw? || rest[0].keyword !in {KwRo, KwWo, KwRw, KwRaw}
    ensures OptAccessRule(PrintOptAccess(access) + rest) == Parsed(access, rest)
  {
  }

  /** `[N]` reads as `N..N+1` and `[N..M]` as `N..M`. */
  lemma BitsRoundTrip(b: BitRange, tail: seq<Token>)
    requires b.Valid()
    ensures BitsRule(PrintBits(b) + tail) == Some(Parsed(b, tail))
  {
    var ts := PrintBits(b) + tail;
    if b.end == b.start + 1 {
      assert ts == [LBracket, Num(b.start), RBracket] + tail;
      assert ts[1..][1..][1..] == tail;
    } else {
      assert ts == [LBracket, Num(b.start), DotDot, Num(b.end), RBracket] + tail;
      assert ts[1..][1..][1..][1..][1..] == tail;
    }
  }

  /** The two written forms of a bit range: a bare `N` is the one-bit range
      `N..N+1`; an explicit `N..M` is kept as written, and only when it is
      not empty. */
  lemma BitRangeForms(n: nat, m: nat, tail: seq<Token>)
    ensures (tail == [] || tail[0] != DotDot) ==>
              BitRangeRule([Num(n)] + tail) == Some(Parsed(BitRange(n, n + 1), tail))
    ensures BitRangeRule([Num(n), DotDot, Num(m)] + tail)
         == if n < m then Some(Parsed(BitRange(n, m), tail)) else None
  {
    assert ([Num(n)] + tail)[1..] == tail;
    var ts := [Num(n), DotDot, Num(m)] + tail;
    assert ts[1..] == [DotDot, Num(m)] + tail;
    assert ts[1..][1..] == [Num(m)] + tail;
    assert ts[1..][1..][1..] == tail;
  }

  /** A list printed with a comma after every entry reads back entry by
      entry, in source order, whenever the entry rule reads back each entry. */
  lemma {:induction false} CommaListRoundTrip<T>(
    entry: seq<Token> -> Option<Parsed<T>>, inv: T -> bool, spell: T -> seq<Token>,
    xs: seq<T>, tail: seq<Token>)
    requires forall u :: entry(u).Some? ==> |entry(u).value.rest| < |u| && inv(entry(u).value.node)
    requires forall x, t :: x in xs ==> entry(spell(x) + t) == Some(Parsed(x, t))
    requires forall x :: x in xs ==> spell(x) != [] && spell(x)[0] != RBrace
    requires tail != [] && tail[0] == RBrace
    ensures CommaList(entry, inv, PrintList(spell, xs) + tail) == Some(Parsed(xs, tail))
    decreases |xs|
  {
    if xs == [] {
      assert PrintList(spell, xs) + tail == tail;
    } else {
      var x := xs[0];
      assert x in xs;
      var inner := PrintList(spell, xs[1..]) + tail;
      var ts := spell(x) + ([Comma] + inner);
      Assoc(spell(x) + [Comma], PrintList(spell, xs[1..]), tail);
      Assoc(spell(x), [Comma], inner);
      assert PrintList(spell, xs) + tail == ts;
      assert ts[0] == spell(x)[0];
      assert entry(ts) == Some(Parsed(x, [Comma] + inner));
      assert ([Comma] + inner)[1..] == inner;
      CommaListRoundTrip(entry, inv, spell, xs[1..], tail);
      assert [x] + xs[1..] == xs;
    }
  }

  /** The same list between braces. */
  lemma BracedListRoundTrip<T>(
    entry: seq<Token> -> Option<Parsed<T>>, inv: T -> bool, spell: T -> seq<Token>,
    xs: seq<T>, tail: seq<Token>)
    requires forall u :: entry(u).Some? ==> |entry(u).value.rest| < |u| && inv(entry(u).value.node)
    requires forall x, t :: x in xs ==> entry(spell(x) + t) == Some(Parsed(x, t))
    requires forall x :: x in xs ==> spell(x) != [] && spell(x)[0] != RBrace
    ensures BracedList(entry, inv, Braced(PrintList(spell, xs)) + tail) == Some(Parsed(xs, tail))
  {
    var inner := PrintList(spell, xs) + ([RBrace] + tail);
    assert Braced(PrintList(spell, xs)) + tail == [LBrace] + inner;
    assert ([LBrace] + inner)[1..] == inner;
    CommaListRoundTrip(entry, inv, spell, xs, [RBrace] + tail);
  }

  /** A list whose last entry `y` carries no comma reads back just as well:
      the rule stops after `y` because no comma follows it. */
  lemma {:induction false} CommaListNoTrailing<T>(
    entry: seq<Token> -> Option<Parsed<T>>, inv: T -> bool, spell: T -> seq<Token>,
    xs: seq<T>, y: T, tail: seq<Token>)
    requires forall u :: entry(u).Some? ==> |entry(u).value.rest| < |u| && inv(entry(u).value.node)
    requires forall x, t :: x in xs ==> entry(spell(x) + t) == Some(Parsed(x, t))
    requires forall x :: x in xs ==> spell(x) != [] && spell(x)[0] != RBrace
    requires forall t :: entry(spell(y) + t) == Some(Parsed(y, t))
    requires spell(y) != [] && spell(y)[0] != RBrace
    requires tail == [] || tail[0] != Comma
    ensures CommaList(entry, inv, PrintList(spell, xs) + (spell(y) + tail)) == Some(Parsed(xs + [y], tail))
    decreases |xs|
  {
    var last := spell(y) + tail;
    if xs == [] {
      assert PrintList(spell, xs) + last == last;
      assert last[0] == spell(y)[0];
      assert entry(last) == Some(Parsed(y, tail));
      assert xs + [y] == [y];
    } else {
      var x := xs[0];
      assert x in xs;
      var inner := PrintList(spell, xs[1..]) + last;
      var ts := spell(x) + ([Comma] + inner);
      Assoc(spell(x) + [Comma], PrintList(spell, xs[1..]), last);
      Assoc(spell(x), [Comma], inner);
      assert PrintList(spell, xs) + last == ts;
      assert ts[0] == spell(x)[0];
      assert entry(ts) == Some(Parsed(x, [Comma] + inner));
      assert ([Comma] + inner)[1..] == inner;
      CommaListNoTrailing(entry, inv, spell, xs[1..], y, tail);
      assert [x] + (xs[1..] + [y]) == xs + [y];
    }
  }

  /** The same list between braces, with no comma before the closing brace. */
  lemma BracedListNoTrailing<T>(
    entry: seq<Token> -> Option<Parsed<T>>, inv: T -> bool, spell: T -> seq<Token>,
    xs: seq<T>, y: T, tail: seq<Token>)
    requires forall u :: entry(u).Some? ==> |entry(u).value.rest| < |u| && inv(entry(u).value.node)
    requires forall x, t :: x in xs ==> entry(spell(x) + t) == Some(Parsed(x, t))
    requires forall x :: x in xs ==> spell(x) != [] && spell(x)[0] != RBrace
    requires forall t :: entry(spell(y) + t) == Some(Parsed(y, t))
    requires spell(y) != [] && spell(y)[0] != RBrace
    ensures BracedList(entry, inv, [LBrace] + (PrintList(spell, xs) + (spell(y) + ([RBrace] + tail))))
         == Some(Parsed(xs + [y], tail))
  {
    var inner := PrintList(spell, xs) + (spell(y) + ([RBrace] + tail));
    assert ([LBrace] + inner)[1..] == inner;
    CommaListNoTrailing(entry, inv, spell, xs, y, [RBrace] + tail);
  }
}
