/**
  How the facts about the pieces of a query add up to the whole query: the
  closing braces as one piece, then the brace shape and the token tallies of
  the whole token sequence, and `Spelling`, which ties them to the text
  `Build` returns.

  The small `...Sum` lemmas (`QuerySum`, `WrapSum`, `NestedSum`) and
  `TallySums` each do one step of `Profile` or tally arithmetic. Keeping that
  arithmetic in lemmas of its own keeps it out of the larger proof
  obligations that compose the pieces, and `TallySums` states its goals in
  the exact form `QueryCounted` produces them (`0 + ... + 0` included) so
  that they match without further rewriting.
 */
module QueryAssembly {
  import opened Braces
  import opened Results
  import opened Lexicon
  import opened Scan
  import opened Query
  import opened QueryParts
  import opened QueryFacts

  // ---------------------------------------------------------------------------
  // The closing braces as one piece

  lemma TailShape(v: Variant, joins: int)
    ensures Shape(Tail(v, joins)) == Closed(ClosingBraces(v, joins))
  {
    if v == NestedLeft {
      NestedTail(joins);
    } else {
      PlainTailSplit(v, joins);
      FirstCloserShape();
    }
  }

  lemma NestedTail(joins: int)
    ensures Shape(Tail(NestedLeft, joins)) == Closed(1 + ClosingCount(joins))
  {
    var m := ClosingCount(joins);
    var c := Concat(Closers(m));
    NestedTailSplit(joins);
    ClosersShape(m);
    ClosersAfter([Newline, CloseBrace], [PatternBreak], c, m);
  }

  /** `}`, a line break, and then closers of `m` groups close `1 + m` groups. */
  lemma ClosersAfter(a: seq<Token>, b: seq<Token>, c: seq<Token>, m: nat)
    requires a == [Newline, CloseBrace] && b == [PatternBreak] && Shape(c) == Closed(m)
    ensures Shape(a + (b + c)) == Closed(1 + m)
  {
    ShapeSingle(a, 1);
    ShapeBraceFree(b);
    NestedTailShape(a, b, c, m);
  }

  lemma TailCounted(v: Variant, joins: int, k: Token)
    requires Counted(k)
    ensures Tally(Tail(v, joins), k) == if k == CloseBrace then ClosingBraces(v, joins) else 0
  {
    if v == NestedLeft {
      NestedTailTally(joins, k);
    } else {
      PlainTailSplit(v, joins);
      TallyIsMultiplicity([Newline, CloseBrace], k);
    }
  }

  lemma NestedTailTally(joins: int, k: Token)
    requires Counted(k)
    ensures Tally(Tail(NestedLeft, joins), k) == if k == CloseBrace then 1 + ClosingCount(joins) else 0
  {
    var m := ClosingCount(joins);
    NestedTailSplit(joins);
    ClosersCounted(m, k);
    NestedTailCounted(Concat(Closers(m)), m, k);
  }

  // ---------------------------------------------------------------------------
  // The whole query

  lemma QueryShape(v: Variant, limit: int, joins: int)
    requires FragmentCount(joins) <= |ExtraQueries(v)|
    ensures Shape(QueryTokens(v, limit, joins)) == QueryProfile(v, joins)
  {
    var h, b, t, l := Head(joins), Body(v, FragmentCount(joins)), Tail(v, joins), LimitLine(limit);
    HeadPlain(joins);
    PlainShape(h);
    BodyShape(v, FragmentCount(joins));
    TailShape(v, joins);
    LimitPlain(limit);
    PlainShape(l);
    ShapeAppend3(h, b, t);
    ShapeAppend(h + b + t, l);
    QuerySum(Shape(h), Shape(b), Shape(t), Shape(l), v, joins);
  }

  lemma QuerySum(h: Profile, b: Profile, t: Profile, l: Profile, v: Variant, joins: int)
    requires h == Flat && l == Flat
    requires b == BodyProfile(v, FragmentCount(joins)) && t == Closed(ClosingBraces(v, joins))
    ensures h.Then(b).Then(t).Then(l) == QueryProfile(v, joins)
  {
    if v == NestedLeft {
      NestedQuerySum(h, b, t, l, joins);
    } else {
      var d := if v == Inner then 1 else 2;
      WrapSum(h, b, t, l, Profile(1, d, 0), d);
    }
  }

  lemma NestedQuerySum(h: Profile, b: Profile, t: Profile, l: Profile, joins: int)
    requires h == Flat && l == Flat
    requires b == BodyProfile(NestedLeft, FragmentCount(joins)) && t == Closed(ClosingBraces(NestedLeft, joins))
    ensures h.Then(b).Then(t).Then(l) == QueryProfile(NestedLeft, joins)
  {
    var f, c := FragmentCount(joins), ClosingCount(joins);
    if joins >= 1 {
      assert f == joins - 1 && c == joins;
      NestedSum(h, b, t, l, f, c);
    } else {
      assert f == 0 && c == 0;
      NestedSum(h, b, t, l, f, c);
    }
  }

  /** A WHERE clause reaching depth `d` whose one group is closed again. */
  lemma WrapSum(h: Profile, b: Profile, t: Profile, l: Profile, p: Profile, d: int)
    requires d >= 1 && p == Profile(1, d, 0)
    requires h == Flat && l == Flat && b == p && t == Closed(1)
    ensures h.Then(b).Then(t).Then(l) == Profile(0, d, 0)
  {
    var hb := h.Then(b);
    assert hb == p;
    var hbt := hb.Then(t);
    assert hbt == Profile(0, d, 0);
  }

  /** The nested builder: `f` open fragments after the WHERE group and the first, then `1 + c` closers. */
  lemma NestedSum(h: Profile, b: Profile, t: Profile, l: Profile, f: nat, c: nat)
    requires c <= f + 1
    requires h == Flat && l == Flat && b == Profile(2 + f, 2 + f, 0) && t == Closed(1 + c)
    ensures h.Then(b).Then(t).Then(l) == Profile(1 + f - c, 2 + f, 0)
  {
    var hb := h.Then(b);
    assert hb == b;
    var hbt := hb.Then(t);
    assert hbt == Profile(1 + f - c, 2 + f, 0);
  }

  /**
    How often a whole query holds the counted token `k`: the WHERE clause's own
    `{`, one of each token a join fragment holds per join (the first join
    included), and the closing braces.
   */
  lemma QueryCounted(v: Variant, limit: int, joins: int, k: Token)
    requires FragmentCount(joins) <= |ExtraQueries(v)| && Counted(k)
    ensures Tally(QueryTokens(v, limit, joins), k)
         == (if k == OpenBrace then 1 else 0)
          + (if Holds(v, k) then 1 + FragmentCount(joins) else 0)
          + (if k == CloseBrace then ClosingBraces(v, joins) else 0)
  {
    var h, b, t, l := Head(joins), Body(v, FragmentCount(joins)), Tail(v, joins), LimitLine(limit);
    HeadPlain(joins);
    PlainCounted(h, k);
    BodyCounted(v, FragmentCount(joins), k);
    TailCounted(v, joins, k);
    LimitPlain(limit);
    PlainCounted(l, k);
    TallyAppend3(h, b, t, k);
    TallyAppend(h + b + t, l, k);
  }

  /**
    The text a builder returns is spelled by a token sequence with the query's
    brace shape, holding WHERE's `{` and one group per join in the left joins,
    WHERE's `}` and the builder's closers, and one separator (inner join) or
    one `OPTIONAL` (left joins) per join.
   */
  lemma Spelling(v: Variant, limit: int, joins: int) returns (ts: seq<Token>)
    requires FragmentCount(joins) <= |ExtraQueries(v)|
    ensures Build(v, limit, joins) == Success(TextOf(ts))
    ensures Shape(ts) == QueryProfile(v, joins)
    ensures Tally(ts, OpenBrace) == 1 + (if v == Inner then 0 else Max(joins, 1))
    ensures Tally(ts, CloseBrace) == 1 + (match v case Inner => 0 case SequentialLeft => Max(joins, 1) case NestedLeft => Max(joins, 0))
    ensures Tally(ts, Dot) == if v == Inner then Max(joins, 1) else 0
    ensures Tally(ts, OptionalKw) == if v == Inner then 0 else Max(joins, 1)
  {
    ts := QueryTokens(v, limit, joins);
    BuildSpells(v, limit, joins);
    QueryShape(v, limit, joins);
    QueryCounted(v, limit, joins, OpenBrace);
    QueryCounted(v, limit, joins, CloseBrace);
    QueryCounted(v, limit, joins, Dot);
    QueryCounted(v, limit, joins, OptionalKw);
    TallySums(v, joins);
  }

  /** The tallies of `QueryCounted`, token by token. */
  lemma TallySums(v: Variant, joins: int)
    ensures 1 + (if Holds(v, OpenBrace) then 1 + FragmentCount(joins) else 0) + 0
         == 1 + (if v == Inner then 0 else Max(joins, 1))
    ensures 0 + (if Holds(v, CloseBrace) then 1 + FragmentCount(joins) else 0) + ClosingBraces(v, joins)
         == 1 + (match v case Inner => 0 case SequentialLeft => Max(joins, 1) case NestedLeft => Max(joins, 0))
    ensures 0 + (if Holds(v, Dot) then 1 + FragmentCount(joins) else 0) + 0 == if v == Inner then Max(joins, 1) else 0
    ensures 0 + (if Holds(v, OptionalKw) then 1 + FragmentCount(joins) else 0) + 0 == if v == Inner then 0 else Max(joins, 1)
  {
  }
}
