/**
  The brace shape and the keyword counts of the token pieces a query is built
  from (`QueryParts`). `QueryAssembly` adds them up over the whole query.

  The `...Sum` lemmas (`OptionalSum`, `FragmentsSum` and its per-variant
  cases, `BodySum`) each do one step of `Profile` arithmetic for a caller
  that composes the shapes of token sequences, so that the arithmetic stays
  out of the larger proof obligation.
 */
module QueryFacts {
  import opened Braces
  import opened Results
  import opened Lexicon
  import opened Scan
  import opened Query
  import opened QueryParts

  // ---------------------------------------------------------------------------
  // From the parts list to one token sequence

  lemma ConcatBody(v: Variant, joins: int)
    requires FragmentCount(joins) <= |ExtraQueries(v)|
    ensures Concat(BodyParts(v, joins)) == Body(v, FragmentCount(joins))
  {
    var parts := BodyParts(v, joins);
    assert parts[1..] == ExtraQueries(v)[..FragmentCount(joins)];
  }

  lemma ConcatLimit(limit: int)
    ensures Concat([LimitLine(limit)]) == LimitLine(limit)
  {
    assert [LimitLine(limit)][1..] == [];
  }

  /** The tokens of the builder's parts list, concatenated, are the query's tokens. */
  lemma ConcatParts(v: Variant, limit: int, joins: int)
    requires FragmentCount(joins) <= |ExtraQueries(v)|
    ensures Concat(PartTokens(v, limit, joins)) == QueryTokens(v, limit, joins)
  {
    var h, b, c, l := HeadParts(joins), BodyParts(v, joins), Closing(v, joins), [LimitLine(limit)];
    ConcatAppend(h + b + c, l);
    ConcatAppend(h + b, c);
    ConcatAppend(h, b);
    ConcatBody(v, joins);
    ConcatLimit(limit);
  }

  /** The joined parts list spells the query's tokens. */
  lemma BuildSpells(v: Variant, limit: int, joins: int)
    requires FragmentCount(joins) <= |ExtraQueries(v)|
    ensures Build(v, limit, joins) == Success(TextOf(QueryTokens(v, limit, joins)))
  {
    JoinTexts(PartTokens(v, limit, joins));
    ConcatParts(v, limit, joins);
  }

  // ---------------------------------------------------------------------------
  // Tokens without braces and keywords

  lemma PlainShape(ts: seq<Token>)
    requires Plain(ts)
    ensures Shape(ts) == Flat
  {
    ShapeBraceFree(ts);
  }

  lemma PlainCounted(ts: seq<Token>, k: Token)
    requires Plain(ts) && Counted(k)
    ensures Tally(ts, k) == 0
  {
    TallyZero(ts, k);
  }

  lemma HeadPlain(joins: int)
    ensures Plain(Head(joins))
  {
    var parts := HeadParts(joins);
    forall t | t in [OpenBrace, CloseBrace, Dot, OptionalKw]
      ensures t !in Head(joins)
    {
      ConcatMembers(parts, t);
      forall i | 0 <= i < |parts|
        ensures t !in parts[i]
      {
        if 0 < i < |parts| - 1 {
          assert parts[i] == SelectParts(joins)[i - 1];
        }
      }
    }
  }

  lemma LimitPlain(limit: int)
    ensures Plain(LimitLine(limit))
  {
  }

  // ---------------------------------------------------------------------------
  // The OPTIONAL groups

  lemma OpenOptionalShape(t: Triple)
    ensures Shape(OpenOptional(t)) == Profile(1, 1, 0)
  {
    ShapeSingle(OpenOptional(t), 3);
  }

  lemma OpenOptionalCounted(t: Triple, k: Token)
    requires Counted(k)
    ensures Tally(OpenOptional(t), k) == if k == OpenBrace || k == OptionalKw then 1 else 0
  {
    TallyIsMultiplicity(OpenOptional(t), k);
  }

  /** The closing ` }` of an OPTIONAL group. */
  lemma GroupCloseShape()
    ensures Shape([Space, CloseBrace]) == Closed(1)
  {
    ShapeSingle([Space, CloseBrace], 1);
  }

  lemma OptionalShape(t: Triple)
    ensures Shape(Optional(t)) == Profile(0, 1, 0)
  {
    var a, b := OpenOptional(t), [Space, CloseBrace];
    OpenOptionalShape(t);
    GroupCloseShape();
    ShapeAppend(a, b);
    OptionalSum(Shape(a), Shape(b));
  }

  lemma OptionalSum(x: Profile, y: Profile)
    requires x == Profile(1, 1, 0) && y == Closed(1)
    ensures x.Then(y) == Profile(0, 1, 0)
  {
  }

  lemma OptionalCounted(t: Triple, k: Token)
    requires Counted(k)
    ensures Tally(Optional(t), k) == if k == Dot then 0 else 1
  {
    OpenOptionalCounted(t, k);
    TallyAppend(OpenOptional(t), [Space, CloseBrace], k);
  }

  /** The inner join's ` .` followed by a pattern. */
  lemma DotCounted(t: Triple, k: Token)
    requires Counted(k)
    ensures Tally([Dot, Pattern(t)], k) == if k == Dot then 1 else 0
  {
    TallyIsMultiplicity([Dot, Pattern(t)], k);
  }

  /** The inner join's ` .` followed by an indented pattern. */
  lemma IndentedDotCounted(t: Triple, k: Token)
    requires Counted(k)
    ensures Tally([Dot, Indent, Pattern(t)], k) == if k == Dot then 1 else 0
  {
    TallyIsMultiplicity([Dot, Indent, Pattern(t)], k);
  }

  // ---------------------------------------------------------------------------
  // The extra fragments

  lemma FragmentShape(v: Variant, t: Triple)
    ensures Shape(Fragment(v, t)) == FragmentProfile(v)
  {
    match v
    case Inner => ShapeBraceFree([Dot, Pattern(t)]);
    case SequentialLeft => OptionalShape(t);
    case NestedLeft => OpenOptionalShape(t);
  }

  lemma FragmentCounted(v: Variant, t: Triple, k: Token)
    requires Counted(k)
    ensures Tally(Fragment(v, t), k) == if Holds(v, k) then 1 else 0
  {
    match v
    case Inner => DotCounted(t, k);
    case SequentialLeft => OptionalCounted(t, k);
    case NestedLeft => OpenOptionalCounted(t, k);
  }

  /** The first `n + 1` fragments are the first `n` followed by fragment `n`. */
  lemma FragmentsStep(v: Variant, n: nat)
    requires n < |ExtraQueries(v)|
    ensures Concat(ExtraQueries(v)[..n + 1]) == Concat(ExtraQueries(v)[..n]) + Fragment(v, ExtraTriples[n])
  {
    var q := ExtraQueries(v);
    assert q[..n + 1] == q[..n] + [q[n]];
    ConcatAppend(q[..n], [q[n]]);
    assert [q[n]][1..] == [];
  }

  lemma {:induction false} FragmentsShape(v: Variant, n: nat)
    requires n <= |ExtraQueries(v)|
    ensures Shape(Concat(ExtraQueries(v)[..n])) == FragmentsProfile(v, n)
    decreases n
  {
    if n == 0 {
      assert ExtraQueries(v)[..0] == [];
    } else {
      FragmentsShape(v, n - 1);
      FragmentsShapeStep(v, n - 1);
    }
  }

  lemma FragmentsShapeStep(v: Variant, n: nat)
    requires n < |ExtraQueries(v)|
    requires Shape(Concat(ExtraQueries(v)[..n])) == FragmentsProfile(v, n)
    ensures Shape(Concat(ExtraQueries(v)[..n + 1])) == FragmentsProfile(v, n + 1)
  {
    var a, b := Concat(ExtraQueries(v)[..n]), Fragment(v, ExtraTriples[n]);
    var x, y, z := FragmentsProfile(v, n), FragmentProfile(v), FragmentsProfile(v, n + 1);
    FragmentsStep(v, n);
    FragmentShape(v, ExtraTriples[n]);
    FragmentsSum(x, y, v, n);
    ShapeJoin(Concat(ExtraQueries(v)[..n + 1]), a, b, x, y, z);
  }

  lemma FragmentsSum(x: Profile, y: Profile, v: Variant, n: nat)
    requires x == FragmentsProfile(v, n) && y == FragmentProfile(v)
    ensures x.Then(y) == FragmentsProfile(v, n + 1)
  {
    if v == Inner {
      InnerFragmentsSum(x, y);
    } else if v == SequentialLeft {
      SequentialFragmentsSum(x, y, n);
    } else {
      NestedFragmentsSum(x, y, n);
    }
  }

  lemma InnerFragmentsSum(x: Profile, y: Profile)
    requires x == Flat && y == Flat
    ensures x.Then(y) == Flat
  {
  }

  lemma SequentialFragmentsSum(x: Profile, y: Profile, n: nat)
    requires x == (if n == 0 then Flat else Profile(0, 1, 0)) && y == Profile(0, 1, 0)
    ensures x.Then(y) == Profile(0, 1, 0)
  {
  }

  lemma NestedFragmentsSum(x: Profile, y: Profile, n: nat)
    requires x == Profile(n, n, 0) && y == Profile(1, 1, 0)
    ensures x.Then(y) == Profile(n + 1, n + 1, 0)
  {
  }

  lemma {:induction false} FragmentsCounted(v: Variant, n: nat, k: Token)
    requires n <= |ExtraQueries(v)| && Counted(k)
    ensures Tally(Concat(ExtraQueries(v)[..n]), k) == if Holds(v, k) then n else 0
    decreases n
  {
    if n == 0 {
      assert ExtraQueries(v)[..0] == [];
    } else {
      FragmentsCounted(v, n - 1, k);
      FragmentsStep(v, n - 1);
      FragmentCounted(v, ExtraTriples[n - 1], k);
      TallyAppend(Concat(ExtraQueries(v)[..n - 1]), Fragment(v, ExtraTriples[n - 1]), k);
    }
  }

  // ---------------------------------------------------------------------------
  // The WHERE clause

  lemma WhereOpeningShape()
    ensures Shape(WhereOpening) == Profile(1, 1, 0)
  {
    ShapeSingle(WhereOpening, 1);
  }

  lemma WhereOpeningCounted(k: Token)
    requires Counted(k)
    ensures Tally(WhereOpening, k) == if k == OpenBrace then 1 else 0
  {
    TallyIsMultiplicity(WhereOpening, k);
  }

  lemma FirstJoinShape(v: Variant, t: Triple)
    ensures Shape(FirstJoin(v, t)) == FragmentProfile(v)
  {
    match v
    case Inner => ShapeBraceFree([Dot, Indent, Pattern(t)]);
    case SequentialLeft => OptionalShape(t);
    case NestedLeft => OpenOptionalShape(t);
  }

  lemma FirstJoinCounted(v: Variant, t: Triple, k: Token)
    requires Counted(k)
    ensures Tally(FirstJoin(v, t), k) == if Holds(v, k) then 1 else 0
  {
    match v
    case Inner => IndentedDotCounted(t, k);
    case SequentialLeft => OptionalCounted(t, k);
    case NestedLeft => OpenOptionalCounted(t, k);
  }

  lemma BodyShape(v: Variant, n: nat)
    requires n <= |ExtraQueries(v)|
    ensures Shape(Body(v, n)) == BodyProfile(v, n)
  {
    var a, b, c := WhereOpening, FirstJoin(v, PersonName), Concat(ExtraQueries(v)[..n]);
    WhereOpeningShape();
    FirstJoinShape(v, PersonName);
    FragmentsShape(v, n);
    ShapeAppend3(a, b, c);
    BodySum(Shape(a), Shape(b), Shape(c), v, n);
  }

  lemma BodySum(x: Profile, y: Profile, z: Profile, v: Variant, n: nat)
    requires x == Profile(1, 1, 0) && y == FragmentProfile(v) && z == FragmentsProfile(v, n)
    ensures x.Then(y).Then(z) == BodyProfile(v, n)
  {
  }

  /**
    The WHERE clause through the first `n` fragments holds its own `{` and,
    of every token a join fragment holds, one per join.
   */
  lemma BodyCounted(v: Variant, n: nat, k: Token)
    requires n <= |ExtraQueries(v)| && Counted(k)
    ensures Tally(Body(v, n), k) == (if k == OpenBrace then 1 else 0) + (if Holds(v, k) then 1 + n else 0)
  {
    WhereOpeningCounted(k);
    FirstJoinCounted(v, PersonName, k);
    FragmentsCounted(v, n, k);
    TallyAppend3(WhereOpening, FirstJoin(v, PersonName), Concat(ExtraQueries(v)[..n]), k);
  }

  // ---------------------------------------------------------------------------
  // The closing braces

  lemma {:induction false} ClosersShape(m: nat)
    ensures Shape(Concat(Closers(m))) == Closed(m)
    decreases m
  {
    if m > 0 {
      ClosersStep(m);
      ClosersShape(m - 1);
      CloserAppend([CloseBrace], Concat(Closers(m - 1)), m);
    } else {
      assert Closers(m) == [];
    }
  }

  /** `m` closers are one `}` followed by `m - 1` closers. */
  lemma ClosersStep(m: nat)
    requires m > 0
    ensures Concat(Closers(m)) == [CloseBrace] + Concat(Closers(m - 1))
  {
    assert Closers(m)[1..] == Closers(m - 1);
  }

  lemma CloserAppend(a: seq<Token>, b: seq<Token>, m: nat)
    requires a == [CloseBrace] && m > 0 && Shape(b) == Closed(m - 1)
    ensures Shape(a + b) == Closed(m)
  {
    ShapeAppend(a, b);
    ShapeSingle(a, 0);
    ClosedSum(Shape(a), Shape(b), 1, m - 1);
  }

  lemma {:induction false} ClosersCounted(m: nat, k: Token)
    ensures Tally(Concat(Closers(m)), k) == if k == CloseBrace then m else 0
    decreases m
  {
    var parts := Closers(m);
    if m > 0 {
      ClosersCounted(m - 1, k);
      assert parts[1..] == Closers(m - 1);
      TallyAppend([CloseBrace], Concat(parts[1..]), k);
      assert Tally([CloseBrace], k) == if k == CloseBrace then 1 else 0;
    } else {
      assert parts == [];
    }
  }

  /** After the fragments, the inner and sequential builders append only a line break and `}`. */
  lemma PlainTailSplit(v: Variant, joins: int)
    requires v != NestedLeft
    ensures Tail(v, joins) == [Newline, CloseBrace]
  {
    var first := [Newline, CloseBrace];
    assert Closing(v, joins) == [first];
    assert [first][1..] == [];
    assert Concat([first]) == first + Concat([]);
  }

  /** The nested builder appends a line break and `}`, a line break, and then its closers. */
  lemma NestedTailSplit(joins: int)
    ensures Tail(NestedLeft, joins) == [Newline, CloseBrace] + ([PatternBreak] + Concat(Closers(ClosingCount(joins))))
  {
    var first := [Newline, CloseBrace];
    var closers := Closers(ClosingCount(joins));
    var rest := [[PatternBreak]] + closers;
    assert Closing(NestedLeft, joins) == [first] + rest;
    ConcatAppend([first], rest);
    ConcatAppend([[PatternBreak]], closers);
    assert [first][1..] == [];
    assert [[PatternBreak]][1..] == [];
  }

  lemma FirstCloserShape()
    ensures Shape([Newline, CloseBrace]) == Closed(1)
  {
    ShapeSingle([Newline, CloseBrace], 1);
  }

  /** The nested builder's closing braces: `}`, a line break, then `m` more. */
  lemma NestedTailShape(a: seq<Token>, b: seq<Token>, c: seq<Token>, m: nat)
    requires Shape(a) == Closed(1) && Shape(b) == Flat && Shape(c) == Closed(m)
    ensures Shape(a + (b + c)) == Closed(1 + m)
  {
    var x, y, z := Closed(1), Flat, Closed(m);
    FlatThen(z);
    ShapeJoin(b + c, b, c, y, z, z);
    ClosedSum(x, z, 1, m);
    ShapeJoin(a + (b + c), a, b + c, x, z, Closed(1 + m));
  }

  lemma FlatThen(p: Profile)
    requires Valid(p)
    ensures Flat.Then(p) == p
  {
    ThenLaws(p, p, p);
  }

  /** Closing `m` and then `k` groups closes `m + k`. */
  lemma ClosedSum(x: Profile, y: Profile, m: nat, k: nat)
    requires x == Closed(m) && y == Closed(k)
    ensures x.Then(y) == Closed(m + k)
  {
  }

  lemma NestedTailCounted(c: seq<Token>, m: nat, k: Token)
    requires Counted(k) && Tally(c, k) == if k == CloseBrace then m else 0
    ensures Tally([Newline, CloseBrace] + ([PatternBreak] + c), k) == if k == CloseBrace then 1 + m else 0
  {
    var a, b := [Newline, CloseBrace], [PatternBreak];
    TallyIsMultiplicity(a, k);
    TallyIsMultiplicity(b, k);
    TallyAppend(b, c, k);
    TallyAppend(a, b + c, k);
  }
}
