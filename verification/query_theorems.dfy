/**
  What the three builders promise about the query text they return: when
  they fail, how the braces nest, how many inner-join separators and
  `OPTIONAL` keywords the text holds, which variables the SELECT clause
  names, where the join fragments go, and how the text ends.

  The brace and keyword theorems read the text through `Spelling` (the
  returned text is spelled by tokens of a known shape and tally) and
  `TextBraces` / `TextKeyword` (a token sequence's shape and tallies are its
  text's profile, brace counts and keyword occurrences).
 */
module QueryTheorems {
  import opened Text
  import opened Braces
  import opened Results
  import opened Lexicon
  import opened Scan
  import opened Query
  import opened QueryParts
  import opened QueryFacts
  import opened QueryAssembly
  import Decimal

  // ---------------------------------------------------------------------------
  // Braces

  /** The deepest nesting of a query: one group for the inner join, two for the sequential, one per join plus WHERE's for the nested. */
  function MaxDepth(v: Variant, joins: int): int
  {
    match v
    case Inner => 1
    case SequentialLeft => 2
    case NestedLeft => Max(joins, 1) + 1
  }

  /**
    No builder ever closes a group it has not opened; every group is closed
    except in the nested builder's query for `joins` at most 0, which closes
    one group too few; and the nesting reaches `MaxDepth` and no further.
   */
  lemma BraceNesting(v: Variant, limit: int, joins: int)
    requires joins <= 5
    ensures Build(v, limit, joins).Success?
    ensures NeverNegative(Build(v, limit, joins).value)
    ensures Balanced(Build(v, limit, joins).value) <==> v != NestedLeft || joins >= 1
    ensures MaxDepthIs(Build(v, limit, joins).value, MaxDepth(v, joins))
  {
    var ts := Spelling(v, limit, joins);
    TextBraces(ts);
    NestingFrom(TextOf(ts), v, joins);
  }

  lemma NestingFrom(s: string, v: Variant, joins: int)
    requires ProfileOf(s) == QueryProfile(v, joins)
    ensures NeverNegative(s)
    ensures Balanced(s) <==> v != NestedLeft || joins >= 1
    ensures MaxDepthIs(s, MaxDepth(v, joins))
  {
    ProfileMeaning(s);
  }

  /**
    The number of `{` and `}` in a query: WHERE's `{` and one per join in the
    left joins; WHERE's `}`, the sequential builder's one per join and the
    nested builder's `max(joins, 0)` closers.
   */
  lemma BraceCounts(v: Variant, limit: int, joins: int)
    requires joins <= 5
    ensures Build(v, limit, joins).Success?
    ensures Count(Build(v, limit, joins).value, '{') == 1 + (if v == Inner then 0 else Max(joins, 1))
    ensures Count(Build(v, limit, joins).value, '}')
         == 1 + (match v case Inner => 0 case SequentialLeft => Max(joins, 1) case NestedLeft => Max(joins, 0))
  {
    var ts := Spelling(v, limit, joins);
    TextBraces(ts);
  }

  /**
    The inner join's query separates its patterns by ` .` and a line break,
    once per join; the left joins' queries have no such separator. A `joins`
    below 1 still keeps the first join.
   */
  lemma SeparatorCount(v: Variant, limit: int, joins: int)
    requires joins <= 5
    ensures Build(v, limit, joins).Success?
    ensures Occurrences(Build(v, limit, joins).value, " .\n") == if v == Inner then Max(joins, 1) else 0
  {
    var ts := Spelling(v, limit, joins);
    TextKeyword(ts, Dot);
    Spelled(Build(v, limit, joins), TextOf(ts), Dot);
  }

  /** Each left join's query has one `OPTIONAL` per join; the inner join's has none. */
  lemma OptionalCount(v: Variant, limit: int, joins: int)
    requires joins <= 5
    ensures Build(v, limit, joins).Success?
    ensures Occurrences(Build(v, limit, joins).value, "OPTIONAL") == if v == Inner then 0 else Max(joins, 1)
  {
    var ts := Spelling(v, limit, joins);
    TextKeyword(ts, OptionalKw);
    Spelled(Build(v, limit, joins), TextOf(ts), OptionalKw);
  }

  /** The spelling of each keyword. */
  lemma Spelled(r: Result<string, BuildError>, s: string, k: Token)
    requires r == Success(s) && Keyword(k)
    ensures k == Dot ==> Occurrences(r.value, " .\n") == Occurrences(s, Spell(k))
    ensures k == OptionalKw ==> Occurrences(r.value, "OPTIONAL") == Occurrences(s, Spell(k))
  {
  }

  // ---------------------------------------------------------------------------
  // The SELECT clause

  /** `?name` always, `?sex` from 2 joins, `?partnername` from 4, `?partnersex` at 5; `?partner` and `?person` never. */
  lemma SelectRules(joins: int)
    ensures Name in SelectedVariables(joins)
    ensures Sex in SelectedVariables(joins) <==> joins >= 2
    ensures PartnerName in SelectedVariables(joins) <==> joins >= 4
    ensures PartnerSex in SelectedVariables(joins) <==> joins == 5
    ensures Partner !in SelectedVariables(joins) && Person !in SelectedVariables(joins)
  {
  }

  /** The output variables named in the header are exactly the selected variables. */
  lemma HeadOutputs(joins: int)
    ensures forall x :: Output(x) in Head(joins) <==> x in SelectedVariables(joins)
  {
    HeadSplit(joins);
    SelectOutputs(joins);
    forall x
      ensures Output(x) in Head(joins) <==> x in SelectedVariables(joins)
    {
      assert Output(x) in Header <==> x == Name;
    }
  }

  /** The header is the PREFIX lines and `SELECT ?name`, the extra variables, and a line break. */
  lemma HeadSplit(joins: int)
    ensures Head(joins) == Header + Concat(SelectParts(joins)) + [Newline]
  {
    var select := SelectParts(joins);
    ConcatAppend([Header] + select, [[Newline]]);
    ConcatAppend([Header], select);
    assert Concat([Header]) == Header by {
      assert [Header][1..] == [];
    }
    assert Concat([[Newline]]) == [Newline] by {
      assert [[Newline]][1..] == [];
    }
  }

  /** The `, ?var` strings name exactly the extra variables. */
  lemma SelectOutputs(joins: int)
    ensures forall x :: Output(x) in Concat(SelectParts(joins)) <==> x in ExtraVariables(joins)
  {
    var parts, extra := SelectParts(joins), ExtraVariables(joins);
    forall x
      ensures Output(x) in Concat(parts) <==> x in extra
    {
      ConcatMembers(parts, Output(x));
      if x in extra {
        var k :| 0 <= k < |extra| && extra[k] == x;
        assert Output(x) in parts[k];
      }
      if Output(x) in Concat(parts) {
        var i :| 0 <= i < |parts| && Output(x) in parts[i];
        assert parts[i] == [Comma, Output(extra[i])];
      }
    }
  }

  /** All three builders start their query with the same header for the same `joins`. */
  lemma CommonHeader(v: Variant, w: Variant, limit: int, joins: int)
    requires joins <= 5
    ensures Build(v, limit, joins).Success? && Build(w, limit, joins).Success?
    ensures var h := TextOf(Head(joins));
      && h <= Build(v, limit, joins).value
      && h <= Build(w, limit, joins).value
  {
    HeadPrefix(v, limit, joins);
    HeadPrefix(w, limit, joins);
  }

  lemma HeadPrefix(v: Variant, limit: int, joins: int)
    requires joins <= 5
    ensures Build(v, limit, joins).Success?
    ensures TextOf(Head(joins)) <= Build(v, limit, joins).value
  {
    BuildSpells(v, limit, joins);
    TextSplit(Head(joins), Body(v, FragmentCount(joins)), Tail(v, joins), LimitLine(limit));
  }

  /** The text of four token sequences in a row starts with that of the first and ends with that of the last. */
  lemma TextSplit(a: seq<Token>, b: seq<Token>, c: seq<Token>, d: seq<Token>)
    ensures TextOf(a) <= TextOf(a + b + c + d)
    ensures TextOf(a + b + c + d) == TextOf(a + b + c) + TextOf(d)
  {
    TextOfAppend(a + b + c, d);
    TextOfAppend(a + b, c);
    TextOfAppend(a, b);
  }

  // ---------------------------------------------------------------------------
  // The join fragments and the LIMIT line

  /**
    Every stage of the WHERE clause, from its opening through the first `n`
    fragments for any `n` up to `joins - 1`, follows the header at the start
    of the query text; with `NextJoin`, the fragments appear in the text in
    the order of `extra_queries`, each right after the ones before it.
   */
  lemma BodyPrefix(v: Variant, limit: int, joins: int, n: nat)
    requires joins <= 5 && n <= FragmentCount(joins)
    ensures Build(v, limit, joins).Success?
    ensures TextOf(Head(joins)) + TextOf(Body(v, n)) <= Build(v, limit, joins).value
  {
    BuildSpells(v, limit, joins);
    BodyGrows(v, n, FragmentCount(joins));
    SecondPrefix(Head(joins), Body(v, n), Body(v, FragmentCount(joins)), Tail(v, joins), LimitLine(limit));
  }

  /** The text of four token sequences in a row starts with that of the first and a prefix of that of the second. */
  lemma SecondPrefix(a: seq<Token>, p: seq<Token>, b: seq<Token>, c: seq<Token>, d: seq<Token>)
    requires TextOf(p) <= TextOf(b)
    ensures TextOf(a) + TextOf(p) <= TextOf(a + b + c + d)
  {
    TextSplit(a, b, c, d);
    TextOfAppend(a + b, c);
    TextOfAppend(a, b);
    PrefixAfter(TextOf(a), TextOf(p), TextOf(b), TextOf(c) + TextOf(d));
  }

  /** The WHERE clause through `n` fragments starts the clause through any `m >= n`. */
  lemma BodyGrows(v: Variant, n: nat, m: nat)
    requires n <= m <= |ExtraQueries(v)|
    ensures TextOf(Body(v, n)) <= TextOf(Body(v, m))
  {
    var q := ExtraQueries(v);
    assert q[..m] == q[..n] + q[n..m];
    ConcatAppend(q[..n], q[n..m]);
    assert Body(v, m) == Body(v, n) + Concat(q[n..m]);
    TextOfAppend(Body(v, n), Concat(q[n..m]));
  }

  /** A prefix of `q`, put after `a`, is a prefix of `a + q` and anything after it. */
  lemma PrefixAfter(a: string, p: string, q: string, r: string)
    requires p <= q
    ensures a + p <= a + q + r
  {
    assert (a + q + r)[..|a + p|] == a + p by {
      assert (a + q + r)[..|a + p|] == a + q[..|p|];
    }
  }

  /** One more join appends the next fragment to the WHERE clause and leaves the clause before it unchanged. */
  lemma NextJoin(v: Variant, n: nat)
    requires n < |ExtraQueries(v)|
    ensures TextOf(Body(v, n + 1)) == TextOf(Body(v, n)) + TextOf(ExtraQueries(v)[n])
  {
    FragmentsStep(v, n);
    var a, b := Concat(ExtraQueries(v)[..n]), Fragment(v, ExtraTriples[n]);
    assert Body(v, n + 1) == Body(v, n) + b;
    TextOfAppend(Body(v, n), b);
  }

  /** A query ends with a line break, `LIMIT ` and the limit in decimal, which reads back as the limit. */
  lemma LimitSuffix(v: Variant, limit: int, joins: int)
    requires joins <= 5
    ensures Build(v, limit, joins).Success?
    ensures var s, tail := Build(v, limit, joins).value, "\nLIMIT " + Decimal.Render(limit);
      && |tail| <= |s| && s[|s| - |tail|..] == tail
    ensures Decimal.Value(Decimal.Render(limit)) == limit
  {
    var a, b, c, d := Head(joins), Body(v, FragmentCount(joins)), Tail(v, joins), LimitLine(limit);
    BuildSpells(v, limit, joins);
    TextSplit(a, b, c, d);
    LimitText(limit);
    EndsWith(TextOf(a + b + c), TextOf(d));
    Decimal.RenderRoundTrip(limit);
  }

  lemma LimitText(limit: int)
    ensures TextOf(LimitLine(limit)) == "\nLIMIT " + Decimal.Render(limit)
  {
    TextPair(LimitKw, Number(limit));
  }

  lemma TextPair(a: Token, b: Token)
    ensures TextOf([a, b]) == Spell(a) + Spell(b)
  {
    var ts := [a, b];
    assert ts[1..] == [b];
    assert [b][1..] == [];
    assert TextOf([b]) == Spell(b) + "";
  }

  lemma EndsWith(s: string, t: string)
    ensures s + t == (s + t)[..|s|] + t && (s + t)[|s + t| - |t|..] == t
  {
  }

  /** Below one join the inner and sequential builders behave as for one join. */
  lemma FewJoins(v: Variant, limit: int, joins: int)
    requires v != NestedLeft && joins <= 1
    ensures Build(v, limit, joins) == Build(v, limit, 1)
  {
    assert ExtraVariables(joins) == ExtraVariables(1) == [];
    assert PartTokens(v, limit, joins) == PartTokens(v, limit, 1);
  }
}
