/**
  Text spelled by a sequence of tokens, and how its brace nesting and its
  keyword occurrences are read off the tokens alone: a token sequence has a
  brace `Shape` and a `Tally` of each token, and these agree with the profile,
  the brace counts and the keyword occurrences of the text it spells.
 */
module Scan {
  import opened Text
  import opened Braces
  import opened Lexicon
  import Decimal

  /** The spellings of `ts`, concatenated in order. */
  function TextOf(ts: seq<Token>): string
  {
    if |ts| == 0 then "" else Spell(ts[0]) + TextOf(ts[1..])
  }

  /** Number of times `t` occurs in `ts`. */
  function Tally(ts: seq<Token>, t: Token): nat
  {
    if |ts| == 0 then 0 else (if ts[0] == t then 1 else 0) + Tally(ts[1..], t)
  }

  /** `Tally` agrees with the multiplicity of `t` in the multiset of tokens of `ts`. */
  lemma {:induction false} TallyIsMultiplicity(ts: seq<Token>, t: Token)
    ensures Tally(ts, t) == multiset(ts)[t]
    decreases |ts|
  {
    if |ts| > 0 {
      TallyIsMultiplicity(ts[1..], t);
      assert ts == [ts[0]] + ts[1..];
    }
  }

  /** Profile of the text of a single token. */
  function TokenShape(t: Token): Profile
  {
    if t == OpenBrace then Profile(1, 1, 0)
    else if t == CloseBrace then Profile(-1, 0, -1)
    else Flat
  }

  /** Brace profile of a token sequence, computed token by token. */
  function Shape(ts: seq<Token>): (r: Profile)
    ensures Valid(r)
  {
    if |ts| == 0 then Flat
    else
      var rest := Shape(ts[1..]);
      ThenLaws(TokenShape(ts[0]), rest, rest);
      TokenShape(ts[0]).Then(rest)
  }

  /** The list-of-lists counterpart of `Join`: the token sequences concatenated in order. */
  function Concat(parts: seq<seq<Token>>): seq<Token>
  {
    if |parts| == 0 then [] else parts[0] + Concat(parts[1..])
  }

  /** The text of each token sequence. */
  function Texts(parts: seq<seq<Token>>): (r: seq<string>)
    ensures |r| == |parts|
  {
    seq(|parts|, i requires 0 <= i < |parts| => TextOf(parts[i]))
  }

  lemma {:induction false} TextOfAppend(a: seq<Token>, b: seq<Token>)
    ensures TextOf(a + b) == TextOf(a) + TextOf(b)
    decreases |a|
  {
    if |a| == 0 {
      assert a + b == b;
    } else {
      assert (a + b)[1..] == a[1..] + b;
      TextOfAppend(a[1..], b);
    }
  }

  lemma TallyAppend(a: seq<Token>, b: seq<Token>, t: Token)
    ensures Tally(a + b, t) == Tally(a, t) + Tally(b, t)
  {
    TallyIsMultiplicity(a, t);
    TallyIsMultiplicity(b, t);
    TallyIsMultiplicity(a + b, t);
    assert multiset(a + b) == multiset(a) + multiset(b);
  }

  lemma TallyAppend3(a: seq<Token>, b: seq<Token>, c: seq<Token>, t: Token)
    ensures Tally(a + b + c, t) == Tally(a, t) + Tally(b, t) + Tally(c, t)
  {
    TallyAppend(a + b, c, t);
    TallyAppend(a, b, t);
  }

  /** A token that does not occur is tallied zero times, and conversely. */
  lemma TallyZero(ts: seq<Token>, t: Token)
    ensures Tally(ts, t) == 0 <==> t !in ts
  {
    TallyIsMultiplicity(ts, t);
  }

  /** A text without brace tokens stays at depth 0. */
  lemma {:induction false} ShapeBraceFree(ts: seq<Token>)
    requires OpenBrace !in ts && CloseBrace !in ts
    ensures Shape(ts) == Flat
    decreases |ts|
  {
    if |ts| > 0 {
      var rest := ts[1..];
      assert OpenBrace !in rest && CloseBrace !in rest by {
        assert forall t :: t in rest ==> t in ts;
      }
      ShapeBraceFree(rest);
      assert ts[0] in ts;
      assert TokenShape(ts[0]) == Flat;
    }
  }

  /** A sequence whose only brace token is at position `i` has the shape of that token. */
  lemma ShapeSingle(ts: seq<Token>, i: int)
    requires 0 <= i < |ts|
    requires forall j :: 0 <= j < |ts| && j != i ==> ts[j] != OpenBrace && ts[j] != CloseBrace
    ensures Shape(ts) == TokenShape(ts[i])
  {
    var a, b := ts[..i], ts[i + 1..];
    assert ts == a + [ts[i]] + b;
    assert OpenBrace !in a && CloseBrace !in a by {
      forall j | 0 <= j < |a|
        ensures a[j] != OpenBrace && a[j] != CloseBrace
      {
        assert a[j] == ts[j];
      }
    }
    assert OpenBrace !in b && CloseBrace !in b by {
      forall j | 0 <= j < |b|
        ensures b[j] != OpenBrace && b[j] != CloseBrace
      {
        assert b[j] == ts[i + 1 + j];
      }
    }
    ShapeAround(a, ts[i], b);
  }

  /** A sequence whose only brace token is `t` has the shape of `t`. */
  lemma ShapeAround(a: seq<Token>, t: Token, b: seq<Token>)
    requires OpenBrace !in a && CloseBrace !in a && OpenBrace !in b && CloseBrace !in b
    ensures Shape(a + [t] + b) == TokenShape(t)
  {
    ShapeBraceFree(a);
    ShapeBraceFree(b);
    ShapeAppend(a + [t], b);
    ShapeAppend(a, [t]);
    ShapeUnit(t);
    AroundSum(Shape(a), Shape([t]), Shape(b), t);
  }

  lemma ShapeUnit(t: Token)
    ensures Shape([t]) == TokenShape(t)
  {
    assert [t][1..] == [];
  }

  /** The `Profile` arithmetic of `ShapeAround`, kept apart from its sequence reasoning. */
  lemma AroundSum(x: Profile, y: Profile, z: Profile, t: Token)
    requires x == Flat && y == TokenShape(t) && z == Flat
    ensures x.Then(y).Then(z) == TokenShape(t)
  {
  }

  lemma {:induction false} ShapeAppend(a: seq<Token>, b: seq<Token>)
    ensures Shape(a + b) == Shape(a).Then(Shape(b))
    decreases |a|
  {
    if |a| == 0 {
      assert a + b == b;
      ThenLaws(Shape(b), Flat, Flat);
    } else {
      assert (a + b)[1..] == a[1..] + b;
      ShapeAppend(a[1..], b);
      ThenLaws(TokenShape(a[0]), Shape(a[1..]), Shape(b));
    }
  }

  /** The shape of a sequence made of two parts of known shapes. */
  lemma ShapeJoin(ts: seq<Token>, a: seq<Token>, b: seq<Token>, x: Profile, y: Profile, z: Profile)
    requires ts == a + b && Shape(a) == x && Shape(b) == y && x.Then(y) == z
    ensures Shape(ts) == z
  {
    ShapeAppend(a, b);
  }

  /**
    No occurrence of a keyword straddles two neighbouring tokens: only
    `OPTIONAL` itself ends in one of the capitals of `OPTIONAL`, and no token
    begins or ends with the `.` in the middle of ` .` and its line break.
   */
  lemma KeywordSeam(a: Token, b: Token, rest: string, k: Token)
    requires Keyword(k)
    ensures Seam(Spell(a), Spell(b) + rest, Spell(k))
  {
    if k == OptionalKw {
      OptionalSeam(a, Spell(b) + rest);
    } else {
      DotSeam(a, b, rest);
    }
  }

  lemma OptionalSeam(a: Token, b: string)
    requires |b| > 0
    ensures Seam(Spell(a), b, Spell(OptionalKw))
  {
    if a != OptionalKw {
      Ends(a);
      FinalNotCapital(a);
      var p := Spell(OptionalKw);
      assert forall i :: 0 <= i < |p| ==> 'A' <= p[i] <= 'Z';
    }
  }

  lemma DotSeam(a: Token, b: Token, rest: string)
    ensures Seam(Spell(a), Spell(b) + rest, Spell(Dot))
  {
    Ends(a);
    Ends(b);
    DotFree(a);
    DotFree(b);
    assert (Spell(b) + rest)[0] == Initial(b);
    assert Spell(Dot)[1] == '.';
  }

  lemma {:induction false} ConcatAppend(a: seq<seq<Token>>, b: seq<seq<Token>>)
    ensures Concat(a + b) == Concat(a) + Concat(b)
    decreases |a|
  {
    if |a| == 0 {
      assert a + b == b;
    } else {
      assert (a + b)[1..] == a[1..] + b;
      ConcatAppend(a[1..], b);
    }
  }

  /** Joining the texts of token sequences spells their concatenation. */
  lemma {:induction false} JoinTexts(parts: seq<seq<Token>>)
    ensures Join(Texts(parts)) == TextOf(Concat(parts))
    decreases |parts|
  {
    if |parts| > 0 {
      var init, last := parts[..|parts| - 1], parts[|parts| - 1];
      assert Texts(parts)[..|parts| - 1] == Texts(init);
      JoinTexts(init);
      assert parts == init + [last];
      ConcatAppend(init, [last]);
      assert Concat([last]) == last;
      TextOfAppend(Concat(init), last);
    }
  }

  lemma OrdinaryAvoids(s: string, breaking: bool)
    requires Ordinary(s, breaking)
    ensures '{' !in s && '}' !in s && 'O' !in s
    ensures (if breaking then '.' else '\n') !in s
  {
  }

  lemma KeywordsBorderFree()
    ensures BorderFree(Spell(Dot)) && BorderFree(Spell(OptionalKw))
  {
    UniqueLastBorderFree(Spell(Dot));
    UniqueLastBorderFree(Spell(OptionalKw));
  }

  /** The brace facts of a single token. */
  lemma TokenBraces(t: Token)
    ensures ProfileOf(Spell(t)) == TokenShape(t)
    ensures Count(Spell(t), '{') == (if t == OpenBrace then 1 else 0)
    ensures Count(Spell(t), '}') == (if t == CloseBrace then 1 else 0)
  {
    if t == OpenBrace {
      ProfileOpen();
      assert Spell(t)[1..] == "";
    } else if t == CloseBrace {
      ProfileClose();
      assert Spell(t)[1..] == "";
    } else {
      BraceFreeToken(t);
    }
  }

  lemma BraceFreeToken(t: Token)
    requires t != OpenBrace && t != CloseBrace
    ensures '{' !in Spell(t) && '}' !in Spell(t)
    ensures ProfileOf(Spell(t)) == Flat && Count(Spell(t), '{') == 0 && Count(Spell(t), '}') == 0
  {
    var s := Spell(t);
    if !Keyword(t) {
      Characters(t);
      OrdinaryAvoids(s, Breaking(t));
    }
    ProfileBraceFree(s);
    CountZero(s, '{');
    CountZero(s, '}');
  }

  /** A keyword occurs once in its own spelling and never in the spelling of another token. */
  lemma TokenKeyword(t: Token, k: Token)
    requires Keyword(k)
    ensures Occurrences(Spell(t), Spell(k)) == (if t == k then 1 else 0)
  {
    var s := Spell(t);
    Characters(t);
    if t == k {
      OccurrencesSelf(s);
    } else if t == OpenBrace || t == CloseBrace || Keyword(t) {
      var c := if k == Dot then '.' else 'O';
      assert Spell(k)[if k == Dot then 1 else 0] == c;
      OccurrencesAbsent(s, Spell(k), c);
    } else {
      OrdinaryAvoids(s, Breaking(t));
      var c := if k == OptionalKw then 'O' else if Breaking(t) then '.' else '\n';
      assert Spell(k)[if k == OptionalKw then 0 else if Breaking(t) then 1 else 2] == c;
      OccurrencesAbsent(s, Spell(k), c);
    }
  }

  /** The profile and the brace counts of a text are those of its tokens. */
  lemma {:induction false} TextBraces(ts: seq<Token>)
    ensures ProfileOf(TextOf(ts)) == Shape(ts)
    ensures Count(TextOf(ts), '{') == Tally(ts, OpenBrace)
    ensures Count(TextOf(ts), '}') == Tally(ts, CloseBrace)
    decreases |ts|
  {
    if |ts| == 0 {
      assert ProfileOf("") == Flat;
    } else {
      TextBraces(ts[1..]);
      TokenBraces(ts[0]);
      ProfileAppend(Spell(ts[0]), TextOf(ts[1..]));
      CountAppend(Spell(ts[0]), TextOf(ts[1..]), '{');
      CountAppend(Spell(ts[0]), TextOf(ts[1..]), '}');
    }
  }

  /** The occurrences of a keyword's text in the text of a token sequence are its keyword tokens. */
  lemma {:induction false} TextKeyword(ts: seq<Token>, k: Token)
    requires Keyword(k)
    ensures Occurrences(TextOf(ts), Spell(k)) == Tally(ts, k)
    decreases |ts|
  {
    if |ts| > 0 {
      var a, b, p := Spell(ts[0]), TextOf(ts[1..]), Spell(k);
      TextKeyword(ts[1..], k);
      TokenKeyword(ts[0], k);
      KeywordsBorderFree();
      if |ts| > 1 {
        assert b == Spell(ts[1]) + TextOf(ts[2..]) by {
          assert ts[1..][1..] == ts[2..];
        }
        KeywordSeam(ts[0], ts[1], TextOf(ts[2..]), k);
      }
      OccurrencesAppend(a, b, p);
    }
  }

  lemma ShapeAppend3(a: seq<Token>, b: seq<Token>, c: seq<Token>)
    ensures Shape(a + b + c) == Shape(a).Then(Shape(b)).Then(Shape(c))
  {
    ShapeAppend(a + b, c);
    ShapeAppend(a, b);
  }

  /** Every token of `Concat(parts)` comes from one of the parts, and conversely. */
  lemma {:induction false} ConcatMembers(parts: seq<seq<Token>>, t: Token)
    ensures t in Concat(parts) <==> exists i :: 0 <= i < |parts| && t in parts[i]
    decreases |parts|
  {
    if |parts| > 0 {
      ConcatMembers(parts[1..], t);
      if exists i :: 0 <= i < |parts| && t in parts[i] {
        var i :| 0 <= i < |parts| && t in parts[i];
        if i > 0 {
          assert t in parts[1..][i - 1];
        }
      }
      if exists i :: 0 <= i < |parts[1..]| && t in parts[1..][i] {
        var i :| 0 <= i < |parts[1..]| && t in parts[1..][i];
        assert t in parts[i + 1];
      }
    }
  }

  /** The tokens whose number in a sequence is read off its text: the braces and the keywords. */
  predicate Counted(k: Token)
  {
    k == OpenBrace || k == CloseBrace || Keyword(k)
  }

}
