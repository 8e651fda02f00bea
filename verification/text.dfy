/**
  Character-level facts about query text: how often a character occurs, how
  Python's `''.join` glues a list of parts together, and how often a fixed
  keyword or separator occurs. Every fact here is stated for arbitrary strings
  and composes over `+`, so that facts about a long query can be assembled from
  facts about its short pieces.
 */
module Text {

  /** Number of positions of `s` holding the character `c`. */
  function Count(s: string, c: char): nat
  {
    if |s| == 0 then 0 else (if s[0] == c then 1 else 0) + Count(s[1..], c)
  }

  /** `Count` agrees with the multiplicity of `c` in the multiset of characters of `s`. */
  lemma {:induction false} CountIsMultiplicity(s: string, c: char)
    ensures Count(s, c) == multiset(s)[c]
  {
    if |s| > 0 {
      CountIsMultiplicity(s[1..], c);
      assert s == [s[0]] + s[1..];
      assert multiset(s) == multiset{s[0]} + multiset(s[1..]);
    }
  }

  /** Counting distributes over concatenation. */
  lemma CountAppend(a: string, b: string, c: char)
    ensures Count(a + b, c) == Count(a, c) + Count(b, c)
  {
    CountIsMultiplicity(a, c);
    CountIsMultiplicity(b, c);
    CountIsMultiplicity(a + b, c);
    assert multiset(a + b) == multiset(a) + multiset(b);
  }

  /** A character that does not occur is counted zero times, and conversely. */
  lemma CountZero(s: string, c: char)
    ensures Count(s, c) == 0 <==> c !in s
  {
    CountIsMultiplicity(s, c);
  }

  /** Python's `''.join(parts)`: the parts concatenated in order. */
  function Join(parts: seq<string>): (r: string)
    ensures |parts| == 1 ==> r == parts[0]
  {
    if |parts| == 0 then "" else Join(parts[..|parts| - 1]) + parts[|parts| - 1]
  }

  /** Joining is a homomorphism from list concatenation to string concatenation. */
  lemma {:induction false} JoinAppend(a: seq<string>, b: seq<string>)
    ensures Join(a + b) == Join(a) + Join(b)
    decreases |b|
  {
    if |b| == 0 {
      assert a + b == a;
    } else {
      var b' := b[..|b| - 1];
      assert (a + b)[..|a + b| - 1] == a + b';
      JoinAppend(a, b');
    }
  }

  /** `p` occurs at position `i` of `s`. */
  predicate OccursAt(s: string, p: string, i: int)
  {
    0 <= i && i + |p| <= |s| && s[i..i + |p|] == p
  }

  /** Number of positions of `s` at which the non-empty pattern `p` starts. */
  function Occurrences(s: string, p: string): nat
    requires |p| > 0
  {
    if |s| < |p| then 0
    else (if s[..|p|] == p then 1 else 0) + Occurrences(s[1..], p)
  }

  /**
    A pattern that cannot overlap itself: no proper suffix of it is also a
    prefix of it. " .\n" and "OPTIONAL" are such patterns.
   */
  predicate BorderFree(p: string)
  {
    |p| > 0 && forall d :: 0 < d < |p| ==> p[d..] != p[..|p| - d]
  }

  /** A pattern whose last character occurs nowhere else in it is border-free. */
  lemma UniqueLastBorderFree(p: string)
    requires |p| > 0 && forall k :: 0 <= k < |p| - 1 ==> p[k] != p[|p| - 1]
    ensures BorderFree(p)
  {
    forall d | 0 < d < |p|
      ensures p[d..] != p[..|p| - d]
    {
      var j := |p| - d - 1;
      assert p[d..][j] == p[|p| - 1] != p[j] == p[..|p| - d][j];
    }
  }

  /** No occurrence of `p` in `a + b` starts inside `a` and ends inside `b`. */
  predicate NoStraddle(a: string, b: string, p: string)
  {
    forall i :: |a| - |p| < i < |a| ==> !OccursAt(a + b, p, i)
  }

  /**
    A cheap sufficient condition for `NoStraddle` (for a border-free `p`): one
    of the two characters that meet at the join point is foreign to `p`, or
    `a` is `p` itself, or `b` starts with `p`, or `p` has three characters and
    its middle one is at neither side of the join point.
   */
  predicate Seam(a: string, b: string, p: string)
  {
    || |a| == 0 || |b| == 0
    || a[|a| - 1] !in p || b[0] !in p
    || a == p || (|p| <= |b| && b[..|p|] == p)
    || (|p| == 3 && a[|a| - 1] != p[1] && b[0] != p[1])
  }

  lemma SeamNoStraddle(a: string, b: string, p: string)
    requires BorderFree(p) && Seam(a, b, p)
    ensures NoStraddle(a, b, p)
  {
    if |a| == 0 || |b| == 0 {
    } else if a == p || (|p| <= |b| && b[..|p|] == p) {
      SelfNoStraddle(a, b, p);
    } else if a[|a| - 1] !in p || b[0] !in p {
      ForeignNoStraddle(a, b, p);
    } else {
      MiddleNoStraddle(a, b, p);
    }
  }

  /** A window of `s` at `i` that differs from `p` at position `k` is no occurrence. */
  lemma Mismatch(s: string, p: string, i: int, k: int)
    requires 0 <= k < |p| && 0 <= i + k < |s| && s[i + k] != p[k]
    ensures !OccursAt(s, p, i)
  {
    if 0 <= i && i + |p| <= |s| {
      assert s[i..i + |p|][k] == s[i + k];
    }
  }

  /** Straddling `p` or `p` itself would make a proper suffix of `p` one of its prefixes. */
  lemma SelfNoStraddle(a: string, b: string, p: string)
    requires BorderFree(p) && (a == p || (|p| <= |b| && b[..|p|] == p))
    ensures NoStraddle(a, b, p)
  {
    var s := a + b;
    forall i | |a| - |p| < i < |a|
      ensures !OccursAt(s, p, i)
    {
      if 0 <= i && i + |p| <= |s| {
        if a == p {
          var j :| 0 <= j < |p| - i && p[i..][j] != p[..|p| - i][j];
          assert s[i + j] == p[i + j] != p[j];
          Mismatch(s, p, i, j);
        } else {
          var d := |a| - i;
          var j :| 0 <= j < |p| - d && p[d..][j] != p[..|p| - d][j];
          assert s[i + d + j] == b[..|p|][j] == p[j] != p[d + j];
          Mismatch(s, p, i, d + j);
        }
      }
    }
  }

  /** A window across the join point holds both characters that meet there. */
  lemma ForeignNoStraddle(a: string, b: string, p: string)
    requires |a| > 0 && |b| > 0 && (a[|a| - 1] !in p || b[0] !in p)
    ensures NoStraddle(a, b, p)
  {
    var s := a + b;
    forall i | |a| - |p| < i < |a|
      ensures !OccursAt(s, p, i)
    {
      if 0 <= i && i + |p| <= |s| {
        if a[|a| - 1] !in p {
          assert s[|a| - 1] == a[|a| - 1];
          Mismatch(s, p, i, |a| - 1 - i);
        } else {
          assert s[|a|] == b[0];
          Mismatch(s, p, i, |a| - i);
        }
      }
    }
  }

  /** A three-character window across the join point has its middle character at one side. */
  lemma MiddleNoStraddle(a: string, b: string, p: string)
    requires |a| > 0 && |b| > 0 && |p| == 3 && a[|a| - 1] != p[1] && b[0] != p[1]
    ensures NoStraddle(a, b, p)
  {
    var s := a + b;
    forall i | |a| - |p| < i < |a|
      ensures !OccursAt(s, p, i)
    {
      if 0 <= i && i + |p| <= |s| {
        assert s[i + 1] == (if i + 1 < |a| then a[|a| - 1] else b[0]);
        Mismatch(s, p, i, 1);
      }
    }
  }

  /** Occurrences of `p` in `a + b` are those in `a` plus those in `b` when none straddles. */
  lemma {:induction false} OccurrencesAppendExact(a: string, b: string, p: string)
    requires |p| > 0 && NoStraddle(a, b, p)
    ensures Occurrences(a + b, p) == Occurrences(a, p) + Occurrences(b, p)
    decreases |a|
  {
    if |a| == 0 {
      assert a + b == b;
    } else {
      var s := a + b;
      assert s[1..] == a[1..] + b;
      forall i | |a[1..]| - |p| < i < |a[1..]|
        ensures !OccursAt(a[1..] + b, p, i)
      {
        assert !OccursAt(s, p, i + 1);
        if 0 <= i && i + |p| <= |a[1..] + b| {
          assert s[i + 1..i + 1 + |p|] == (a[1..] + b)[i..i + |p|];
        }
      }
      OccurrencesAppendExact(a[1..], b, p);
      if |s| >= |p| {
        if |a| >= |p| {
          assert s[..|p|] == a[..|p|];
        } else {
          assert !OccursAt(s, p, 0);
          assert s[0..|p|] == s[..|p|];
        }
      }
    }
  }

  /** Occurrences add up across a seam. */
  lemma OccurrencesAppend(a: string, b: string, p: string)
    requires BorderFree(p) && Seam(a, b, p)
    ensures Occurrences(a + b, p) == Occurrences(a, p) + Occurrences(b, p)
  {
    SeamNoStraddle(a, b, p);
    OccurrencesAppendExact(a, b, p);
  }

  /** A string missing one of the characters of `p` contains no occurrence of `p`. */
  lemma {:induction false} OccurrencesAbsent(s: string, p: string, c: char)
    requires |p| > 0 && c in p && c !in s
    ensures Occurrences(s, p) == 0
    decreases |s|
  {
    if |s| >= |p| {
      var k :| 0 <= k < |p| && p[k] == c;
      assert s[..|p|][k] == s[k] != c;
      OccurrencesAbsent(s[1..], p, c);
    }
  }

  /** A pattern occurs exactly once in itself. */
  lemma OccurrencesSelf(p: string)
    requires |p| > 0
    ensures Occurrences(p, p) == 1
  {
    assert p[..|p|] == p;
    assert Occurrences(p[1..], p) == 0;
  }
}
