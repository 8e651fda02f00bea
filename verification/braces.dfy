/**
  Curly-brace nesting of query text. Reading a text left to right, every `{`
  opens a group and every `}` closes one; the running depth after a prefix is
  the number of `{` minus the number of `}` in it. A `Profile` summarises a text
  by its final depth and the highest and lowest running depth reached on the
  way, and profiles compose over concatenation.
 */
module Braces {
  import opened Text

  function Max(x: int, y: int): int { if x < y then y else x }
  function Min(x: int, y: int): int { if x < y then x else y }

  /** Change of depth caused by one character. */
  function Delta(c: char): int
  {
    if c == '{' then 1 else if c == '}' then -1 else 0
  }

  /** Depth after reading all of `s`, starting from depth 0. */
  function Depth(s: string): int
  {
    Count(s, '{') - Count(s, '}')
  }

  /** Highest running depth over all prefixes of `s` (the empty prefix included). */
  function Peak(s: string): (r: int)
    ensures r >= 0
  {
    if |s| == 0 then 0 else Max(0, Delta(s[0]) + Peak(s[1..]))
  }

  /** Lowest running depth over all prefixes of `s` (the empty prefix included). */
  function Trough(s: string): (r: int)
    ensures r <= 0
  {
    if |s| == 0 then 0 else Min(0, Delta(s[0]) + Trough(s[1..]))
  }

  lemma DepthFirst(s: string)
    requires |s| > 0
    ensures Depth(s) == Delta(s[0]) + Depth(s[1..])
  {
  }

  lemma DepthPrefixStep(s: string, i: int)
    requires 0 < i <= |s|
    ensures Depth(s[..i]) == Delta(s[0]) + Depth(s[1..][..i - 1])
  {
    assert s[..i][1..] == s[1..][..i - 1];
    DepthFirst(s[..i]);
  }

  /** `Peak` is the maximum of the running depth: an upper bound that some prefix reaches. */
  lemma {:induction false} PeakIsMaximum(s: string)
    ensures forall i :: 0 <= i <= |s| ==> Depth(s[..i]) <= Peak(s)
    ensures exists i :: 0 <= i <= |s| && Depth(s[..i]) == Peak(s)
  {
    assert s[..0] == "";
    if |s| > 0 {
      PeakIsMaximum(s[1..]);
      forall i | 0 < i <= |s|
        ensures Depth(s[..i]) <= Peak(s)
      {
        DepthPrefixStep(s, i);
      }
      if Peak(s) != 0 {
        var j :| 0 <= j <= |s[1..]| && Depth(s[1..][..j]) == Peak(s[1..]);
        DepthPrefixStep(s, j + 1);
        assert Depth(s[..j + 1]) == Peak(s);
      }
    }
  }

  /** `Trough` is the minimum of the running depth: a lower bound that some prefix reaches. */
  lemma {:induction false} TroughIsMinimum(s: string)
    ensures forall i :: 0 <= i <= |s| ==> Trough(s) <= Depth(s[..i])
    ensures exists i :: 0 <= i <= |s| && Depth(s[..i]) == Trough(s)
  {
    assert s[..0] == "";
    if |s| > 0 {
      TroughIsMinimum(s[1..]);
      forall i | 0 < i <= |s|
        ensures Trough(s) <= Depth(s[..i])
      {
        DepthPrefixStep(s, i);
      }
      if Trough(s) != 0 {
        var j :| 0 <= j <= |s[1..]| && Depth(s[1..][..j]) == Trough(s[1..]);
        DepthPrefixStep(s, j + 1);
        assert Depth(s[..j + 1]) == Trough(s);
      }
    }
  }

  /** Final depth, highest and lowest running depth of a text. */
  datatype Profile = Profile(net: int, peak: int, trough: int)
  {
    /** Profile of reading a text with profile `this` followed by one with profile `next`. */
    function Then(next: Profile): Profile
    {
      Profile(net + next.net, Max(peak, net + next.peak), Min(trough, net + next.trough))
    }
  }

  const Flat := Profile(0, 0, 0)

  /** The shape every text's profile has: the peak and the trough bracket both 0 and the final depth. */
  predicate Valid(p: Profile)
  {
    0 <= p.peak && p.net <= p.peak && p.trough <= 0 && p.trough <= p.net
  }

  /** Reading one text after another is associative, and `Flat` is neutral on valid profiles. */
  lemma ThenLaws(x: Profile, y: Profile, z: Profile)
    ensures x.Then(y).Then(z) == x.Then(y.Then(z))
    ensures Valid(x) ==> Flat.Then(x) == x && x.Then(Flat) == x
    ensures Valid(x) && Valid(y) ==> Valid(x.Then(y))
  {
  }

  function ProfileOf(s: string): (r: Profile)
    ensures Valid(r)
  {
    PeakIsMaximum(s);
    TroughIsMinimum(s);
    assert s[..|s|] == s;
    Profile(Depth(s), Peak(s), Trough(s))
  }

  lemma DepthAppend(a: string, b: string)
    ensures Depth(a + b) == Depth(a) + Depth(b)
  {
    CountAppend(a, b, '{');
    CountAppend(a, b, '}');
  }

  lemma {:induction false} PeakAppend(a: string, b: string)
    ensures Peak(a + b) == Max(Peak(a), Depth(a) + Peak(b))
    decreases |a|
  {
    if |a| == 0 {
      assert a + b == b;
    } else {
      var s := a + b;
      assert s[0] == a[0];
      assert s[1..] == a[1..] + b;
      PeakAppend(a[1..], b);
      DepthFirst(a);
    }
  }

  lemma {:induction false} TroughAppend(a: string, b: string)
    ensures Trough(a + b) == Min(Trough(a), Depth(a) + Trough(b))
    decreases |a|
  {
    if |a| == 0 {
      assert a + b == b;
    } else {
      var s := a + b;
      assert s[0] == a[0];
      assert s[1..] == a[1..] + b;
      TroughAppend(a[1..], b);
      DepthFirst(a);
    }
  }

  /** Profiles compose: the profile of `a + b` is determined by those of `a` and `b`. */
  lemma ProfileAppend(a: string, b: string)
    ensures ProfileOf(a + b) == ProfileOf(a).Then(ProfileOf(b))
  {
    DepthAppend(a, b);
    PeakAppend(a, b);
    TroughAppend(a, b);
  }

  /** A text without braces stays at depth 0 throughout. */
  lemma ProfileBraceFree(s: string)
    requires '{' !in s && '}' !in s
    ensures ProfileOf(s) == Flat
  {
    CountZero(s, '{');
    CountZero(s, '}');
    BraceFreePeakTrough(s);
  }

  lemma {:induction false} BraceFreePeakTrough(s: string)
    requires '{' !in s && '}' !in s
    ensures Peak(s) == 0 && Trough(s) == 0
  {
    if |s| > 0 {
      assert s[0] in s;
      assert forall c :: c in s[1..] ==> c in s;
      BraceFreePeakTrough(s[1..]);
    }
  }

  lemma ProfileOpen()
    ensures ProfileOf("{") == Profile(1, 1, 0)
  {
    assert "{"[1..] == "";
  }

  lemma ProfileClose()
    ensures ProfileOf("}") == Profile(-1, 0, -1)
  {
    assert "}"[1..] == "";
  }

  /** The running depth never drops below zero: no `}` closes a group that was not opened. */
  predicate NeverNegative(s: string)
  {
    forall i :: 0 <= i <= |s| ==> Depth(s[..i]) >= 0
  }

  /** Every group opened is closed, and never closed before it is opened. */
  predicate Balanced(s: string)
  {
    Depth(s) == 0 && NeverNegative(s)
  }

  /** The deepest nesting reached while reading `s` is exactly `d`. */
  predicate MaxDepthIs(s: string, d: int)
  {
    && (forall i :: 0 <= i <= |s| ==> Depth(s[..i]) <= d)
    && (exists i :: 0 <= i <= |s| && Depth(s[..i]) == d)
  }

  /** Reading the prefix-based properties off a profile. */
  lemma ProfileMeaning(s: string)
    ensures NeverNegative(s) <==> ProfileOf(s).trough >= 0
    ensures MaxDepthIs(s, ProfileOf(s).peak)
    ensures Count(s, '{') == Count(s, '}') <==> ProfileOf(s).net == 0
  {
    PeakIsMaximum(s);
    TroughIsMinimum(s);
  }
}
