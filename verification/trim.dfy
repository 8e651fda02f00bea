/**
  The timing summary every benchmark loop computes from its measurements:
  the list of `repetitions` wall-clock times is sorted, the bottom and top
  tenth are dropped by keeping `times_taken[r // 10 : (r // 10) * 9]` (for
  `r` measurements), and the kept values are averaged with `sum(...) / len(...)`.

  Times are exact reals here; `sorted` is specified by what it returns (the
  same values, in order) rather than by Python's algorithm.
 */
module Trim {
  import opened Results

  predicate Sorted(s: seq<real>)
  {
    forall i, j :: 0 <= i < j < |s| ==> s[i] <= s[j]
  }

  /** `x` inserted before the first element of the sorted `s` that is not below it. */
  function Insert(x: real, s: seq<real>): (r: seq<real>)
    requires Sorted(s)
    ensures Sorted(r) && multiset(r) == multiset(s) + multiset{x}
    ensures |r| == |s| + 1
    ensures |s| > 0 ==> r[0] == if x <= s[0] then x else s[0]
  {
    if |s| == 0 then [x]
    else if x <= s[0] then SortedCons(x, s); [x] + s
    else
      var rest := Insert(x, s[1..]);
      assert s == [s[0]] + s[1..];
      SortedCons(s[0], rest);
      [s[0]] + rest
  }

  /** A value no greater than the head of a sorted sequence extends it to a sorted sequence. */
  lemma SortedCons(h: real, s: seq<real>)
    requires Sorted(s) && (|s| > 0 ==> h <= s[0])
    ensures Sorted([h] + s)
  {
    var r := [h] + s;
    forall i, j | 0 <= i < j < |r|
      ensures r[i] <= r[j]
    {
      if i > 0 {
        assert r[i] == s[i - 1] && r[j] == s[j - 1];
      } else {
        assert r[j] == s[j - 1];
      }
    }
  }

  /** Python's `sorted`: the same measurements in ascending order. */
  function Sort(s: seq<real>): (r: seq<real>)
    ensures Sorted(r) && multiset(r) == multiset(s)
    ensures |r| == |s|
  {
    if |s| == 0 then []
    else
      assert s == [s[0]] + s[1..];
      Insert(s[0], Sort(s[1..]))
  }

  /** The first element of a sorted non-empty sequence is its least element. */
  lemma SortedFirst(s: seq<real>, x: real)
    requires Sorted(s) && x in multiset(s)
    ensures s[0] <= x
  {
    var j :| 0 <= j < |s| && s[j] == x;
  }

  /**
    A sorted sequence is determined by its multiset of values: any two sorted
    arrangements of the same measurements are equal.
   */
  lemma {:induction false} SortedUnique(a: seq<real>, b: seq<real>)
    requires Sorted(a) && Sorted(b) && multiset(a) == multiset(b)
    ensures a == b
    decreases |a|
  {
    if |a| > 0 {
      assert a[0] in multiset(b) && b[0] in multiset(a) by {
        assert a[0] in multiset(a) && b[0] in multiset(b);
      }
      SortedFirst(b, a[0]);
      SortedFirst(a, b[0]);
      assert a[0] == b[0];
      assert a == [a[0]] + a[1..] && b == [b[0]] + b[1..];
      assert multiset(a) == multiset{a[0]} + multiset(a[1..]);
      assert multiset(b) == multiset{a[0]} + multiset(b[1..]);
      Cancel(a[0], multiset(a[1..]), multiset(b[1..]));
      SortedUnique(a[1..], b[1..]);
    } else {
      assert |b| == |multiset(b)| == 0;
    }
  }

  lemma Cancel(x: real, p: multiset<real>, q: multiset<real>)
    requires multiset{x} + p == multiset{x} + q
    ensures p == q
  {
    forall y
      ensures p[y] == q[y]
    {
      assert (multiset{x} + p)[y] == (multiset{x} + q)[y];
    }
  }

  /** `Sort` returns the one sorted arrangement of the measurements. */
  lemma SortIsSortedPermutation(s: seq<real>, t: seq<real>)
    ensures Sorted(t) && multiset(t) == multiset(s) <==> t == Sort(s)
  {
    if Sorted(t) && multiset(t) == multiset(s) {
      SortedUnique(t, Sort(s));
    }
  }

  /** Number of measurements dropped at each end, `r // 10` for `r` measurements. */
  function Cut(n: nat): nat
  {
    n / 10
  }

  /** Where the kept window ends, `(r // 10) * 9` for `r` measurements. */
  function End(n: nat): nat
  {
    Cut(n) * 9
  }

  lemma CutBounds(n: nat)
    ensures Cut(n) <= End(n) <= n
    ensures End(n) - Cut(n) == 8 * Cut(n)
  {
  }

  /** `times_taken[(repetitions//10):(repetitions//10)*9]`, for a list of `repetitions` measurements. */
  function Window(s: seq<real>): (w: seq<real>)
    ensures |w| == 8 * Cut(|s|)
  {
    CutBounds(|s|);
    s[Cut(|s|)..End(|s|)]
  }

  /** The window keeps nothing below ten measurements, and of a hundred it keeps positions 10 to 89. */
  lemma WindowSize(s: seq<real>)
    ensures |Window(s)| == 0 <==> |s| < 10
    ensures |s| == 100 ==> Window(s) == s[10..90]
  {
  }

  /** Every value the window keeps lies between the dropped low values and the dropped high values. */
  lemma WindowBetween(s: seq<real>)
    requires Sorted(s)
    ensures Sorted(Window(s))
    ensures forall i, k :: 0 <= i < Cut(|s|) && 0 <= k < |Window(s)| ==> s[i] <= Window(s)[k]
    ensures forall k, j :: 0 <= k < |Window(s)| && End(|s|) <= j < |s| ==> Window(s)[k] <= s[j]
  {
    CutBounds(|s|);
  }

  /** The window holds measurements only, each no more often than it was measured. */
  lemma WindowFromMeasurements(s: seq<real>)
    ensures multiset(Window(Sort(s))) <= multiset(s)
  {
    WindowWithin(Sort(s));
  }

  lemma WindowWithin(t: seq<real>)
    ensures multiset(Window(t)) <= multiset(t)
  {
    var c, e := Cut(|t|), End(|t|);
    CutBounds(|t|);
    var low, high := t[..c], t[e..];
    assert t == low + Window(t) + high;
    assert multiset(t) == multiset(low) + multiset(Window(t)) + multiset(high);
  }

  // ---------------------------------------------------------------------------
  // The average

  /** Python's `ZeroDivisionError` from `sum(...) / len(...)` of an empty list. */
  datatype StatsError = ZeroDivision

  /** Python's `sum`, left to right. */
  function Sum(s: seq<real>): real
  {
    if |s| == 0 then 0.0 else Sum(s[..|s| - 1]) + s[|s| - 1]
  }

  /** A sum of `|s|` values between `lo` and `hi` lies between `|s| * lo` and `|s| * hi`. */
  lemma {:induction false} SumBounds(s: seq<real>, lo: real, hi: real)
    requires forall i :: 0 <= i < |s| ==> lo <= s[i] <= hi
    ensures |s| as real * lo <= Sum(s) <= |s| as real * hi
    decreases |s|
  {
    if |s| > 0 {
      var m := |s| - 1;
      SumBounds(s[..m], lo, hi);
      assert Sum(s) == Sum(s[..m]) + s[m];
      assert |s| as real * lo == m as real * lo + lo;
      assert |s| as real * hi == m as real * hi + hi;
    }
  }

  /** `sum(s) / len(s)`. */
  function Mean(s: seq<real>): (r: Result<real, StatsError>)
    ensures r.Failure? <==> |s| == 0
  {
    if |s| == 0 then Failure(ZeroDivision) else Success(Sum(s) / |s| as real)
  }

  /** The mean of values between `lo` and `hi` lies between them. */
  lemma MeanBounds(s: seq<real>, lo: real, hi: real)
    requires |s| > 0 && forall i :: 0 <= i < |s| ==> lo <= s[i] <= hi
    ensures lo <= Mean(s).value <= hi
  {
    SumBounds(s, lo, hi);
    var n := |s| as real;
    assert Mean(s).value * n == Sum(s);
  }

  /** The mean of a constant list is that constant. */
  lemma MeanConstant(s: seq<real>, x: real)
    requires |s| > 0 && forall i :: 0 <= i < |s| ==> s[i] == x
    ensures Mean(s) == Success(x)
  {
    MeanBounds(s, x, x);
  }

  // ---------------------------------------------------------------------------
  // The reported time

  /** `time_taken` for a list of measurements: sort, keep the window, average. */
  function TimeTaken(times: seq<real>): (r: Result<real, StatsError>)
    ensures r.Failure? <==> |times| < 10
  {
    Mean(Window(Sort(times)))
  }

  /**
    With ten or more measurements it lies between the smallest and the
    largest kept value: for `t` the measurements in ascending order, between
    `t[r // 10]` and `t[(r // 10) * 9 - 1]`.
   */
  lemma TimeTakenBounds(times: seq<real>, t: seq<real>)
    requires Sorted(t) && multiset(t) == multiset(times) && |t| >= 10
    ensures TimeTaken(times).Success?
    ensures t[Cut(|t|)] <= TimeTaken(times).value <= t[End(|t|) - 1]
  {
    SortedUnique(t, Sort(times));
    SortedWindowMean(t);
  }

  lemma SortedWindowMean(t: seq<real>)
    requires Sorted(t) && |t| >= 10
    ensures var c := Cut(|t|);
      Mean(Window(t)).Success? && t[c] <= Mean(Window(t)).value <= t[End(|t|) - 1]
  {
    var c := Cut(|t|);
    WindowBetween(t);
    WindowMean(Window(t), t[c], t[End(|t|) - 1]);
  }

  /** A window of sorted values whose first and last are `lo` and `hi` has its mean between them. */
  lemma WindowMean(w: seq<real>, lo: real, hi: real)
    requires |w| > 0 && Sorted(w) && w[0] == lo && w[|w| - 1] == hi
    ensures Mean(w).Success? && lo <= Mean(w).value <= hi
  {
    MeanBounds(w, lo, hi);
  }

  /** The reported time depends only on which measurements were taken, not on their order. */
  lemma TimeTakenOrderFree(a: seq<real>, b: seq<real>)
    requires multiset(a) == multiset(b)
    ensures TimeTaken(a) == TimeTaken(b)
  {
    SortedUnique(Sort(a), Sort(b));
  }
}
