/**
  Python's rendering of an integer as text (`"{}".format(limit)`, i.e. `str`):
  optional minus sign followed by the decimal digits, most significant first,
  with no leading zeros. `Value` reads such text back.
 */
module Decimal {

  function DigitChar(d: int): (c: char)
    requires 0 <= d < 10
    ensures '0' <= c <= '9'
  {
    "0123456789"[d]
  }

  function DigitValue(c: char): (d: int)
    requires '0' <= c <= '9'
    ensures 0 <= d < 10
  {
    c as int - '0' as int
  }

  lemma DigitRoundTrip(d: int)
    requires 0 <= d < 10
    ensures DigitValue(DigitChar(d)) == d
  {
  }

  predicate IsDigit(c: char) { '0' <= c <= '9' }

  predicate AllDigits(s: string)
  {
    forall k :: 0 <= k < |s| ==> IsDigit(s[k])
  }

  /** Decimal digits of `n`, most significant first. */
  function Digits(n: nat): (r: string)
    ensures |r| > 0 && AllDigits(r)
    ensures |r| > 1 ==> r[0] != '0'
    ensures r[0] == '0' <==> n == 0
  {
    if n < 10 then [DigitChar(n)] else Digits(n / 10) + [DigitChar(n % 10)]
  }

  /** `str(i)` for a Python int. */
  function Render(i: int): (r: string)
    ensures |r| > 0
    ensures (r[0] == '-') <==> i < 0
    ensures AllDigits(if i < 0 then r[1..] else r)
    ensures var d := if i < 0 then r[1..] else r; |d| > 0 && (|d| > 1 ==> d[0] != '0')
  {
    if i < 0 then "-" + Digits(-i) else Digits(i)
  }

  /** A rendered integer ends in a digit and starts with a digit or a minus sign. */
  lemma RenderEnds(i: int)
    ensures var r := Render(i); IsDigit(r[|r| - 1]) && (IsDigit(r[0]) || r[0] == '-')
  {
    var r := Render(i);
    if i < 0 {
      assert r[|r| - 1] == r[1..][|r| - 2];
    }
  }

  /** Value of a string of digits. */
  function DigitsValue(s: string): nat
    requires AllDigits(s)
  {
    if |s| == 0 then 0 else 10 * DigitsValue(s[..|s| - 1]) + DigitValue(s[|s| - 1])
  }

  /** Value of decimal text with an optional leading minus sign. */
  function Value(s: string): int
    requires |s| > 0
    requires AllDigits(if s[0] == '-' then s[1..] else s)
  {
    if s[0] == '-' then -(DigitsValue(s[1..]) as int) else DigitsValue(s)
  }

  lemma {:induction false} DigitsRoundTrip(n: nat)
    ensures DigitsValue(Digits(n)) == n
  {
    if n >= 10 {
      var r := Digits(n);
      assert r[..|r| - 1] == Digits(n / 10);
      DigitsRoundTrip(n / 10);
      DigitRoundTrip(n % 10);
    } else {
      DigitRoundTrip(n);
    }
  }

  /** Reading the rendered text back yields the integer that was rendered. */
  lemma RenderRoundTrip(i: int)
    ensures Value(Render(i)) == i
  {
    var n: nat := if i < 0 then -i else i;
    DigitsRoundTrip(n);
    SignedValue(Digits(n), n);
  }

  /** Digits of value `n` read as `n`, and after a minus sign as `-n`. */
  lemma SignedValue(d: string, n: nat)
    requires |d| > 0 && AllDigits(d) && DigitsValue(d) == n
    ensures Value(d) == n
    ensures Value("-" + d) == -(n as int)
  {
    assert d[0] != '-';
    var m := "-" + d;
    assert m[0] == '-' && m[1..] == d;
  }

  /** Rendered integers consist of a minus sign and digits only. */
  lemma RenderCharacters(i: int, c: char)
    requires c != '-' && !IsDigit(c)
    ensures c !in Render(i)
  {
    var r := Render(i);
    if i < 0 {
      forall k | 0 <= k < |r| ensures r[k] != c {
        if k > 0 { assert r[k] == r[1..][k - 1]; }
      }
    }
  }
}
