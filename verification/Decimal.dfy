/**
 Decimal text: what `fmt.Sprintf("%d")` prints, and what the digit accumulators of the
 repository read back. Text is one char per byte.
 */
module Decimal {

  predicate IsDigit(c: char) { '0' <= c <= '9' }

  function DigitOf(c: char): nat
    requires IsDigit(c)
  {
    c as int - '0' as int
  }

  function DigitChar(d: nat): (c: char)
    requires d < 10
    ensures IsDigit(c) && DigitOf(c) == d
  {
    ('0' as int + d) as char
  }

  predicate AllDigits(s: string) { forall i :: 0 <= i < |s| ==> IsDigit(s[i]) }

  function Pow10(w: nat): (p: nat)
    ensures p >= 1
  {
    if w == 0 then 1 else 10 * Pow10(w - 1)
  }

  /** Decimal text of a natural number, without leading zeros. */
  function Format(n: nat): (s: string)
    ensures s != [] && AllDigits(s)
    ensures |s| > 1 ==> s[0] != '0'
  {
    if n < 10 then [DigitChar(n)] else Format(n / 10) + [DigitChar(n % 10)]
  }

  /** Decimal text of an integer, with a leading minus sign when negative. */
  function FormatInt(v: int): string {
    if v < 0 then "-" + Format(-v) else Format(v)
  }

  /** The number spelt by the digits of `s`; every other byte is skipped. */
  function Value(s: string): nat {
    if s == [] then 0
    else if IsDigit(s[|s| - 1]) then Value(s[..|s| - 1]) * 10 + DigitOf(s[|s| - 1])
    else Value(s[..|s| - 1])
  }

  /** The digits of `s`, in order. */
  function DigitsOf(s: string): (d: string)
    ensures AllDigits(d) && |d| <= |s|
  {
    if s == [] then []
    else if IsDigit(s[|s| - 1]) then DigitsOf(s[..|s| - 1]) + [s[|s| - 1]]
    else DigitsOf(s[..|s| - 1])
  }

  function Zeros(w: nat): (s: string)
    ensures |s| == w && AllDigits(s)
  {
    seq(w, _ => '0')
  }

  lemma ValueAppend(s: string, c: char)
    ensures Value(s + [c]) == if IsDigit(c) then Value(s) * 10 + DigitOf(c) else Value(s)
  {
    assert (s + [c])[..|s|] == s;
  }

  /** Concatenation shifts the left part by one decimal place per digit of the right part. */
  lemma {:induction false} ValueConcat(a: string, b: string)
    ensures Value(a + b) == Value(a) * Pow10(|DigitsOf(b)|) + Value(b)
  {
    if b == [] {
      assert a + b == a;
    } else {
      var b', c := b[..|b| - 1], b[|b| - 1];
      assert a + b == (a + b') + [c];
      ValueAppend(a + b', c);
      ValueConcat(a, b');
      if IsDigit(c) {
        ShiftSum(Value(a), Pow10(|DigitsOf(b')|), Value(b'), DigitOf(c));
      }
    }
  }

  lemma ShiftSum(x: int, p: int, y: int, d: int)
    ensures (x * p + y) * 10 + d == x * (10 * p) + (y * 10 + d)
  {
    assert (x * p) * 10 == x * (10 * p);
  }

  lemma {:induction false} ValueBound(s: string)
    ensures Value(s) < Pow10(|DigitsOf(s)|)
  {
    if s != [] { ValueBound(s[..|s| - 1]); }
  }

  lemma Pow10Monotone(a: nat, b: nat)
    requires a <= b
    ensures Pow10(a) <= Pow10(b)
  {
    if a < b { Pow10Monotone(a, b - 1); }
  }

  lemma {:induction false} AllDigitsCount(s: string)
    requires AllDigits(s)
    ensures DigitsOf(s) == s
  {
    if s != [] {
      AllDigitsCount(s[..|s| - 1]);
      assert s == s[..|s| - 1] + [s[|s| - 1]];
    }
  }

  /** The digits of a text are the digits of its parts, in order. */
  lemma {:induction false} DigitsConcat(a: string, b: string)
    ensures DigitsOf(a + b) == DigitsOf(a) + DigitsOf(b)
  {
    if b == [] {
      assert a + b == a;
    } else {
      assert (a + b)[..|a + b| - 1] == a + b[..|b| - 1];
      DigitsConcat(a, b[..|b| - 1]);
    }
  }

  /** Printing a number and reading it back gives the number. */
  lemma {:induction false} FormatValue(n: nat)
    ensures Value(Format(n)) == n
  {
    if n < 10 {
      assert [DigitChar(n)][..0] == [];
    } else {
      FormatValue(n / 10);
      ValueAppend(Format(n / 10), DigitChar(n % 10));
    }
  }

  lemma {:induction false} ZerosValue(w: nat)
    ensures Value(Zeros(w)) == 0
  {
    if w > 0 {
      assert Zeros(w)[..w - 1] == Zeros(w - 1);
      ZerosValue(w - 1);
    }
  }

  /** Keeping the last `w` digits is reduction modulo 10^w. */
  lemma SuffixValue(s: string, w: nat)
    requires AllDigits(s) && w <= |s|
    ensures Value(s[|s| - w..]) == Value(s) % Pow10(w)
  {
    var a, b := s[..|s| - w], s[|s| - w..];
    assert s == a + b;
    AllDigitsCount(b);
    ValueConcat(a, b);
    ValueBound(b);
    ModOfSum(Value(a), Pow10(w), Value(b));
  }

  lemma ModOfSum(q: nat, m: nat, r: nat)
    requires 0 < m && r < m
    ensures (q * m + r) % m == r
  {
    var x := q * m + r;
    var d := x / m - q;
    assert d * m == r - x % m by {
      assert x == (x / m) * m + x % m;
      assert (x / m - q) * m == (x / m) * m - q * m;
    }
    MultipleAtLeast(d, m);
  }

  lemma MultipleAtLeast(d: int, m: int)
    requires 0 < m
    ensures 1 <= d ==> d * m >= m
    ensures d <= -1 ==> d * m <= -m
  {
    if 1 <= d { assert (d - 1) * m >= 0; }
    if d <= -1 { assert (-1 - d) * m >= 0; }
  }

  lemma SmallMod(n: nat, m: nat)
    requires n < m
    ensures n % m == n
  {
  }
}
