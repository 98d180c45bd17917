/** Centavos printed as "R$ 1.234,56", in int64 arithmetic. */
module Money {
  import opened MachineInts
  import opened Decimal

  /** Division and remainder that truncate toward zero. */
  function Quo(a: int, b: int): int
    requires b > 0
  {
    if a >= 0 then a / b else -(-a / b)
  }

  function Rem(a: int, b: int): int
    requires b > 0
  {
    a - Quo(a, b) * b
  }

  /** A zero-padded field of width two; a sign takes up width. */
  function TwoDigits(c: int): string {
    if 0 <= c < 10 then "0" + Format(c) else FormatInt(c)
  }

  predicate DotBefore(length: nat, i: nat) { i > 0 && (length - i) % 3 == 0 }

  /** The first i bytes of s with a dot before each byte that has a multiple of three to its right, itself included. */
  function GroupPrefix(s: string, i: nat): string
    requires i <= |s|
  {
    if i == 0 then "" else GroupPrefix(s, i - 1) + (if DotBefore(|s|, i - 1) then "." else "") + [s[i - 1]]
  }

  function Grouped(s: string): string { GroupPrefix(s, |s|) }

  /** The text as a reader would define it: groups of three split off from the right. */
  function FromRight(s: string): string {
    if |s| <= 3 then s else FromRight(s[..|s| - 3]) + "." + s[|s| - 3..]
  }

  function Mark(neg: bool): string { if neg then "-R$ " else "R$ " }

  function FormatBrl(c: int64): string {
    var n := if c < 0 then Wrap64(0 - c) else c;
    Mark(c < 0) + (FromRight(FormatInt(Quo(n, 100))) + ("," + TwoDigits(Rem(n, 100))))
  }

  method GroupThousands(n: int64) returns (out: string)
    ensures out == FromRight(FormatInt(n))
  {
    var s := FormatInt(n);
    if |s| <= 3 { return s; }
    out := [];
    for i := 0 to |s|
      invariant out == GroupPrefix(s, i)
    {
      if i > 0 && (|s| - i) % 3 == 0 { out := out + ['.']; }
      out := out + [s[i]];
    }
    GroupedFromRight(s);
  }

  method Print(c: int64) returns (text: string)
    ensures text == FormatBrl(c)
  {
    var neg := c < 0;
    var n: int64 := c;
    if neg { n := Wrap64(0 - n); }
    var reais, cents := Quo(n, 100), Rem(n, 100);
    text := "";
    if neg { text := text + "-"; }
    text := text + "R$ ";
    assert text == Mark(neg);
    var grouped := GroupThousands(reais);
    text := text + grouped;
    text := text + ",";
    text := text + TwoDigits(cents);
    assert text == Mark(neg) + (grouped + ("," + TwoDigits(cents)));
  }

  // ---- grouping ----

  lemma {:induction false} PrefixShift(s: string, i: nat)
    requires |s| > 3 && i <= |s| - 3
    ensures GroupPrefix(s, i) == GroupPrefix(s[..|s| - 3], i)
  {
    if i > 0 {
      PrefixShift(s, i - 1);
      assert DotBefore(|s|, i - 1) <==> DotBefore(|s| - 3, i - 1);
    }
  }

  /** The left-to-right loop yields the groups of three counted from the right. */
  lemma {:induction false} GroupedFromRight(s: string)
    ensures Grouped(s) == FromRight(s)
  {
    var n := |s|;
    if n <= 3 {
      ShortText(s);
    } else {
      hide Grouped, GroupPrefix, FromRight;
      var left := s[..n - 3];
      GroupedFromRight(left);
      WholePrefix(left);
      PrefixShift(s, n - 3);
      LastThree(s);
      RightStep(s);
    }
  }

  lemma WholePrefix(s: string)
    ensures Grouped(s) == GroupPrefix(s, |s|)
  {
  }

  lemma ShortText(s: string)
    requires |s| <= 3
    ensures Grouped(s) == FromRight(s) == s
  {
    hide GroupPrefix;
    ShortPrefix(s, |s|);
    assert s[..|s|] == s;
  }

  lemma RightStep(s: string)
    requires |s| > 3
    ensures FromRight(s) == FromRight(s[..|s| - 3]) + "." + s[|s| - 3..]
  {
  }

  lemma Extend(s: string, i: nat, dot: string)
    requires i < |s| && dot == if DotBefore(|s|, i) then "." else ""
    ensures GroupPrefix(s, i + 1) == GroupPrefix(s, i) + dot + [s[i]]
  {
  }

  lemma LastThree(s: string)
    requires |s| > 3
    ensures Grouped(s) == GroupPrefix(s, |s| - 3) + "." + s[|s| - 3..]
  {
    hide GroupPrefix, FromRight;
    var n := |s|;
    Extend(s, n - 3, ".");
    Extend(s, n - 2, "");
    Extend(s, n - 1, "");
    Glue(
      GroupPrefix(s, n - 3), GroupPrefix(s, n - 2), GroupPrefix(s, n - 1), GroupPrefix(s, n), ".", "", s[n - 3..]);
  }

  lemma Glue(p: string, p1: string, p2: string, p3: string, dot: string, none: string, t: string)
    requires |t| == 3 && |none| == 0
    requires p1 == p + dot + [t[0]] && p2 == p1 + none + [t[1]] && p3 == p2 + none + [t[2]]
    ensures p3 == p + dot + t
  {
    assert p2 == p1 + [t[1]];
    assert t == [t[0]] + [t[1]] + [t[2]];
  }

  lemma {:induction false} ShortPrefix(s: string, i: nat)
    requires |s| <= 3 && i <= |s|
    ensures GroupPrefix(s, i) == s[..i]
  {
    if i > 0 { ShortPrefix(s, i - 1); }
  }

  /** Dots sit exactly before every third digit from the right, so at every fourth byte of the text. */
  lemma {:induction false} DotsEveryThree(s: string, j: nat)
    requires '.' !in s && j < |FromRight(s)|
    ensures FromRight(s)[j] == '.' <==> (|FromRight(s)| - 1 - j) % 4 == 3
  {
    var n := |s|;
    if n > 3 {
      var left := FromRight(s[..n - 3]);
      if j < |left| {
        DotsEveryThree(s[..n - 3], j);
        assert (|left| + 3 - j) % 4 == (|left| - 1 - j) % 4;
      } else if j > |left| {
        assert FromRight(s)[j] == s[n - 3 + (j - |left| - 1)];
      }
    }
  }

  lemma {:induction false} FromRightValue(s: string)
    ensures Value(FromRight(s)) == Value(s)
  {
    var n := |s|;
    if n > 3 {
      var a, b := s[..n - 3], s[n - 3..];
      RightStep(s);
      FromRightValue(a);
      hide Value, FromRight;
      ValueAppend(FromRight(a), '.');
      ValueConcat(FromRight(a) + ".", b);
      ValueConcat(a, b);
      assert s == a + b;
    }
  }

  // ---- reading back ----

  /** Strips the sign, the currency mark, the dots and the comma, and reads the digits. */
  function ReadBack(text: string): int {
    if text != "" && text[0] == '-' then 0 - Value(text) else Value(text)
  }

  lemma TwoDigitsValue(c: nat)
    requires c < 100
    ensures |TwoDigits(c)| == 2 && AllDigits(TwoDigits(c)) && Value(TwoDigits(c)) == c
  {
    FormatValue(c);
    if c < 10 { ValueConcat("0", Format(c)); }
    else { assert Format(c) == Format(c / 10) + [DigitChar(c % 10)]; }
  }

  predicate NoDigit(s: string) { forall i :: 0 <= i < |s| ==> !IsDigit(s[i]) }

  lemma {:induction false} NoDigitValue(s: string)
    requires NoDigit(s)
    ensures Value(s) == 0 && DigitsOf(s) == []
  {
    if s != [] { NoDigitValue(s[..|s| - 1]); }
  }

  lemma SkipFront(front: string, rest: string)
    requires NoDigit(front)
    ensures Value(front + rest) == Value(rest)
  {
    NoDigitValue(front);
    ValueConcat(front, rest);
  }

  lemma BodyValue(reais: string, cents: string)
    requires |cents| == 2 && AllDigits(cents)
    ensures Value(FromRight(reais) + ("," + cents)) == Value(reais) * 100 + Value(cents)
  {
    var left := FromRight(reais);
    FromRightValue(reais);
    ValueAppend(left, ',');
    assert left + ("," + cents) == (left + ",") + cents;
    ValueConcat(left + ",", cents);
    AllDigitsCount(cents);
    assert Pow10(2) == 100;
  }

  function Body(n: nat): string { FromRight(Format(n / 100)) + ("," + TwoDigits(n % 100)) }

  lemma BodyReads(n: nat)
    ensures Value(Body(n)) == n
  {
    TwoDigitsValue(n % 100);
    BodyValue(Format(n / 100), TwoDigits(n % 100));
    FormatValue(n / 100);
  }

  lemma PlainForm(c: int64)
    requires c > MIN64
    ensures FormatBrl(c) == Mark(c < 0) + Body(if c < 0 then 0 - c else c)
  {
    var n := if c < 0 then 0 - c else c;
    assert Quo(n, 100) == n / 100 && Rem(n, 100) == n % 100;
  }

  lemma MarkStart(c: int64, rest: string)
    ensures NoDigit(Mark(c < 0)) && ((Mark(c < 0) + rest)[0] == '-' <==> c < 0)
  {
  }

  /** Printing loses nothing, except for the one amount whose negation does not fit in int64. */
  lemma ReadBackIff(c: int64)
    ensures ReadBack(FormatBrl(c)) == c <==> c > MIN64
  {
    if c == MIN64 {
      SmallestReads();
    } else {
      var n: nat := if c < 0 then 0 - c else c;
      PlainForm(c);
      hide FormatBrl, Body, Value, Mark;
      MarkStart(c, Body(n));
      BodyReads(n);
      SkipFront(Mark(c < 0), Body(n));
    }
  }

  lemma {:induction false} FromRightDigits(s: string)
    requires AllDigits(s)
    ensures DigitsOf(FromRight(s)) == s
  {
    AllDigitsCount(s);
    var n := |s|;
    if n > 3 {
      var a, b := s[..n - 3], s[n - 3..];
      RightStep(s);
      FromRightDigits(a);
      NoDigitValue(".");
      DigitsConcat(FromRight(a), ".");
      DigitsConcat(FromRight(a) + ".", b);
      AllDigitsCount(b);
      hide DigitsOf, FromRight;
      assert s == a + b;
    }
  }

  /**
   The printed text, except for the smallest amount: the sign, the currency mark, the reais with
   their digits in order and dots as stated, a comma, and two digits for the centavos.
   */
  lemma TextShape(c: int64) returns (reais: string, centavos: string)
    requires c > MIN64
    ensures FormatBrl(c) == (if c < 0 then "-R$ " else "R$ ") + (reais + ("," + centavos))
    ensures var n: nat := if c < 0 then 0 - c else c;
            && |centavos| == 2 && AllDigits(centavos) && Value(centavos) == n % 100
            && DigitsOf(reais) == Format(n / 100) && Value(reais) == n / 100
    ensures forall j :: 0 <= j < |reais| ==>
              (reais[j] == '.' <==> (|reais| - 1 - j) % 4 == 3) && (reais[j] == '.' || IsDigit(reais[j]))
  {
    hide FormatBrl, TwoDigits, Value, DigitsOf, FromRight, Format;
    var n: nat := if c < 0 then 0 - c else c;
    var digits := Format(n / 100);
    PlainForm(c);
    reais, centavos := FromRight(digits), TwoDigits(n % 100);
    TwoDigitsValue(n % 100);
    FromRightDigits(digits);
    FromRightValue(digits);
    FormatValue(n / 100);
    GroupedShape(digits);
  }

  lemma GroupedShape(s: string)
    requires AllDigits(s)
    ensures var g := FromRight(s);
            forall j :: 0 <= j < |g| ==> (g[j] == '.' <==> (|g| - 1 - j) % 4 == 3) && (g[j] == '.' || IsDigit(g[j]))
  {
    hide FromRight;
    var g := FromRight(s);
    forall j | 0 <= j < |g| ensures (g[j] == '.' <==> (|g| - 1 - j) % 4 == 3) && (g[j] == '.' || IsDigit(g[j])) {
      DotsEveryThree(s, j);
      DotOrDigit(s, j);
    }
  }

  lemma {:induction false} DotOrDigit(s: string, j: nat)
    requires AllDigits(s) && j < |FromRight(s)|
    ensures FromRight(s)[j] == '.' || IsDigit(FromRight(s)[j])
  {
    if |s| > 3 {
      var left := FromRight(s[..|s| - 3]);
      if j < |left| { DotOrDigit(s[..|s| - 3], j); }
    }
  }

  const SMALLEST_REAIS: nat := 92233720368547758

  /** The smallest amount keeps its sign through the negation and is printed with three signs. */
  lemma SmallestText()
    ensures FormatBrl(MIN64) == Mark(true) + (FromRight("-" + Format(SMALLEST_REAIS)) + ("," + "-8"))
  {
    var n := Wrap64(0 - MIN64);
    assert n == MIN64;
    assert Quo(n, 100) == 0 - SMALLEST_REAIS && Rem(n, 100) == -8;
    hide FromRight, Mark;
    assert TwoDigits(-8) == "-8" by { assert Format(8) == "8"; }
  }

  lemma SmallestReads()
    ensures ReadBack(FormatBrl(MIN64)) != MIN64
  {
    SmallestText();
    var digits := "-" + Format(SMALLEST_REAIS);
    var left := FromRight(digits);
    var rest := left + ("," + "-8");
    hide FormatBrl, FromRight, Value, Format, Mark;
    MarkStart(MIN64, rest);
    SkipFront(Mark(true), rest);
    ValueConcat(left, "," + "-8");
    FromRightValue(digits);
    SkipFront("-", Format(SMALLEST_REAIS));
    FormatValue(SMALLEST_REAIS);
    TailValue();
  }

  lemma TailValue()
    ensures |DigitsOf("," + "-8")| == 1 && Value("," + "-8") == 8 && Pow10(1) == 10
  {
    var t := "," + "-8";
    assert t[..2] == ",-" && t[2] == '8';
    NoDigitValue(",-");
  }

  lemma {:induction false} FirstOfGroup(s: string)
    requires s != ""
    ensures FromRight(s) != "" && FromRight(s)[0] == s[0]
  {
    if |s| > 3 { FirstOfGroup(s[..|s| - 3]); }
  }

  /** Two different amounts are never printed alike, the smallest one included. */
  lemma PrintInjective(c: int64, d: int64)
    requires FormatBrl(c) == FormatBrl(d)
    ensures c == d
  {
    hide FormatBrl, ReadBack;
    ReadBackIff(c);
    ReadBackIff(d);
    if c == MIN64 && d > MIN64 { SmallestApart(d); }
    if d == MIN64 && c > MIN64 { SmallestApart(c); }
  }

  lemma Fifth(front: string, rest: string)
    requires |front| == 4 && rest != ""
    ensures (front + rest)[4] == rest[0]
  {
  }

  lemma SmallestApart(c: int64)
    requires c > MIN64
    ensures FormatBrl(c) != FormatBrl(MIN64)
  {
    SmallestText();
    PlainForm(c);
    var n: nat := if c < 0 then 0 - c else c;
    var digits, small := Format(n / 100), "-" + Format(SMALLEST_REAIS);
    FirstOfGroup(digits);
    FirstOfGroup(small);
    var tail := FromRight(small) + ("," + "-8");
    MarkStart(c, Body(n));
    MarkStart(MIN64, tail);
    assert Body(n)[0] == digits[0];
    assert tail[0] == '-';
    hide FormatBrl, FromRight, Format, Body;
    if c < 0 {
      Fifth(Mark(true), Body(n));
      Fifth(Mark(true), tail);
    }
  }
}
