/** CPF and CNPJ check digits: the validators' loops, and which typing errors they catch. */
module CheckDigits {
  import opened Decimal

  datatype Verdict = Accepted | AllSame | BadCheckDigit | BadLength(digits: nat)

  type Digits = d: string | AllDigits(d) witness ""

  predicate SameThroughout(s: string) {
    s != "" && forall i :: 0 < i < |s| ==> s[i] == s[0]
  }

  method AllSameRune(s: string) returns (same: bool)
    ensures same == SameThroughout(s)
  {
    if |s| == 0 { return false; }
    var first := s[0];
    for i := 1 to |s|
      invariant forall j :: 0 < j < i ==> s[j] == first
    {
      if s[i] != first { return false; }
    }
    same := true;
  }

  /** The sum of digits times weights over the first n positions. */
  function Weighted(d: Digits, w: seq<nat>, n: nat): nat
    requires n <= |w| && n <= |d|
  {
    if n == 0 then 0 else Weighted(d, w, n - 1) + DigitOf(d[n - 1]) * w[n - 1]
  }

  // ---- CPF ----

  const CPF_WEIGHTS: seq<seq<nat>> := [[10, 9, 8, 7, 6, 5, 4, 3, 2], [11, 10, 9, 8, 7, 6, 5, 4, 3, 2]]

  function CpfDigit(sum: nat): nat {
    var rem := sum * 10 % 11;
    if rem == 10 then 0 else rem
  }

  /** The two equations of the CPF loop. */
  predicate CpfChecks(d: Digits)
    requires |d| == 11
  {
    && CpfDigit(Weighted(d, CPF_WEIGHTS[0], 9)) == DigitOf(d[9])
    && CpfDigit(Weighted(d, CPF_WEIGHTS[1], 10)) == DigitOf(d[10])
  }

  function CpfVerdict(d: Digits): Verdict
    requires |d| == 11
  {
    if SameThroughout(d) then AllSame else if CpfChecks(d) then Accepted else BadCheckDigit
  }

  lemma CpfWeightAt(i: nat, j: nat)
    requires i < 2 && j < 9 + i
    ensures |CPF_WEIGHTS[i]| == 9 + i && CPF_WEIGHTS[i][j] == 10 + i - j
  {
  }

  lemma CpfSumStep(d: Digits, i: nat, j: nat)
    requires |d| == 11 && i < 2 && j < 9 + i
    ensures |CPF_WEIGHTS[i]| == 9 + i
    ensures Weighted(d, CPF_WEIGHTS[i], j + 1) == Weighted(d, CPF_WEIGHTS[i], j) + DigitOf(d[j]) * (10 + i - j)
    ensures Weighted(d, CPF_WEIGHTS[i], 0) == 0
  {
    CpfWeightAt(i, j);
  }

  method ValidateCpf(d: Digits) returns (v: Verdict)
    requires |d| == 11
    ensures v == CpfVerdict(d)
    ensures v == Accepted <==> !AllEqual(d) && CpfCongruent(d)
  {
    CpfAcceptedIff(d);
    hide AllEqual, CpfCongruent;
    var same := AllSameRune(d);
    if same { return AllSame; }
    hide Weighted, SameThroughout;
    var mult := [10, 11];
    for i := 0 to 2
      invariant i >= 1 ==> CpfDigit(Weighted(d, CPF_WEIGHTS[0], 9)) == DigitOf(d[9])
      invariant i >= 2 ==> CpfDigit(Weighted(d, CPF_WEIGHTS[1], 10)) == DigitOf(d[10])
    {
      var sum: nat := 0;
      CpfSumStep(d, i, 0);
      for j := 0 to 9 + i
        invariant sum == Weighted(d, CPF_WEIGHTS[i], j)
      {
        CpfSumStep(d, i, j);
        sum := sum + DigitOf(d[j]) * (mult[i] - j);
      }
      var rem := sum * 10 % 11;
      if rem == 10 { rem := 0; }
      assert rem == CpfDigit(sum);
      if rem != DigitOf(d[9 + i]) { return BadCheckDigit; }
    }
    v := Accepted;
  }

  // ---- CNPJ ----

  const CNPJ_WEIGHTS: seq<seq<nat>> :=
    [[5, 4, 3, 2, 9, 8, 7, 6, 5, 4, 3, 2], [6, 5, 4, 3, 2, 9, 8, 7, 6, 5, 4, 3, 2]]

  function CnpjDigit(sum: nat): nat {
    var rem := sum % 11;
    if rem >= 2 then 11 - rem else 0
  }

  predicate CnpjChecks(d: Digits)
    requires |d| == 14
  {
    && CnpjDigit(Weighted(d, CNPJ_WEIGHTS[0], 12)) == DigitOf(d[12])
    && CnpjDigit(Weighted(d, CNPJ_WEIGHTS[1], 13)) == DigitOf(d[13])
  }

  function CnpjVerdict(d: Digits): Verdict
    requires |d| == 14
  {
    if SameThroughout(d) then AllSame else if CnpjChecks(d) then Accepted else BadCheckDigit
  }

  method ValidateCnpj(d: Digits) returns (v: Verdict)
    requires |d| == 14
    ensures v == CnpjVerdict(d)
    ensures v == Accepted <==> !AllEqual(d) && CnpjCongruent(d)
  {
    CnpjAcceptedIff(d);
    hide AllEqual, CnpjCongruent;
    var same := AllSameRune(d);
    if same { return AllSame; }
    for i := 0 to |CNPJ_WEIGHTS|
      invariant i >= 1 ==> CnpjDigit(Weighted(d, CNPJ_WEIGHTS[0], 12)) == DigitOf(d[12])
      invariant i >= 2 ==> CnpjDigit(Weighted(d, CNPJ_WEIGHTS[1], 13)) == DigitOf(d[13])
    {
      var w := CNPJ_WEIGHTS[i];
      assert |w| == 12 + i;
      var sum: nat := 0;
      for j := 0 to |w|
        invariant sum == Weighted(d, w, j)
      {
        sum := sum + DigitOf(d[j]) * w[j];
      }
      var rem := sum % 11;
      var exp := 0;
      if rem >= 2 { exp := 11 - rem; }
      if exp != DigitOf(d[12 + i]) { return BadCheckDigit; }
    }
    v := Accepted;
  }

  /** Formatting characters are ignored; the number of digits selects the check. */
  function DocumentVerdict(doc: string): Verdict {
    var d := DigitsOf(doc);
    if |d| == 11 then CpfVerdict(d) else if |d| == 14 then CnpjVerdict(d) else BadLength(|d|)
  }

  method ValidateDocumentNumber(doc: string) returns (v: Verdict)
    ensures v == DocumentVerdict(doc)
  {
    var digits := DigitsOf(doc);
    match |digits| {
      case 11 => v := ValidateCpf(digits);
      case 14 => v := ValidateCnpj(digits);
      case _ => v := BadLength(|digits|);
    }
  }

  // ---- one wrong digit ----

  lemma Distribute(a: int, b: int, w: int)
    ensures a * w - b * w == (a - b) * w
  {
  }

  /** Changing one digit shifts the weighted sum by the change times its weight. */
  lemma {:induction false} WeightedChange(d: Digits, e: Digits, w: seq<nat>, n: nat, k: nat)
    requires n <= |w| && n <= |d| == |e| && k < |d|
    requires forall i :: 0 <= i < |d| && i != k ==> d[i] == e[i]
    ensures Weighted(e, w, n) - Weighted(d, w, n) == if k < n then (DigitOf(e[k]) - DigitOf(d[k])) * w[k] else 0
  {
    hide DigitOf;
    if n > 0 {
      WeightedChange(d, e, w, n - 1, k);
      if n - 1 == k {
        Distribute(DigitOf(e[k]), DigitOf(d[k]), w[k]);
      }
    }
  }

  predicate Near(x: int) { x % 11 == 0 || x % 11 == 1 || x % 11 == 10 }

  /** Two sums give the same CPF digit only if they agree modulo 11, give or take one. */
  lemma CpfDigitNear(a: nat, b: nat)
    requires CpfDigit(a) == CpfDigit(b)
    ensures Near(b - a)
  {
  }

  lemma CnpjDigitNear(a: nat, b: nat)
    requires CnpjDigit(a) == CnpjDigit(b)
    ensures Near(b - a)
  {
  }

  function Size(delta: int): nat { if delta < 0 then -delta else delta }

  lemma NearDifference(a: int, delta: int)
    requires delta != 0 && Size(delta) <= 9 && Near(a) && Near(a + delta)
    ensures delta == 1 || delta == -1 || delta == 2 || delta == -2 || delta == 9 || delta == -9
  {
  }

  /** Which digit changes escape two consecutive weights. */
  lemma ConsecutiveWeights(c: nat, delta: int)
    requires 2 <= c <= 10 && delta != 0 && Size(delta) <= 9
    requires Near(delta * c) && Near(delta * (c + 1))
    ensures (c == 10 && Size(delta) == 1) || (c == 5 && (Size(delta) == 2 || Size(delta) == 9))
  {
    var a := delta * c;
    assert delta * (c + 1) == a + delta;
    NearDifference(a, delta);
    if delta == 1 { assert a == c; }
    else if delta == -1 { assert a + c == 0; }
    else if delta == 2 { assert a == 2 * c; }
    else if delta == -2 { assert a + 2 * c == 0; }
    else if delta == 9 { assert a == 9 * c; }
    else { assert a + 9 * c == 0; }
  }

  /** The one place of the CNPJ where the two weights are not consecutive. */
  lemma WeightsNineTwo(delta: int)
    requires delta != 0 && Size(delta) <= 9 && Near(delta * 9) && Near(delta * 2)
    ensures Size(delta) == 5 || Size(delta) == 6
  {
  }

  ghost predicate DifferOnlyAt(d: Digits, e: Digits, k: nat) {
    |d| == |e| && k < |d| && d[k] != e[k] && forall i :: 0 <= i < |d| && i != k ==> d[i] == e[i]
  }

  lemma DigitsDiffer(a: char, b: char)
    requires IsDigit(a) && IsDigit(b) && a != b
    ensures DigitOf(a) != DigitOf(b)
  {
  }

  /**
   Two accepted CPFs that differ in exactly one digit differ at index 0 by 1, or at index 5 by 2
   or 9. Every other single-digit error is rejected.
   */
  lemma CpfSingleError(d: Digits, e: Digits, k: nat)
    requires |d| == 11 && DifferOnlyAt(d, e, k) && CpfVerdict(d) == Accepted && CpfVerdict(e) == Accepted
    ensures var size := Size(DigitOf(e[k]) - DigitOf(d[k]));
            (k == 0 && size == 1) || (k == 5 && (size == 2 || size == 9))
  {
    var w0, w1 := CPF_WEIGHTS[0], CPF_WEIGHTS[1];
    DigitsDiffer(d[k], e[k]);
    WeightedChange(d, e, w0, 9, k);
    WeightedChange(d, e, w1, 10, k);
    if k < 9 {
      var delta := DigitOf(e[k]) - DigitOf(d[k]);
      CpfDigitNear(Weighted(d, w0, 9), Weighted(e, w0, 9));
      CpfDigitNear(Weighted(d, w1, 10), Weighted(e, w1, 10));
      assert w0[k] == 10 - k && w1[k] == 11 - k;
      ConsecutiveWeights(10 - k, delta);
    }
  }

  /**
   Two accepted CNPJs that differ in exactly one digit differ at index 0 or 8 by 2 or 9, or at
   index 4 by 5 or 6. Every other single-digit error is rejected.
   */
  lemma CnpjSingleError(d: Digits, e: Digits, k: nat)
    requires |d| == 14 && DifferOnlyAt(d, e, k) && CnpjVerdict(d) == Accepted && CnpjVerdict(e) == Accepted
    ensures var size := Size(DigitOf(e[k]) - DigitOf(d[k]));
            ((k == 0 || k == 8) && (size == 2 || size == 9)) || (k == 4 && (size == 5 || size == 6))
  {
    var w0, w1 := CNPJ_WEIGHTS[0], CNPJ_WEIGHTS[1];
    DigitsDiffer(d[k], e[k]);
    WeightedChange(d, e, w0, 12, k);
    WeightedChange(d, e, w1, 13, k);
    if k < 12 {
      CnpjDigitNear(Weighted(d, w0, 12), Weighted(e, w0, 12));
      CnpjDigitNear(Weighted(d, w1, 13), Weighted(e, w1, 13));
      var delta := DigitOf(e[k]) - DigitOf(d[k]);
      if k == 4 {
        assert w0[k] == 9 && w1[k] == 2;
        WeightsNineTwo(delta);
      } else {
        assert w1[k] == w0[k] + 1;
        ConsecutiveWeights(w0[k], delta);
      }
    }
  }

  // ---- one pair per base ----

  lemma {:induction false} WeightedPrefix(d: Digits, e: Digits, w: seq<nat>, n: nat)
    requires n <= |w| && n <= |d| && n <= |e| && forall i :: 0 <= i < n ==> d[i] == e[i]
    ensures Weighted(d, w, n) == Weighted(e, w, n)
  {
    if n > 0 { WeightedPrefix(d, e, w, n - 1); }
  }

  /** The check digits a CPF base must carry. */
  function CpfPair(base: Digits): (p: Digits)
    requires |base| == 9
    ensures |p| == 2
  {
    var first := [DigitChar(CpfDigit(Weighted(base, CPF_WEIGHTS[0], 9)))];
    first + [DigitChar(CpfDigit(Weighted(base + first, CPF_WEIGHTS[1], 10)))]
  }

  function CnpjPair(base: Digits): (p: Digits)
    requires |base| == 12
    ensures |p| == 2
  {
    var first := [DigitChar(CnpjDigit(Weighted(base, CNPJ_WEIGHTS[0], 12)))];
    first + [DigitChar(CnpjDigit(Weighted(base + first, CNPJ_WEIGHTS[1], 13)))]
  }

  lemma SameDigit(a: char, n: nat)
    requires IsDigit(a) && n < 10
    ensures DigitOf(a) == n <==> a == DigitChar(n)
  {
  }

  /** Each 9-digit base has exactly one pair of check digits that passes the loop. */
  lemma CpfPairUnique(base: Digits, pair: Digits)
    requires |base| == 9 && |pair| == 2
    ensures CpfChecks(base + pair) <==> pair == CpfPair(base)
  {
    var d := base + pair;
    var n := CpfDigit(Weighted(base, CPF_WEIGHTS[0], 9));
    WeightedPrefix(d, base, CPF_WEIGHTS[0], 9);
    SameDigit(pair[0], n);
    if pair[0] == DigitChar(n) {
      WeightedPrefix(d, base + [pair[0]], CPF_WEIGHTS[1], 10);
      SameDigit(pair[1], CpfDigit(Weighted(d, CPF_WEIGHTS[1], 10)));
    }
    assert pair == [pair[0]] + [pair[1]];
  }

  /** Each 12-digit base has exactly one pair of check digits that passes the loop. */
  lemma CnpjPairUnique(base: Digits, pair: Digits)
    requires |base| == 12 && |pair| == 2
    ensures CnpjChecks(base + pair) <==> pair == CnpjPair(base)
  {
    var d := base + pair;
    var n := CnpjDigit(Weighted(base, CNPJ_WEIGHTS[0], 12));
    WeightedPrefix(d, base, CNPJ_WEIGHTS[0], 12);
    SameDigit(pair[0], n);
    if pair[0] == DigitChar(n) {
      WeightedPrefix(d, base + [pair[0]], CNPJ_WEIGHTS[1], 13);
      SameDigit(pair[1], CnpjDigit(Weighted(d, CNPJ_WEIGHTS[1], 13)));
    }
    assert pair == [pair[0]] + [pair[1]];
  }

  // ---- when the blind spots are blind ----

  /** Both digit functions confuse the residues 0 and 1, and nothing else. */
  predicate Confused(a: nat, b: nat) { a % 11 == b % 11 || (a % 11 <= 1 && b % 11 <= 1) }

  lemma CpfDigitSameIff(a: nat, b: nat)
    ensures CpfDigit(a) == CpfDigit(b) <==> Confused(a, b)
  {
    TenTimes(a);
    TenTimes(b);
  }

  lemma TenTimes(a: nat)
    ensures a * 10 % 11 == if a % 11 == 0 then 0 else 11 - a % 11
  {
    var q, r := a / 11, a % 11;
    assert a * 10 == 11 * (10 * q + r - 1) + (11 - r);
  }

  lemma CnpjDigitSameIff(a: nat, b: nat)
    ensures CnpjDigit(a) == CnpjDigit(b) <==> Confused(a, b)
  {
  }

  /** Adding m to a sum is not noticed exactly for these residues of the sum. */
  lemma ShiftConfusedIff(a: nat, m: nat)
    requires m < 11
    ensures Confused(a, a + m) <==> m == 0 || (m == 1 && a % 11 == 0) || (m == 10 && a % 11 == 1)
  {
  }

  lemma ConfusedModulo(a: nat, b: nat, c: nat)
    requires b % 11 == c % 11
    ensures Confused(a, b) <==> Confused(a, c)
  {
  }

  /** The same for a shift by a digit change times a weight. */
  lemma RiseConfusedIff(a: nat, rise: nat, w: nat, b: nat)
    requires rise <= 9 && w <= 11 && b == a + rise * w
    ensures var m := rise * w % 11;
            Confused(a, b) <==> m == 0 || (m == 1 && a % 11 == 0) || (m == 10 && a % 11 == 1)
  {
    var m := rise * w % 11;
    var q := rise * w / 11;
    assert b == a + m + 11 * q;
    ConfusedModulo(a, b, a + m);
    ShiftConfusedIff(a, m);
  }

  /**
   The exceptions are real, and this is when they occur: an increase by the listed size at the
   listed index goes unnoticed exactly when the two sums of the original have these residues.
   Decreases are the same pairs read backwards.
   */
  lemma CpfMissedIff(d: Digits, e: Digits, k: nat)
    requires |d| == 11 && DifferOnlyAt(d, e, k) && CpfChecks(d)
    ensures var (s, t) := (Weighted(d, CPF_WEIGHTS[0], 9) % 11, Weighted(d, CPF_WEIGHTS[1], 10) % 11);
            var rise := DigitOf(e[k]) - DigitOf(d[k]);
            && (k == 0 && rise == 1 ==> (CpfChecks(e) <==> s == 1))
            && (k == 5 && rise == 2 ==> (CpfChecks(e) <==> s == 1 && t == 0))
            && (k == 5 && rise == 9 ==> (CpfChecks(e) <==> s == 0 && t == 1))
  {
    var rise := DigitOf(e[k]) - DigitOf(d[k]);
    if (k == 0 && rise == 1) || (k == 5 && (rise == 2 || rise == 9)) {
      var w0, w1 := CPF_WEIGHTS[0], CPF_WEIGHTS[1];
      assert w0[k] == 10 - k && w1[k] == 11 - k;
      var a, b := Weighted(d, w0, 9), Weighted(e, w0, 9);
      var s, t := Weighted(d, w1, 10), Weighted(e, w1, 10);
      hide Weighted, CpfDigit, Confused, DigitOf;
      WeightedChange(d, e, w0, 9, k);
      WeightedChange(d, e, w1, 10, k);
      CpfDigitSameIff(a, b);
      CpfDigitSameIff(s, t);
      RiseConfusedIff(a, rise, 10 - k, b);
      RiseConfusedIff(s, rise, 11 - k, t);
    }
  }

  /** A change of one digit keeps both CNPJ equations exactly when both sums confuse it. */
  lemma CnpjChangeKeeps(d: Digits, e: Digits, k: nat)
    requires |d| == 14 && k < 12 && DifferOnlyAt(d, e, k) && CnpjChecks(d)
    ensures CnpjChecks(e) <==>
              && Confused(Weighted(d, CNPJ_WEIGHTS[0], 12), Weighted(e, CNPJ_WEIGHTS[0], 12))
              && Confused(Weighted(d, CNPJ_WEIGHTS[1], 13), Weighted(e, CNPJ_WEIGHTS[1], 13))
  {
    hide Weighted, CnpjDigit, Confused, DigitOf;
    CnpjDigitSameIff(Weighted(d, CNPJ_WEIGHTS[0], 12), Weighted(e, CNPJ_WEIGHTS[0], 12));
    CnpjDigitSameIff(Weighted(d, CNPJ_WEIGHTS[1], 13), Weighted(e, CNPJ_WEIGHTS[1], 13));
  }

  lemma CnpjMissedIff(d: Digits, e: Digits, k: nat)
    requires |d| == 14 && DifferOnlyAt(d, e, k) && CnpjChecks(d)
    ensures var (s, t) := (Weighted(d, CNPJ_WEIGHTS[0], 12) % 11, Weighted(d, CNPJ_WEIGHTS[1], 13) % 11);
            var rise := DigitOf(e[k]) - DigitOf(d[k]);
            && ((k == 0 || k == 8) && rise == 2 ==> (CnpjChecks(e) <==> s == 1 && t == 0))
            && ((k == 0 || k == 8) && rise == 9 ==> (CnpjChecks(e) <==> s == 0 && t == 1))
            && (k == 4 && rise == 5 ==> (CnpjChecks(e) <==> s == 0 && t == 1))
            && (k == 4 && rise == 6 ==> (CnpjChecks(e) <==> s == 1 && t == 0))
  {
    var rise := DigitOf(e[k]) - DigitOf(d[k]);
    if ((k == 0 || k == 8) && (rise == 2 || rise == 9)) || (k == 4 && (rise == 5 || rise == 6)) {
      var w0, w1 := CNPJ_WEIGHTS[0], CNPJ_WEIGHTS[1];
      var v0, v1 := if k == 4 then 9 else 5, if k == 4 then 2 else 6;
      assert w0[k] == v0 && w1[k] == v1;
      hide Weighted, CnpjDigit, Confused, DigitOf, CnpjChecks;
      CnpjChangeKeeps(d, e, k);
      WeightedChange(d, e, w0, 12, k);
      WeightedChange(d, e, w1, 13, k);
      RiseConfusedIff(Weighted(d, w0, 12), rise, v0, Weighted(e, w0, 12));
      RiseConfusedIff(Weighted(d, w1, 13), rise, v1, Weighted(e, w1, 13));
    }
  }

  // ---- the rules in congruences ----

  predicate Completes(sum: int, digit: int) { (sum + digit) % 11 == 0 || (digit == 0 && sum % 11 == 1) }

  predicate AllEqual(d: string) { forall i, j :: 0 <= i < |d| && 0 <= j < |d| ==> d[i] == d[j] }

  lemma SameIsAllEqual(d: string)
    requires d != ""
    ensures SameThroughout(d) <==> AllEqual(d)
  {
  }

  lemma CpfDigitCompletes(sum: nat, digit: nat)
    requires digit < 10
    ensures CpfDigit(sum) == digit <==> Completes(sum, digit)
  {
    TenTimes(sum);
  }

  lemma CnpjDigitCompletes(sum: nat, digit: nat)
    requires digit < 10
    ensures CnpjDigit(sum) == digit <==> Completes(sum, digit)
  {
  }

  lemma WeightedStep(d: Digits, w: seq<nat>, n: nat, weight: nat)
    requires n < |w| && n < |d| && w[n] == weight
    ensures Weighted(d, w, n + 1) == Weighted(d, w, n) + weight * DigitOf(d[n])
  {
    Commute(DigitOf(d[n]), weight);
  }

  lemma Commute(a: int, b: int)
    ensures a * b == b * a
  {
  }

  /** The Cpf rule in congruences: each check digit completes its weighted sum to a multiple of eleven, or is zero. */
  predicate CpfCongruent(d: Digits)
    requires |d| == 11
  {
    var s1 :=
      10 * DigitOf(d[0]) + 9 * DigitOf(d[1]) + 8 * DigitOf(d[2]) + 7 * DigitOf(d[3]) + 6 * DigitOf(d[4])
      + 5 * DigitOf(d[5]) + 4 * DigitOf(d[6]) + 3 * DigitOf(d[7]) + 2 * DigitOf(d[8]);
    var s2 :=
      11 * DigitOf(d[0]) + 10 * DigitOf(d[1]) + 9 * DigitOf(d[2]) + 8 * DigitOf(d[3]) + 7 * DigitOf(d[4])
      + 6 * DigitOf(d[5]) + 5 * DigitOf(d[6]) + 4 * DigitOf(d[7]) + 3 * DigitOf(d[8]) + 2 * DigitOf(d[9]);
    Completes(s1, DigitOf(d[9])) && Completes(s2, DigitOf(d[10]))
  }

  lemma CpfSum1(d: Digits)
    requires |d| == 11
    ensures Weighted(d, CPF_WEIGHTS[0], 9) ==
            10 * DigitOf(d[0]) + 9 * DigitOf(d[1]) + 8 * DigitOf(d[2]) + 7 * DigitOf(d[3]) + 6 * DigitOf(d[4])
            + 5 * DigitOf(d[5]) + 4 * DigitOf(d[6]) + 3 * DigitOf(d[7]) + 2 * DigitOf(d[8])
  {
    var w := CPF_WEIGHTS[0];
    assert w == [10, 9, 8, 7, 6, 5, 4, 3, 2];
    assert Weighted(d, w, 0) == 0;
    hide Weighted, DigitOf;
    WeightedStep(d, w, 0, 10);
    WeightedStep(d, w, 1, 9);
    WeightedStep(d, w, 2, 8);
    WeightedStep(d, w, 3, 7);
    WeightedStep(d, w, 4, 6);
    WeightedStep(d, w, 5, 5);
    WeightedStep(d, w, 6, 4);
    WeightedStep(d, w, 7, 3);
    WeightedStep(d, w, 8, 2);
  }

  lemma CpfSum2(d: Digits)
    requires |d| == 11
    ensures Weighted(d, CPF_WEIGHTS[1], 10) ==
            11 * DigitOf(d[0]) + 10 * DigitOf(d[1]) + 9 * DigitOf(d[2]) + 8 * DigitOf(d[3])
            + 7 * DigitOf(d[4]) + 6 * DigitOf(d[5]) + 5 * DigitOf(d[6]) + 4 * DigitOf(d[7])
            + 3 * DigitOf(d[8]) + 2 * DigitOf(d[9])
  {
    var w := CPF_WEIGHTS[1];
    assert w == [11, 10, 9, 8, 7, 6, 5, 4, 3, 2];
    assert Weighted(d, w, 0) == 0;
    hide Weighted, DigitOf;
    WeightedStep(d, w, 0, 11);
    WeightedStep(d, w, 1, 10);
    WeightedStep(d, w, 2, 9);
    WeightedStep(d, w, 3, 8);
    WeightedStep(d, w, 4, 7);
    WeightedStep(d, w, 5, 6);
    WeightedStep(d, w, 6, 5);
    WeightedStep(d, w, 7, 4);
    WeightedStep(d, w, 8, 3);
    WeightedStep(d, w, 9, 2);
  }

  /** Accepted are exactly the CPFs that satisfy the rule and do not repeat one digit. */
  lemma CpfAcceptedIff(d: Digits)
    requires |d| == 11
    ensures CpfVerdict(d) == Accepted <==> !AllEqual(d) && CpfCongruent(d)
  {
    CpfSum1(d);
    CpfSum2(d);
    SameIsAllEqual(d);
    CpfDigitCompletes(Weighted(d, CPF_WEIGHTS[0], 9), DigitOf(d[9]));
    CpfDigitCompletes(Weighted(d, CPF_WEIGHTS[1], 10), DigitOf(d[10]));
    hide Weighted, CpfDigit, Completes, SameThroughout, AllEqual;
  }

  /** The Cnpj rule in congruences: each check digit completes its weighted sum to a multiple of eleven, or is zero. */
  predicate CnpjCongruent(d: Digits)
    requires |d| == 14
  {
    var s1 :=
      5 * DigitOf(d[0]) + 4 * DigitOf(d[1]) + 3 * DigitOf(d[2]) + 2 * DigitOf(d[3]) + 9 * DigitOf(d[4])
      + 8 * DigitOf(d[5]) + 7 * DigitOf(d[6]) + 6 * DigitOf(d[7]) + 5 * DigitOf(d[8]) + 4 * DigitOf(d[9])
      + 3 * DigitOf(d[10]) + 2 * DigitOf(d[11]);
    var s2 :=
      6 * DigitOf(d[0]) + 5 * DigitOf(d[1]) + 4 * DigitOf(d[2]) + 3 * DigitOf(d[3]) + 2 * DigitOf(d[4])
      + 9 * DigitOf(d[5]) + 8 * DigitOf(d[6]) + 7 * DigitOf(d[7]) + 6 * DigitOf(d[8]) + 5 * DigitOf(d[9])
      + 4 * DigitOf(d[10]) + 3 * DigitOf(d[11]) + 2 * DigitOf(d[12]);
    Completes(s1, DigitOf(d[12])) && Completes(s2, DigitOf(d[13]))
  }

  lemma CnpjSum1(d: Digits)
    requires |d| == 14
    ensures Weighted(d, CNPJ_WEIGHTS[0], 12) ==
            5 * DigitOf(d[0]) + 4 * DigitOf(d[1]) + 3 * DigitOf(d[2]) + 2 * DigitOf(d[3]) + 9 * DigitOf(d[4])
            + 8 * DigitOf(d[5]) + 7 * DigitOf(d[6]) + 6 * DigitOf(d[7]) + 5 * DigitOf(d[8])
            + 4 * DigitOf(d[9]) + 3 * DigitOf(d[10]) + 2 * DigitOf(d[11])
  {
    var w := CNPJ_WEIGHTS[0];
    assert w == [5, 4, 3, 2, 9, 8, 7, 6, 5, 4, 3, 2];
    assert Weighted(d, w, 0) == 0;
    hide Weighted, DigitOf;
    WeightedStep(d, w, 0, 5);
    WeightedStep(d, w, 1, 4);
    WeightedStep(d, w, 2, 3);
    WeightedStep(d, w, 3, 2);
    WeightedStep(d, w, 4, 9);
    WeightedStep(d, w, 5, 8);
    WeightedStep(d, w, 6, 7);
    WeightedStep(d, w, 7, 6);
    WeightedStep(d, w, 8, 5);
    WeightedStep(d, w, 9, 4);
    WeightedStep(d, w, 10, 3);
    WeightedStep(d, w, 11, 2);
  }

  lemma CnpjSum2(d: Digits)
    requires |d| == 14
    ensures Weighted(d, CNPJ_WEIGHTS[1], 13) ==
            6 * DigitOf(d[0]) + 5 * DigitOf(d[1]) + 4 * DigitOf(d[2]) + 3 * DigitOf(d[3]) + 2 * DigitOf(d[4])
            + 9 * DigitOf(d[5]) + 8 * DigitOf(d[6]) + 7 * DigitOf(d[7]) + 6 * DigitOf(d[8])
            + 5 * DigitOf(d[9]) + 4 * DigitOf(d[10]) + 3 * DigitOf(d[11]) + 2 * DigitOf(d[12])
  {
    var w := CNPJ_WEIGHTS[1];
    assert w == [6, 5, 4, 3, 2, 9, 8, 7, 6, 5, 4, 3, 2];
    assert Weighted(d, w, 0) == 0;
    hide Weighted, DigitOf;
    WeightedStep(d, w, 0, 6);
    WeightedStep(d, w, 1, 5);
    WeightedStep(d, w, 2, 4);
    WeightedStep(d, w, 3, 3);
    WeightedStep(d, w, 4, 2);
    WeightedStep(d, w, 5, 9);
    WeightedStep(d, w, 6, 8);
    WeightedStep(d, w, 7, 7);
    WeightedStep(d, w, 8, 6);
    WeightedStep(d, w, 9, 5);
    WeightedStep(d, w, 10, 4);
    WeightedStep(d, w, 11, 3);
    WeightedStep(d, w, 12, 2);
  }

  /** Accepted are exactly the CNPJs that satisfy the rule and do not repeat one digit. */
  lemma CnpjAcceptedIff(d: Digits)
    requires |d| == 14
    ensures CnpjVerdict(d) == Accepted <==> !AllEqual(d) && CnpjCongruent(d)
  {
    CnpjSum1(d);
    CnpjSum2(d);
    SameIsAllEqual(d);
    CnpjDigitCompletes(Weighted(d, CNPJ_WEIGHTS[0], 12), DigitOf(d[12]));
    CnpjDigitCompletes(Weighted(d, CNPJ_WEIGHTS[1], 13), DigitOf(d[13]));
    hide Weighted, CnpjDigit, Completes, SameThroughout, AllEqual;
  }

  /**
   The verdict on a document, formatted or not: its digits are a CPF if there are eleven and a CNPJ if
   there are fourteen; any other number of digits is reported.
   */
  lemma DocumentVerdictIff(doc: string)
    ensures var (d, v) := (DigitsOf(doc), DocumentVerdict(doc));
            && (v == Accepted <==> !AllEqual(d) && ((|d| == 11 && CpfCongruent(d)) || (|d| == 14 && CnpjCongruent(d))))
            && (v.BadLength? <==> |d| != 11 && |d| != 14) && (v.BadLength? ==> v.digits == |d|)
            && (v == AllSame <==> (|d| == 11 || |d| == 14) && AllEqual(d))
  {
    var d := DigitsOf(doc);
    if |d| == 11 {
      CpfAcceptedIff(d);
      SameIsAllEqual(d);
    } else if |d| == 14 {
      CnpjAcceptedIff(d);
      SameIsAllEqual(d);
    }
    hide CpfCongruent, CnpjCongruent, AllEqual, CpfChecks, CnpjChecks;
  }
}
