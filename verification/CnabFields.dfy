/**
 Fixed-width CNAB 240 fields (FEBRABAN CNAB 240 v10.7): padding, normalisation and the
 offset readers of the return parser.
 */
module CnabFields {
  import opened MachineInts
  import opened Decimal

  const LINE_WIDTH := 240

  const A_FORMS := "áàâãÁÀÂÃ"
  const E_FORMS := "éèêÉÈÊ"
  const I_FORMS := "íìÍÌ"
  const O_FORMS := "óòôõÓÒÔÕ"
  const U_FORMS := "úùÚÙüÜ"
  const C_FORMS := "çÇ"

  predicate IsAccented(c: char) {
    c in A_FORMS || c in E_FORMS || c in I_FORMS || c in O_FORMS || c in U_FORMS || c in C_FORMS
  }

  /** The characters the model covers: ASCII and the accented letters of the folding table. */
  type TextChar = c: char | c as int < 0x80 || IsAccented(c) witness 'A'
  type Text = seq<TextChar>

  predicate IsPrint(c: char) { ' ' <= c <= '~' }

  /** One rune of `normalizeAlpha`: accents folded, letters upper-cased, the unprintable dropped. */
  function Folded(c: TextChar): (r: string)
    ensures IsClean(r) && |r| <= 1
  {
    if c in A_FORMS then "A"
    else if c in E_FORMS then "E"
    else if c in I_FORMS then "I"
    else if c in O_FORMS then "O"
    else if c in U_FORMS then "U"
    else if c in C_FORMS then "C"
    else if !IsPrint(c) then ""
    else if 'a' <= c <= 'z' then [(c as int - 32) as char]
    else [c]
  }

  function Normalized(s: Text): (r: string)
    ensures IsClean(r) && |r| <= |s|
  {
    if s == [] then [] else Normalized(s[..|s| - 1]) + Folded(s[|s| - 1])
  }

  /** Text a bank field may hold: printable ASCII without lower-case letters. */
  predicate IsCleanChar(c: char) { IsPrint(c) && !('a' <= c <= 'z') }

  predicate IsClean(s: string) { forall i :: 0 <= i < |s| ==> IsCleanChar(s[i]) }

  /** Text that cannot end a line of the file. */
  predicate Unbroken(s: string) { '\n' !in s }

  function Blank(w: nat): (s: string)
    ensures |s| == w && Unbroken(s)
  {
    seq(w, _ => ' ')
  }

  function PadLeftNum(v: int, w: nat): (s: string)
    ensures |s| == w && Unbroken(s)
  {
    var t := FormatInt(v);
    if |t| >= w then t[|t| - w..] else Zeros(w - |t|) + t
  }

  function PadLeftNumStr(s: string, w: nat): (r: string)
    ensures |r| == w && Unbroken(r)
  {
    var t := DigitsOf(s);
    if |t| >= w then t[|t| - w..] else Zeros(w - |t|) + t
  }

  function PadRightAlpha(s: Text, w: nat): (r: string)
    ensures |r| == w && Unbroken(r)
  {
    var t := Normalized(s);
    if |t| >= w then t[..w] else t + Blank(w - |t|)
  }

  predicate IsSpace(c: char) { c == ' ' || '\t' <= c <= '\r' }

  function TrimRight(s: string): string {
    if s != [] && s[|s| - 1] == ' ' then TrimRight(s[..|s| - 1]) else s
  }

  function TrimLeftSpace(s: string): string {
    if s != [] && IsSpace(s[0]) then TrimLeftSpace(s[1..]) else s
  }

  function TrimRightSpace(s: string): string {
    if s != [] && IsSpace(s[|s| - 1]) then TrimRightSpace(s[..|s| - 1]) else s
  }

  function TrimSpace(s: string): string { TrimRightSpace(TrimLeftSpace(s)) }

  /** What `ReadNum` reads: the digits of the slice as an int64, wrap-around included. */
  function NumAt(line: string, start: nat, end: nat): int64
    requires start <= end <= |line|
  {
    Wrap64(Value(line[start..end]))
  }

  function StringAt(line: string, start: nat, end: nat): string
    requires start <= end <= |line|
  {
    TrimRight(line[start..end])
  }

  method StripNonDigits(s: string) returns (b: string)
    ensures b == DigitsOf(s)
  {
    b := [];
    for i := 0 to |s|
      invariant b == DigitsOf(s[..i])
    {
      assert s[..i + 1][..i] == s[..i];
      if '0' <= s[i] <= '9' {
        b := b + [s[i]];
      }
    }
    assert s[..|s|] == s;
  }

  method NormalizeAlpha(s: Text) returns (b: string)
    ensures b == Normalized(s) && IsClean(b)
  {
    b := [];
    for i := 0 to |s|
      invariant b == Normalized(s[..i])
    {
      assert s[..i + 1][..i] == s[..i];
      b := b + Folded(s[i]);
    }
    assert s[..|s|] == s;
  }

  method ReadNum(line: string, start: nat, end: nat) returns (n: int64)
    requires start <= end <= |line|
    ensures n == NumAt(line, start, end)
  {
    var slice := TrimSpace(line[start..end]);
    TrimSpaceValue(line[start..end]);
    if slice == "" { return 0; }
    n := 0;
    for i := 0 to |slice|
      invariant n == Wrap64(Value(slice[..i]))
    {
      assert slice[..i + 1] == slice[..i] + [slice[i]];
      ValueAppend(slice[..i], slice[i]);
      if '0' <= slice[i] <= '9' {
        WrapShiftDigit(Value(slice[..i]), DigitOf(slice[i]));
        n := Wrap64(n * 10 + DigitOf(slice[i]));
      }
    }
    assert slice[..|slice|] == slice;
  }

  // ---- normalisation ----

  lemma CleanNotAccented(c: char)
    requires IsCleanChar(c)
    ensures !IsAccented(c)
  {
    assert forall i :: 0 <= i < |A_FORMS| ==> A_FORMS[i] > '~';
    assert forall i :: 0 <= i < |E_FORMS| ==> E_FORMS[i] > '~';
    assert forall i :: 0 <= i < |I_FORMS| ==> I_FORMS[i] > '~';
    assert forall i :: 0 <= i < |O_FORMS| ==> O_FORMS[i] > '~';
    assert forall i :: 0 <= i < |U_FORMS| ==> U_FORMS[i] > '~';
    assert forall i :: 0 <= i < |C_FORMS| ==> C_FORMS[i] > '~';
  }

  /** Normalisation changes exactly the text that is not clean already. */
  lemma NormalizedFixesClean(s: Text)
    ensures IsClean(s) <==> Normalized(s) == s
  {
    if IsClean(s) { CleanUnchanged(s); }
  }

  lemma CleanFolded(c: TextChar)
    requires IsCleanChar(c)
    ensures Folded(c) == [c]
  {
    CleanNotAccented(c);
  }

  lemma {:induction false} CleanUnchanged(s: Text)
    requires IsClean(s)
    ensures Normalized(s) == s
  {
    hide Folded;
    if s != [] {
      CleanUnchanged(s[..|s| - 1]);
      CleanFolded(s[|s| - 1]);
      assert s == s[..|s| - 1] + [s[|s| - 1]];
    }
  }

  /** What normalisation makes of each character. */
  lemma FoldedLetters(c: TextChar)
    ensures c in ['á', 'à', 'â', 'ã', 'Á', 'À', 'Â', 'Ã'] ==> Folded(c) == "A"
    ensures c in ['é', 'è', 'ê', 'É', 'È', 'Ê'] ==> Folded(c) == "E"
    ensures c in ['í', 'ì', 'Í', 'Ì'] ==> Folded(c) == "I"
    ensures c in ['ó', 'ò', 'ô', 'õ', 'Ó', 'Ò', 'Ô', 'Õ'] ==> Folded(c) == "O"
    ensures c in ['ú', 'ù', 'Ú', 'Ù', 'ü', 'Ü'] ==> Folded(c) == "U"
    ensures c in ['ç', 'Ç'] ==> Folded(c) == "C"
  {
    assert A_FORMS == ['á', 'à', 'â', 'ã', 'Á', 'À', 'Â', 'Ã'];
    assert E_FORMS == ['é', 'è', 'ê', 'É', 'È', 'Ê'];
    assert I_FORMS == ['í', 'ì', 'Í', 'Ì'];
    assert O_FORMS == ['ó', 'ò', 'ô', 'õ', 'Ó', 'Ò', 'Ô', 'Õ'];
    assert U_FORMS == ['ú', 'ù', 'Ú', 'Ù', 'ü', 'Ü'];
    assert C_FORMS == ['ç', 'Ç'];
  }

  lemma AsciiNotAccented(c: char)
    requires c as int < 0x80
    ensures !IsAccented(c)
  {
    assert forall i :: 0 <= i < |A_FORMS| ==> A_FORMS[i] > '~';
    assert forall i :: 0 <= i < |E_FORMS| ==> E_FORMS[i] > '~';
    assert forall i :: 0 <= i < |I_FORMS| ==> I_FORMS[i] > '~';
    assert forall i :: 0 <= i < |O_FORMS| ==> O_FORMS[i] > '~';
    assert forall i :: 0 <= i < |U_FORMS| ==> U_FORMS[i] > '~';
    assert forall i :: 0 <= i < |C_FORMS| ==> C_FORMS[i] > '~';
  }

  /** Letters go to upper case, other printable ASCII stays, control characters go. */
  lemma FoldedAscii(c: TextChar)
    requires c as int < 0x80
    ensures 'a' <= c <= 'z' ==> |Folded(c)| == 1 && Folded(c)[0] as int - 'A' as int == c as int - 'a' as int
    ensures ' ' <= c <= '~' && !('a' <= c <= 'z') ==> Folded(c) == [c]
    ensures c < ' ' || c > '~' ==> Folded(c) == ""
  {
    AsciiNotAccented(c);
  }

  /** A text is normalised piece by piece. */
  lemma {:induction false} NormalizedConcat(a: Text, b: Text)
    ensures Normalized(a + b) == Normalized(a) + Normalized(b)
    ensures forall c: TextChar :: Normalized([c]) == Folded(c)
  {
    hide Folded;
    forall c: TextChar ensures Normalized([c]) == Folded(c) { assert [c][..0] == []; }
    if b == [] {
      assert a + b == a;
    } else {
      assert (a + b)[..|a + b| - 1] == a + b[..|b| - 1];
      NormalizedConcat(a, b[..|b| - 1]);
    }
  }

  /** A text field is left-justified: the normalised text from its first column on, then blanks. */
  lemma TextFieldExact(s: Text, w: nat, i: nat)
    requires i < w
    ensures PadRightAlpha(s, w)[i] == if i < |Normalized(s)| then Normalized(s)[i] else ' '
  {
  }

  lemma LastColumns(t: string, w: nat)
    ensures (if |t| >= w then t[|t| - w..] else Zeros(w - |t|) + t) == (Zeros(w) + t)[|t|..]
  {
    var all := Zeros(w) + t;
    if |t| >= w {
      assert all[|t|..] == t[|t| - w..];
    } else {
      assert all == Zeros(|t|) + (Zeros(w - |t|) + t);
    }
  }

  /** A numeric field is the last columns of a long row of zeros and the decimal text. */
  lemma NumFieldExact(v: int, w: nat)
    ensures PadLeftNum(v, w) == (Zeros(w) + FormatInt(v))[|FormatInt(v)|..]
    ensures 0 <= v ==> AllDigits(PadLeftNum(v, w))
  {
    LastColumns(FormatInt(v), w);
    hide Format;
  }

  lemma DigitFieldExact(s: string, w: nat)
    ensures PadLeftNumStr(s, w) == (Zeros(w) + DigitsOf(s))[|DigitsOf(s)|..] && AllDigits(PadLeftNumStr(s, w))
  {
    LastColumns(DigitsOf(s), w);
  }

  // ---- trimming ----

  /** White space of ASCII: blank, tab, line feed, vertical tab, form feed, carriage return. */
  predicate White(c: char) { c == ' ' || c == '\t' || c == '\n' || c as int == 11 || c as int == 12 || c == '\r' }

  predicate NoOuterWhite(s: string) { s == "" || (!White(s[0]) && !White(s[|s| - 1])) }

  /** r is what stays of the text when white space is taken off at both ends. */
  ghost predicate IsTrimmed(r: string, text: string) {
    NoOuterWhite(r) && exists left, right ::
      text == left + r + right && (forall c :: c in left ==> White(c)) && (forall c :: c in right ==> White(c))
  }

  lemma {:induction false} TrimLeftExact(s: string) returns (left: string)
    ensures s == left + TrimLeftSpace(s) && (forall c :: c in left ==> White(c))
    ensures TrimLeftSpace(s) == "" || !White(TrimLeftSpace(s)[0])
  {
    left := "";
    if s != [] && IsSpace(s[0]) {
      var rest := TrimLeftExact(s[1..]);
      left := [s[0]] + rest;
      assert s == [s[0]] + s[1..];
    }
  }

  lemma {:induction false} TrimRightExact(s: string) returns (right: string)
    ensures s == TrimRightSpace(s) + right && (forall c :: c in right ==> White(c))
    ensures TrimRightSpace(s) == "" || !White(TrimRightSpace(s)[|TrimRightSpace(s)| - 1])
    ensures TrimRightSpace(s) != "" ==> TrimRightSpace(s)[0] == s[0]
  {
    right := "";
    if s != [] && IsSpace(s[|s| - 1]) {
      var rest := TrimRightExact(s[..|s| - 1]);
      right := rest + [s[|s| - 1]];
      assert s == s[..|s| - 1] + [s[|s| - 1]];
    }
  }

  lemma TrimSpaceExact(s: string)
    ensures IsTrimmed(TrimSpace(s), s)
  {
    var left := TrimLeftExact(s);
    var right := TrimRightExact(TrimLeftSpace(s));
    assert s == left + TrimSpace(s) + right;
  }

  lemma {:induction false} TrimRightBlanks(s: string) returns (n: nat)
    ensures s == TrimRight(s) + Blank(n) && (TrimRight(s) == "" || TrimRight(s)[|TrimRight(s)| - 1] != ' ')
  {
    n := 0;
    if s != [] && s[|s| - 1] == ' ' {
      var m := TrimRightBlanks(s[..|s| - 1]);
      n := m + 1;
      assert s == s[..|s| - 1] + [s[|s| - 1]];
      assert Blank(n) == Blank(m) + [' '];
    }
  }

  /** What is trimmed is unique. */
  lemma TrimmedUnique(a: string, b: string, text: string)
    requires IsTrimmed(a, text) && IsTrimmed(b, text)
    ensures a == b
  {
    var l1, r1 :| text == l1 + a + r1 && (forall c :: c in l1 ==> White(c)) && (forall c :: c in r1 ==> White(c));
    var l2, r2 :| text == l2 + b + r2 && (forall c :: c in l2 ==> White(c)) && (forall c :: c in r2 ==> White(c));
    TrimmedSameStart(l1, a, r1, l2, b, r2, text);
  }

  lemma TrimmedSameStart(l1: string, a: string, r1: string, l2: string, b: string, r2: string, text: string)
    requires text == l1 + a + r1 == l2 + b + r2 && NoOuterWhite(a) && NoOuterWhite(b)
    requires (forall c :: c in l1 ==> White(c)) && (forall c :: c in r1 ==> White(c))
    requires (forall c :: c in l2 ==> White(c)) && (forall c :: c in r2 ==> White(c))
    ensures a == b
  {
    if a == "" {
      NothingBetween(l1, a, r1, l2, b, r2);
    } else if b == "" {
      NothingBetween(l2, b, r2, l1, a, r1);
    } else {
      StartsNoLater(l1, a, r1, l2, b, r2);
      StartsNoLater(l2, b, r2, l1, a, r1);
      EndsNoLater(l1, a, r1, l2, b, r2);
      EndsNoLater(l2, b, r2, l1, a, r1);
      assert a == text[|l1|..|text| - |r1|] && b == text[|l2|..|text| - |r2|];
    }
  }

  lemma NothingBetween(l1: string, a: string, r1: string, l2: string, b: string, r2: string)
    requires l1 + a + r1 == l2 + b + r2 && NoOuterWhite(b) && a == ""
    requires (forall c :: c in l1 ==> White(c)) && (forall c :: c in r1 ==> White(c))
    ensures b == ""
  {
    var text := l1 + a + r1;
    assert forall k :: 0 <= k < |text| ==> White(text[k]);
    assert forall k :: 0 <= k < |b| ==> text[|l2| + k] == b[k];
  }

  lemma StartsNoLater(l1: string, a: string, r1: string, l2: string, b: string, r2: string)
    requires l1 + a + r1 == l2 + b + r2 && a != "" && !White(a[0]) && forall c :: c in l2 ==> White(c)
    ensures |l2| <= |l1|
  {
    var text := l1 + a + r1;
    assert text[|l1|] == a[0];
    assert forall k :: 0 <= k < |l2| ==> text[k] == l2[k];
  }

  lemma EndsNoLater(l1: string, a: string, r1: string, l2: string, b: string, r2: string)
    requires l1 + a + r1 == l2 + b + r2 && a != "" && !White(a[|a| - 1]) && forall c :: c in r2 ==> White(c)
    ensures |r2| <= |r1|
  {
    var text, n := l1 + a + r1, |l2| + |b|;
    assert text[|l1| + |a| - 1] == a[|a| - 1];
    assert forall k :: n <= k < |text| ==> text[k] == r2[k - n];
  }

  lemma {:induction false} TrimSpaceValue(s: string)
    ensures Value(TrimSpace(s)) == Value(s)
  {
    TrimLeftValue(s);
    TrimRightValue(TrimLeftSpace(s));
  }

  lemma {:induction false} TrimLeftValue(s: string)
    ensures Value(TrimLeftSpace(s)) == Value(s)
  {
    if s != [] && IsSpace(s[0]) {
      TrimLeftValue(s[1..]);
      assert s == s[..1] + s[1..];
      assert s[..1][..0] == [];
      ValueConcat(s[..1], s[1..]);
    }
  }

  lemma {:induction false} TrimRightValue(s: string)
    ensures Value(TrimRightSpace(s)) == Value(s)
  {
    if s != [] && IsSpace(s[|s| - 1]) { TrimRightValue(s[..|s| - 1]); }
  }

  lemma {:induction false} TrimPadding(t: string, w: nat)
    ensures TrimRight(t + Blank(w)) == TrimRight(t)
  {
    if w == 0 {
      assert t + Blank(0) == t;
    } else {
      assert (t + Blank(w))[..|t| + w - 1] == t + Blank(w - 1);
      TrimPadding(t, w - 1);
    }
  }

  lemma {:induction false} TrimRightIdle(s: string)
    ensures TrimRightSpace(TrimRight(s)) == TrimRightSpace(s)
  {
    if s != [] && s[|s| - 1] == ' ' { TrimRightIdle(s[..|s| - 1]); }
  }

  /** Trimming spaces on the right first does not change what `TrimSpace` leaves. */
  lemma {:induction false} TrimSpaceAfterTrimRight(s: string)
    ensures TrimSpace(TrimRight(s)) == TrimSpace(s)
  {
    if s == [] {
    } else if s[|s| - 1] == ' ' {
      TrimSpaceAfterTrimRight(s[..|s| - 1]);
      TrimSpaceDropLast(s);
    }
  }

  lemma {:induction false} TrimSpaceDropLast(s: string)
    requires s != [] && IsSpace(s[|s| - 1])
    ensures TrimSpace(s) == TrimSpace(s[..|s| - 1])
  {
    if IsSpace(s[0]) {
      if |s| > 1 {
        assert s[1..][..|s| - 2] == s[..|s| - 1][1..];
        TrimSpaceDropLast(s[1..]);
      } else {
        assert s[1..] == [] == s[..0];
      }
    }
  }

  lemma {:induction false} TrimBlank(w: nat)
    ensures TrimSpace(Blank(w)) == ""
  {
    if w > 0 {
      assert Blank(w)[1..] == Blank(w - 1);
      TrimBlank(w - 1);
    }
  }

  // ---- numeric fields ----

  function Abs(v: int): nat { if v < 0 then -v else v }

  lemma {:induction false} SkipLeft(a: string, b: string)
    requires Value(a) == 0
    ensures Value(a + b) == Value(b)
  {
    ValueConcat(a, b);
  }

  lemma FormatBound(n: nat)
    ensures n < Pow10(|Format(n)|)
  {
    FormatValue(n);
    ValueBound(Format(n));
    AllDigitsCount(Format(n));
  }

  /**
   A numeric field of width `w` reads back as the magnitude modulo 10^w: a minus sign is
   skipped by the reader, and digits beyond the width are cut on the left.
   */
  lemma PadLeftNumValue(v: int, w: nat)
    ensures Value(PadLeftNum(v, w)) == Abs(v) % Pow10(w)
  {
    var f := Format(Abs(v));
    if w <= |f| {
      PadLeftNumCut(v, w);
    } else {
      PadLeftNumShort(v, w);
    }
  }

  lemma PadLeftNumCut(v: int, w: nat)
    requires w <= |Format(Abs(v))|
    ensures Value(PadLeftNum(v, w)) == Abs(v) % Pow10(w)
  {
    var f := Format(Abs(v));
    assert PadLeftNum(v, w) == f[|f| - w..];
    assert Value(f[|f| - w..]) == Value(f) % Pow10(w) by { SuffixValue(f, w); }
    assert Value(f) == Abs(v) by { FormatValue(Abs(v)); }
  }

  lemma PadLeftNumShort(v: int, w: nat)
    requires |Format(Abs(v))| < w
    ensures Value(PadLeftNum(v, w)) == Abs(v) % Pow10(w)
  {
    var f := Format(Abs(v));
    var pad := PadLeftNum(v, w)[..w - |f|];
    assert Value(PadLeftNum(v, w)) == Abs(v) by {
      assert PadLeftNum(v, w) == pad + f;
      PadPrefixValue(v, w, pad);
      SkipLeft(pad, f);
      FormatValue(Abs(v));
    }
    assert Abs(v) < Pow10(w) by {
      FormatBound(Abs(v));
      Pow10Monotone(|f|, w);
    }
    SmallMod(Abs(v), Pow10(w));
  }

  lemma PadPrefixValue(v: int, w: nat, pad: string)
    requires |Format(Abs(v))| < w && pad == PadLeftNum(v, w)[..w - |Format(Abs(v))|]
    ensures Value(pad) == 0
  {
    var f := Format(Abs(v));
    if v < 0 {
      assert pad == Zeros(|pad| - 1) + "-";
      ValueAppend(Zeros(|pad| - 1), '-');
      ZerosValue(|pad| - 1);
    } else {
      assert pad == Zeros(|pad|);
      ZerosValue(|pad|);
    }
  }

  lemma Pow10Of18()
    ensures Pow10(18) == 1_000_000_000_000_000_000
  {
    assert Pow10(6) == 1_000_000;
    assert Pow10(12) == 1_000_000_000_000;
  }

  /** Any slice of at most 18 bytes reads without int64 overflow, below 10 to its width. */
  lemma NumAtBounded(line: string, start: nat, end: nat)
    requires start <= end <= |line| && end - start <= 18
    ensures NumAt(line, start, end) == Value(line[start..end])
    ensures 0 <= NumAt(line, start, end) < Pow10(end - start)
  {
    var s := line[start..end];
    ValueBound(s);
    Pow10Monotone(|DigitsOf(s)|, end - start);
    Pow10Monotone(end - start, 18);
    Pow10Of18();
  }

  /** Round trip of a numeric field placed anywhere in a line. */
  lemma NumFieldRoundTrip(line: string, start: nat, w: nat, v: int)
    requires start + w <= |line| && w <= 18
    requires line[start..start + w] == PadLeftNum(v, w)
    ensures NumAt(line, start, start + w) == Abs(v) % Pow10(w)
  {
    hide Value, PadLeftNum, NumAt, Pow10;
    NumAtBounded(line, start, start + w);
    PadLeftNumValue(v, w);
  }

  /** An alphanumeric field reads back as its normalised text, cut to the width and trimmed. */
  lemma AlphaFieldRoundTrip(line: string, start: nat, w: nat, s: Text)
    requires start + w <= |line|
    requires line[start..start + w] == PadRightAlpha(s, w)
    ensures TrimSpace(StringAt(line, start, start + w)) == TrimSpace(Cut(Normalized(s), w))
  {
    TrimSpaceAfterTrimRight(PadRightAlpha(s, w));
    PadTrim(s, w);
  }

  lemma PadTrim(s: Text, w: nat)
    ensures TrimSpace(PadRightAlpha(s, w)) == TrimSpace(Cut(Normalized(s), w))
  {
    var t := Normalized(s);
    if |t| == w {
      assert t[..w] == t;
    } else if |t| < w {
      assert TrimSpace(t + Blank(w - |t|)) == TrimSpace(t) by {
        TrimSpaceAfterTrimRight(t + Blank(w - |t|));
        TrimPadding(t, w - |t|);
        TrimSpaceAfterTrimRight(t);
      }
    }
  }

  function Cut(s: string, w: nat): string { if |s| > w then s[..w] else s }
}
