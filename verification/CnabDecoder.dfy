/**
 The CNAB 240 return parser: split into lines, check the width, keep the Segment A rows.
 `Decoded` is the specification; the method `Decode` is the parser's loop.
 */
module CnabDecoder {
  import opened CnabFields

  datatype ReturnLine = ReturnLine(
    batchNumber: int, sequence: int, ourNumber: string, amountCents: int,
    occurrenceCodes: string, segment: string)

  datatype Return = Return(fileHeader: string, lines: seq<ReturnLine>, totalLines: nat)

  datatype Result = Ok(ret: Return) | WidthError(width: nat)

  const NOTHING := Return("", [], 0)

  /** `bytes.ReplaceAll(raw, "\r\n", "\n")` */
  function ReplaceCrLf(s: string): string {
    if |s| >= 2 && s[0] == '\r' && s[1] == '\n' then "\n" + ReplaceCrLf(s[2..])
    else if s == "" then ""
    else [s[0]] + ReplaceCrLf(s[1..])
  }

  /** `bytes.Split(s, "\n")` */
  function SplitLines(s: string): (lines: seq<string>)
    ensures lines != []
  {
    if s == "" then [""]
    else
      var rest := SplitLines(s[1..]);
      if s[0] == '\n' then [""] + rest else [[s[0]] + rest[0]] + rest[1..]
  }

  function Pieces(raw: string): (lines: seq<string>)
    ensures lines != []
  {
    SplitLines(ReplaceCrLf(raw))
  }

  function RowOf(line: string): ReturnLine
    requires |line| == LINE_WIDTH
  {
    ReturnLine(NumAt(line, 3, 7), NumAt(line, 8, 13), TrimSpace(StringAt(line, 70, 90)), NumAt(line, 119, 134),
               TrimSpace(StringAt(line, 230, 240)), [line[13]])
  }

  /** The effect of one line of the right width; detail lines other than Segment A are not counted. */
  function Accept(ret: Return, line: string): Return
    requires |line| == LINE_WIDTH
  {
    if line[7] == '0' then ret.(fileHeader := TrimRight(line), totalLines := ret.totalLines + 1)
    else if line[7] != '3' then ret.(totalLines := ret.totalLines + 1)
    else if line[13] != 'A' then ret
    else ret.(lines := ret.lines + [RowOf(line)], totalLines := ret.totalLines + 1)
  }

  function DecodeFrom(lines: seq<string>, ret: Return): Result {
    if lines == [] then Ok(ret)
    else if lines[0] == "" then DecodeFrom(lines[1..], ret)
    else if |lines[0]| != LINE_WIDTH then WidthError(|lines[0]|)
    else DecodeFrom(lines[1..], Accept(ret, lines[0]))
  }

  function Decoded(raw: string): Result { DecodeFrom(Pieces(raw), NOTHING) }

  method Decode(raw: string) returns (r: Result)
    ensures r == Decoded(raw)
  {
    var ret := NOTHING;
    var reader := Pieces(raw);
    for i := 0 to |reader|
      invariant DecodeFrom(reader[i..], ret) == Decoded(raw)
    {
      var line := reader[i];
      assert reader[i..][0] == line && reader[i..][1..] == reader[i + 1..];
      if |line| == 0 { continue; }
      if |line| != LINE_WIDTH { return WidthError(|line|); }
      if line[7] == '0' {
        ret := ret.(fileHeader := TrimRight(line));
      } else if line[7] == '3' {
        var segment := [line[13]];
        if segment != "A" { continue; }
        var batch := ReadNum(line, 3, 7);
        var sequence := ReadNum(line, 8, 13);
        var amount := ReadNum(line, 119, 134);
        ret := ret.(lines := ret.lines + [ReturnLine(batch, sequence, TrimSpace(StringAt(line, 70, 90)), amount,
                                                     TrimSpace(StringAt(line, 230, 240)), segment)]);
      }
      ret := ret.(totalLines := ret.totalLines + 1);
    }
    r := Ok(ret);
  }

  // ---- framing ----

  lemma PiecesStep(c: char, rest: string)
    requires c != '\n' && (c == '\r' ==> rest == "" || rest[0] != '\n')
    ensures Pieces([c] + rest) == [[c] + Pieces(rest)[0]] + Pieces(rest)[1..]
  {
    assert ([c] + rest)[1..] == rest;
    var t := ReplaceCrLf(rest);
    assert ReplaceCrLf([c] + rest) == [c] + t;
    assert ([c] + t)[1..] == t;
  }

  lemma PiecesBreak(rest: string)
    ensures Pieces("\r\n" + rest) == [""] + Pieces(rest)
  {
    assert ("\r\n" + rest)[2..] == rest;
    var t := ReplaceCrLf(rest);
    assert ("\n" + t)[1..] == t;
  }

  /** A line without line feeds that is ended by CRLF is recovered as it is. */
  lemma {:induction false} PiecesLine(line: string, rest: string)
    requires Unbroken(line)
    ensures Pieces(line + "\r\n" + rest) == [line] + Pieces(rest)
  {
    if line == "" {
      assert "" + "\r\n" + rest == "\r\n" + rest;
      PiecesBreak(rest);
    } else {
      var tail := line[1..] + "\r\n" + rest;
      assert line + "\r\n" + rest == [line[0]] + tail;
      PiecesLine(line[1..], rest);
      PiecesStep(line[0], tail);
      assert [line[0]] + line[1..] == line;
    }
  }

  /** Before a line feed, the first piece is the text up to it, less a carriage return. */
  lemma {:induction false} FirstPiece(a: string, rest: string)
    requires Unbroken(a)
    ensures Pieces(a + "\n" + rest)[0] == if a != "" && a[|a| - 1] == '\r' then a[..|a| - 1] else a
  {
    var raw := a + "\n" + rest;
    if a == "" {
      assert raw == "\n" + rest;
      assert ("\n" + rest)[1..] == rest;
    } else if a == "\r" {
      assert raw == "\r\n" + rest;
      PiecesBreak(rest);
    } else {
      var tail := a[1..] + "\n" + rest;
      assert raw == [a[0]] + tail;
      FirstPiece(a[1..], rest);
      PiecesStep(a[0], tail);
      assert [a[0]] + a[1..] == a;
      if a[|a| - 1] == '\r' { assert [a[0]] + a[1..][..|a| - 2] == a[..|a| - 1]; }
    }
  }
}
