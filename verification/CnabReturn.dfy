/** What the return parser makes of any line a bank may send, column by column, and of lines one after the other. */
module CnabReturn {
  import opened MachineInts
  import opened Decimal
  import opened CnabFields
  import opened CnabDecoder

  /** The file that consists of one line. */
  lemma OneLine(line: string)
    requires Unbroken(line)
    ensures Pieces(line + "\r\n") == [line, ""]
  {
    assert line + "\r\n" == line + "\r\n" + "";
    PiecesLine(line, "");
    assert Pieces("") == [""];
  }

  lemma DecodedOneLine(line: string)
    requires Unbroken(line) && |line| == 240
    ensures Decoded(line + "\r\n") == Ok(Accept(NOTHING, line))
  {
    OneLine(line);
    var pieces := [line, ""];
    assert pieces[1..] == [""] && [""][1..] == [];
    hide Accept;
    assert DecodeFrom([""], Accept(NOTHING, line)) == Ok(Accept(NOTHING, line));
  }

  /** A line of any other width stops the parser, an empty one is skipped. */
  lemma WrongWidthFails(line: string)
    requires Unbroken(line) && |line| != 240
    ensures Decoded(line + "\r\n") == if line == "" then Ok(Return("", [], 0)) else WidthError(|line|)
  {
    OneLine(line);
    assert [line, ""][1..] == [""] && [""][1..] == [];
    assert DecodeFrom([""], NOTHING) == Ok(NOTHING);
  }

  /** The row of a Segment A line: every field is what its columns say. */
  ghost predicate RowReads(row: ReturnLine, line: string)
    requires |line| == 240
  {
    && row.batchNumber == Value(line[3..7]) && row.sequence == Value(line[8..13])
    && IsTrimmed(row.ourNumber, line[70..90])
    && row.amountCents == Value(line[119..134])
    && IsTrimmed(row.occurrenceCodes, line[230..240])
    && row.segment == [line[13]]
  }

  lemma TrimmedColumn(line: string, start: nat, end: nat)
    requires start <= end <= |line|
    ensures IsTrimmed(TrimSpace(StringAt(line, start, end)), line[start..end])
  {
    TrimSpaceAfterTrimRight(line[start..end]);
    TrimSpaceExact(line[start..end]);
  }

  lemma RowReadsLine(line: string)
    requires |line| == 240
    ensures RowReads(RowOf(line), line)
  {
    NumAtBounded(line, 3, 7);
    NumAtBounded(line, 8, 13);
    NumAtBounded(line, 119, 134);
    TrimmedColumn(line, 70, 90);
    TrimmedColumn(line, 230, 240);
    hide IsTrimmed, TrimSpace, StringAt, Value, NumAt;
  }

  /** The text is the line without its trailing blanks. */
  ghost predicate WithoutTrailingBlanks(text: string, line: string) {
    (text == "" || text[|text| - 1] != ' ') && exists n: nat :: line == text + Blank(n)
  }

  /**
   Any single line of 240 bytes is accepted. A Segment A line gives exactly one row, which holds what
   its columns say; a file header is kept without its trailing blanks; other detail lines are
   skipped, and all lines but these are counted.
   */
  lemma DecodeLine(line: string)
    requires Unbroken(line) && |line| == 240
    ensures Decoded(line + "\r\n").Ok?
    ensures var ret := Decoded(line + "\r\n").ret;
            && (line[7] == '3' && line[13] == 'A' ==>
                  |ret.lines| == 1 && RowReads(ret.lines[0], line) && ret.totalLines == 1 && ret.fileHeader == "")
            && (line[7] == '3' && line[13] != 'A' ==> ret == Return("", [], 0))
            && (line[7] == '0' ==>
                  ret.lines == [] && ret.totalLines == 1 && WithoutTrailingBlanks(ret.fileHeader, line))
            && (line[7] != '3' && line[7] != '0' ==> ret == Return("", [], 1))
  {
    DecodedOneLine(line);
    RowReadsLine(line);
    var n := TrimRightBlanks(line);
    hide RowOf, RowReads, TrimRight, Decoded;
  }

  /** The codes of a Segment A line are the text in its last ten columns, when blanks follow it. */
  lemma OccurrenceCodesRead(line: string, codes: string)
    requires Unbroken(line) && |line| == 240 && line[7] == '3' && line[13] == 'A' && |codes| <= 10
    requires NoOuterWhite(codes) && line[230..240] == codes + Blank(10 - |codes|)
    ensures Decoded(line + "\r\n").Ok? && |Decoded(line + "\r\n").ret.lines| == 1
    ensures Decoded(line + "\r\n").ret.lines[0].occurrenceCodes == codes
  {
    DecodeLine(line);
    var row := Decoded(line + "\r\n").ret.lines[0];
    var blanks := Blank(10 - |codes|);
    assert line[230..240] == "" + codes + blanks;
    assert IsTrimmed(codes, line[230..240]);
    TrimmedUnique(row.occurrenceCodes, codes, line[230..240]);
  }

  // ---- lines one after the other ----

  /** What was read before and what is read then. */
  function Combined(a: Return, b: Return): Return {
    Return(if b.fileHeader != "" then b.fileHeader else a.fileHeader, a.lines + b.lines, a.totalLines + b.totalLines)
  }

  lemma HeaderNotEmpty(line: string)
    requires |line| == 240 && line[7] == '0'
    ensures TrimRight(line) != ""
  {
    var n := TrimRightBlanks(line);
  }

  lemma AcceptCombines(ret: Return, line: string)
    requires |line| == 240
    ensures Accept(ret, line) == Combined(ret, Accept(NOTHING, line))
  {
    if line[7] == '0' { HeaderNotEmpty(line); }
    hide RowOf, TrimRight;
  }

  lemma CombinedAssoc(a: Return, b: Return, c: Return)
    ensures Combined(Combined(a, b), c) == Combined(a, Combined(b, c))
    ensures Combined(a, NOTHING) == a && Combined(NOTHING, a) == a
  {
  }

  lemma {:induction false} DecodeFromCombines(lines: seq<string>, ret: Return)
    ensures match DecodeFrom(lines, NOTHING)
            case Ok(r) => DecodeFrom(lines, ret) == Ok(Combined(ret, r))
            case WidthError(n) => DecodeFrom(lines, ret) == WidthError(n)
    decreases lines
  {
    hide Accept, Combined;
    CombinedAssoc(ret, NOTHING, NOTHING);
    if lines != [] && lines[0] == "" {
      DecodeFromCombines(lines[1..], ret);
    } else if lines != [] && |lines[0]| == 240 {
      var one := Accept(NOTHING, lines[0]);
      AcceptCombines(ret, lines[0]);
      DecodeFromCombines(lines[1..], one);
      DecodeFromCombines(lines[1..], Accept(ret, lines[0]));
      match DecodeFrom(lines[1..], NOTHING) {
        case Ok(r) => CombinedAssoc(ret, one, r);
        case WidthError(_) =>
      }
    }
  }

  /** A line in front of any file adds what the line alone gives, before what the file gives; the first error counts. */
  lemma DecodeNext(line: string, rest: string)
    requires Unbroken(line)
    ensures match Decoded(line + "\r\n")
            case WidthError(n) => Decoded(line + "\r\n" + rest) == WidthError(n)
            case Ok(one) =>
              match Decoded(rest)
              case WidthError(n) => Decoded(line + "\r\n" + rest) == WidthError(n)
              case Ok(more) => Decoded(line + "\r\n" + rest) == Ok(Combined(one, more))
  {
    PiecesLine(line, rest);
    var all, pieces := [line] + Pieces(rest), Pieces(rest);
    assert all[1..] == pieces;
    hide Pieces, Accept, Combined;
    if |line| == 240 {
      DecodedOneLine(line);
      DecodeFromCombines(pieces, Accept(NOTHING, line));
    } else {
      WrongWidthFails(line);
      match DecodeFrom(pieces, NOTHING) {
        case Ok(r) => CombinedAssoc(r, NOTHING, NOTHING);
        case WidthError(_) =>
      }
    }
  }

  // ---- other line ends ----

  lemma {:induction false} PiecesBareLine(line: string, rest: string)
    requires Unbroken(line) && (line == "" || line[|line| - 1] != '\r')
    ensures Pieces(line + "\n" + rest) == [line] + Pieces(rest)
  {
    if line == "" {
      assert "" + "\n" + rest == "\n" + rest;
      assert ("\n" + rest)[1..] == rest;
      var t := ReplaceCrLf(rest);
      assert ("\n" + t)[1..] == t;
    } else {
      var tail := line[1..] + "\n" + rest;
      assert line + "\n" + rest == [line[0]] + tail;
      PiecesBareLine(line[1..], rest);
      PiecesStep(line[0], tail);
      assert [line[0]] + line[1..] == line;
    }
  }

  /** A line that ends in a line feed alone is read as one that ends in CRLF. */
  lemma BareLineFeed(line: string, rest: string)
    requires Unbroken(line) && (line == "" || line[|line| - 1] != '\r')
    ensures Decoded(line + "\n" + rest) == Decoded(line + "\r\n" + rest)
  {
    PiecesBareLine(line, rest);
    PiecesLine(line, rest);
  }

  lemma {:induction false} PiecesLast(line: string)
    requires Unbroken(line)
    ensures Pieces(line) == [line]
  {
    if line != "" {
      assert line == [line[0]] + line[1..];
      PiecesLast(line[1..]);
      PiecesStep(line[0], line[1..]);
    }
  }

  /** The last line of a file needs no line end. */
  lemma LastLineUnterminated(line: string)
    requires Unbroken(line)
    ensures Decoded(line) == Decoded(line + "\r\n")
  {
    PiecesLast(line);
    OneLine(line);
    hide Pieces, Accept;
    assert [line][1..] == [] && [line, ""][1..] == [""];
    if |line| == 240 {
      LastEmpty(Accept(NOTHING, line));
    } else {
      LastEmpty(NOTHING);
    }
  }

  lemma LastEmpty(ret: Return)
    ensures DecodeFrom([""], ret) == DecodeFrom([], ret) == Ok(ret)
  {
    assert [""][1..] == [];
  }
}
