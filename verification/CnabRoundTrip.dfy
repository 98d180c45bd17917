/** Whole-file properties: what the return parser recovers from a file the encoder wrote. */
module CnabRoundTrip {
  import opened MachineInts
  import opened Decimal
  import opened CnabFields
  import opened CnabEncoder
  import opened CnabDecoder

  /** The fields copied into the line verbatim hold no line feed. */
  predicate RawUnbroken(r: Record) {
    match r
    case BatchHeaderRecord(h) => Unbroken(h.service) && Unbroken(h.forma)
    case SegmentBRecord(_, seg) => Unbroken(seg.documentType)
    case _ => true
  }

  /** Every record that was written can be framed. */
  predicate Framed(records: seq<Record>) {
    forall r :: r in records && Fits(r) ==> RawUnbroken(r)
  }

  /** What a Segment A row carries through the file. */
  function Row(n: int64, seg: SegmentA): ReturnLine {
    ReturnLine(Abs(n) % 10_000, Abs(seg.sequence) % 100_000, TrimSpace(Cut(Normalized(seg.ourNumber), 20)),
               Abs(seg.amountCents) % 1_000_000_000_000_000, "", "A")
  }

  /** The Segment A rows that were written, in order. */
  function Rows(records: seq<Record>): seq<ReturnLine> {
    if records == [] then []
    else if Fits(records[0]) && records[0].SegmentARecord?
    then [Row(records[0].batch, records[0].a)] + Rows(records[1..])
    else Rows(records[1..])
  }

  /** The written records the parser counts: all but Segment B. */
  function Counted(records: seq<Record>): nat {
    if records == [] then 0
    else (if Fits(records[0]) && !records[0].SegmentBRecord? then 1 else 0) + Counted(records[1..])
  }

  function LastHeader(records: seq<Record>, before: string): string {
    if records == [] then before
    else if Fits(records[0]) && records[0].FileHeaderRecord?
    then LastHeader(records[1..], TrimRight(Line(records[0])))
    else LastHeader(records[1..], before)
  }

  /** The parser's state after one more encoder call. */
  function AfterOne(ret: Return, r: Record): Return {
    if !Fits(r) then ret
    else
      match r
      case FileHeaderRecord(_) => ret.(fileHeader := TrimRight(Line(r)), totalLines := ret.totalLines + 1)
      case SegmentARecord(n, seg) => ret.(lines := ret.lines + [Row(n, seg)], totalLines := ret.totalLines + 1)
      case SegmentBRecord(_, _) => ret
      case _ => ret.(totalLines := ret.totalLines + 1)
  }

  function After(ret: Return, records: seq<Record>): Return
    decreases records
  {
    if records == [] then ret else After(AfterOne(ret, records[0]), records[1..])
  }

  lemma LineUnbroken(r: Record)
    requires RawUnbroken(r)
    ensures Unbroken(Line(r))
  {
    hide FileHeaderLine, SegmentALine, BatchTrailerLine, FileTrailerLine, BatchHeaderHead, BatchHeaderTail,
      SegmentBHead, SegmentBAddress, SegmentBTail;
  }

  lemma FieldWidths()
    ensures Pow10(4) == 10_000 && Pow10(5) == 100_000 && Pow10(15) == 1_000_000_000_000_000
  {
    assert Pow10(10) == 10_000_000_000;
  }

  /** One Segment A line decodes to its row. */
  lemma RowOfSegmentA(n: int64, seg: SegmentA)
    requires |seg.paymentDate| == 8
    ensures RowOf(SegmentALine(n, seg)) == Row(n, seg)
  {
    hide SegmentALine, PadLeftNum, PadRightAlpha, NumAt, TrimSpace, StringAt;
    var line := SegmentALine(n, seg);
    SegmentALayout(n, seg);
    FieldWidths();
    NumFieldRoundTrip(line, 3, 4, n);
    NumFieldRoundTrip(line, 8, 5, seg.sequence);
    NumFieldRoundTrip(line, 119, 15, seg.amountCents);
    AlphaFieldRoundTrip(line, 70, 20, seg.ourNumber);
    assert TrimSpace(StringAt(line, 230, 240)) == "" by { BlankField(line, 230, 10); }
  }

  lemma BlankField(line: string, start: nat, w: nat)
    requires start + w <= |line| && line[start..start + w] == Blank(w)
    ensures TrimSpace(StringAt(line, start, start + w)) == ""
  {
    TrimSpaceAfterTrimRight(Blank(w));
    TrimBlank(w);
  }

  /** The parser's reaction to one written record. */
  lemma AcceptRecord(ret: Return, r: Record)
    requires RightSizes(r)
    ensures Accept(ret, Line(r)) == AfterOne(ret, r)
  {
    hide FileHeaderLine, BatchHeaderLine, SegmentALine, SegmentBLine, BatchTrailerLine, FileTrailerLine, RowOf, Row,
      TrimRight;
    FitsIff(r);
    RecordMarks(r);
    if r.SegmentARecord? { RowOfSegmentA(r.batch, r.a); }
  }

  /** The parser's final state, record by record, is the header, the rows and the count of the whole file. */
  lemma {:induction false} AfterSummary(ret: Return, records: seq<Record>)
    ensures After(ret, records) ==
            Return(LastHeader(records, ret.fileHeader), ret.lines + Rows(records), ret.totalLines + Counted(records))
    decreases records
  {
    hide Fits, Line, Row, TrimRight;
    if records == [] {
      assert ret.lines + [] == ret.lines;
    } else {
      AfterSummary(AfterOne(ret, records[0]), records[1..]);
      if Fits(records[0]) && records[0].SegmentARecord? {
        var row := [Row(records[0].batch, records[0].a)];
        assert ret.lines + (row + Rows(records[1..])) == (ret.lines + row) + Rows(records[1..]);
      }
    }
  }

  /** A written record in front of the rest of the file is one accepted line. */
  lemma DecodeRecord(r: Record, rest: string, ret: Return)
    requires RightSizes(r) && RawUnbroken(r)
    ensures DecodeFrom(Pieces(Emitted(r) + rest), ret) == DecodeFrom(Pieces(rest), AfterOne(ret, r))
  {
    hide Line, Accept, AfterOne, Pieces;
    FitsIff(r);
    LineUnbroken(r);
    PiecesLine(Line(r), rest);
    AcceptRecord(ret, r);
    assert ([Line(r)] + Pieces(rest))[1..] == Pieces(rest);
  }

  lemma {:induction false} FramedFileDecodes(records: seq<Record>, ret: Return)
    requires Framed(records)
    ensures DecodeFrom(Pieces(FileOf(records)), ret) == Ok(After(ret, records))
  {
    if records == [] {
      assert Pieces("") == [""];
      assert [""][1..] == [];
    } else {
      var r, rest := records[0], records[1..];
      FramedFileDecodes(rest, AfterOne(ret, r));
      FitsIff(r);
      if Fits(r) {
        DecodeRecord(r, FileOf(rest), ret);
      } else {
        assert "" + FileOf(rest) == FileOf(rest);
      }
    }
  }

  /** A verbatim field with a line feed breaks its line after at least nine columns. */
  lemma BrokenLine(r: Record) returns (a: string, b: string)
    requires !RawUnbroken(r)
    ensures Line(r) == a + "\n" + b && Unbroken(a) && 9 <= |a|
  {
    var head, raw, tail := "", "", "";
    match r {
      case BatchHeaderRecord(h) =>
        head, raw, tail := BatchHeaderHead(h), h.service + h.forma, BatchHeaderTail(h);
        Assoc(head, h.service, h.forma);
      case SegmentBRecord(n, seg) =>
        head, raw, tail := SegmentBHead(n, seg), seg.documentType, SegmentBAddress(seg) + SegmentBTail();
        Assoc(head + raw, SegmentBAddress(seg), SegmentBTail());
    }
    assert Line(r) == head + raw + tail;
    a, b := SplitAtBreak(head, raw, tail);
  }

  lemma SplitAtBreak(head: string, raw: string, tail: string) returns (a: string, b: string)
    requires Unbroken(head) && !Unbroken(raw) && 9 <= |head|
    ensures head + raw + tail == a + "\n" + b && Unbroken(a) && 9 <= |a|
  {
    var i := FirstBreak(raw);
    a, b := head + raw[..i], raw[i + 1..] + tail;
    assert raw == raw[..i] + "\n" + raw[i + 1..];
  }

  lemma {:induction false} FirstBreak(s: string) returns (i: nat)
    requires !Unbroken(s)
    ensures i < |s| && s[i] == '\n' && Unbroken(s[..i])
    decreases s
  {
    if s[0] == '\n' {
      i := 0;
    } else {
      assert s == [s[0]] + s[1..];
      var j := FirstBreak(s[1..]);
      i := j + 1;
      assert s[..i] == [s[0]] + s[1..][..j];
    }
  }

  /** Such a line makes the parser stop with a width error. */
  lemma BrokenRecordFails(r: Record, rest: string, ret: Return)
    requires RightSizes(r) && !RawUnbroken(r)
    ensures DecodeFrom(Pieces(Emitted(r) + rest), ret).WidthError?
  {
    hide Line, Pieces;
    FitsIff(r);
    var a, b := BrokenLine(r);
    assert |Line(r)| == |a| + 1 + |b| == LINE_WIDTH;
    var raw := Emitted(r) + rest;
    assert raw == a + "\n" + (b + CRLF + rest);
    FirstPiece(a, b + CRLF + rest);
  }

  lemma {:induction false} BrokenFileFails(records: seq<Record>, ret: Return)
    requires !Framed(records)
    ensures DecodeFrom(Pieces(FileOf(records)), ret).WidthError?
  {
    hide Line, Pieces, RawUnbroken, AfterOne, Fits;
    var r, rest := records[0], records[1..];
    FitsIff(r);
    if Fits(r) && !RawUnbroken(r) {
      BrokenRecordFails(r, FileOf(rest), ret);
    } else {
      assert records == [r] + rest;
      assert !Framed(rest);
      if Fits(r) {
        BrokenFileFails(rest, AfterOne(ret, r));
        DecodeRecord(r, FileOf(rest), ret);
      } else {
        BrokenFileFails(rest, ret);
        assert "" + FileOf(rest) == FileOf(rest);
      }
    }
  }

  /**
   The file round trip, for every sequence of encoder calls: the parser accepts the file exactly
   when no written record carries a line feed in a verbatim field, and then returns exactly the
   Segment A rows, in order.
   */
  lemma FileRoundTrip(records: seq<Record>)
    ensures Decoded(FileOf(records)).Ok? <==> Framed(records)
    ensures Framed(records) ==>
              Decoded(FileOf(records)) == Ok(Return(LastHeader(records, ""), Rows(records), Counted(records)))
  {
    if Framed(records) {
      FramedFileDecodes(records, NOTHING);
      AfterSummary(NOTHING, records);
      assert [] + Rows(records) == Rows(records);
    } else {
      BrokenFileFails(records, NOTHING);
    }
  }

  /** One encoder call of any kind. */
  method Write(e: Encoder, r: Record)
    modifies e
    ensures old(e.Valid()) ==> e.Valid()
    ensures e.calls == old(e.calls) + [r]
  {
    var ok;
    match r {
      case FileHeaderRecord(h) => ok := e.WriteFileHeader(h);
      case BatchHeaderRecord(h) => ok := e.WriteBatchHeader(h);
      case SegmentARecord(n, seg) => ok := e.WriteSegmentA(n, seg);
      case SegmentBRecord(n, seg) => ok := e.WriteSegmentB(n, seg);
      case BatchTrailerRecord(t) => ok := e.WriteBatchTrailer(t);
      case FileTrailerRecord(t) => ok := e.WriteFileTrailer(t);
    }
  }

  /** The printer and the parser run one after the other, on whatever the caller wants written. */
  method WriteAndDecode(records: seq<Record>) returns (bytes: string, r: Result)
    ensures |bytes| == 242 * Written(records)
    ensures r.Ok? <==> Framed(records)
    ensures Framed(records) ==> r == Ok(Return(LastHeader(records, ""), Rows(records), Counted(records)))
  {
    hide FileOf, Framed, Written, LastHeader, Rows, Counted;
    var e := new Encoder();
    for i := 0 to |records|
      invariant e.Valid() && e.calls == records[..i]
    {
      Write(e, records[i]);
    }
    assert records[..|records|] == records;
    bytes := e.Bytes();
    r := Decode(bytes);
    FileLength(records);
    FileRoundTrip(records);
  }

  /** A clean reference without outer blanks, at most 20 long, and an amount that fits come back unchanged. */
  lemma RowKeepsReference(n: int64, seg: SegmentA)
    requires IsClean(seg.ourNumber) && |seg.ourNumber| <= 20 && TrimSpace(seg.ourNumber) == seg.ourNumber
    requires 0 <= seg.amountCents < 1_000_000_000_000_000
    ensures Row(n, seg).ourNumber == seg.ourNumber && Row(n, seg).amountCents == seg.amountCents
  {
    hide Normalized, TrimSpace;
    CleanUnchanged(seg.ourNumber);
  }

  /** A two-byte service code of line feeds is written without error, and the file is then unreadable. */
  lemma LineFeedInServiceBreaksFile(h: BatchHeader)
    requires h.service == "\n\n" && h.forma == "03"
    ensures Fits(BatchHeaderRecord(h)) && Decoded(FileOf([BatchHeaderRecord(h)])).WidthError?
  {
    FileRoundTrip([BatchHeaderRecord(h)]);
    assert BatchHeaderRecord(h) in [BatchHeaderRecord(h)];
  }
}
