/**
 The CNAB 240 remessa encoder: one function per record layout, and the encoder object that
 appends records to its buffer. Dates and times arrive already formatted, as text without line breaks.
 */
module CnabEncoder {
  import opened MachineInts
  import opened CnabFields

  const CRLF := "\r\n"

  type Printed = s: string | Unbroken(s) witness ""

  datatype FileHeader = FileHeader(
    companyDoc: string, companyAgency: string, companyAccount: string, companyAccountDgt: Text,
    companyName: Text, createdDate: Printed, createdTime: Printed, fileSequence: int64, convenio: Text)

  datatype BatchHeader = BatchHeader(
    batchNumber: int64, service: string, forma: string, layout: string, fileHeader: FileHeader, purpose: Text)

  datatype SegmentA = SegmentA(
    sequence: int64, bankCode: string, agency: string, account: string, accountDigit: Text,
    beneficiaryName: Text, ourNumber: Text, paymentDate: Printed, amountCents: int64)

  datatype SegmentB = SegmentB(
    sequence: int64, beneficiaryDoc: string, documentType: string, addressLine: Text, addressNumber: string,
    complement: Text, neighborhood: Text, city: Text, cep: string, state: Text)

  datatype BatchTrailer = BatchTrailer(batchNumber: int64, recordCount: int64, totalCents: int64)

  datatype FileTrailer = FileTrailer(batchCount: int64, recordCount: int64)

  /** One call to the encoder. */
  datatype Record =
    | FileHeaderRecord(fh: FileHeader)
    | BatchHeaderRecord(bh: BatchHeader)
    | SegmentARecord(batch: int64, a: SegmentA)
    | SegmentBRecord(batch: int64, b: SegmentB)
    | BatchTrailerRecord(bt: BatchTrailer)
    | FileTrailerRecord(ft: FileTrailer)

  // ---- layouts ----

  const BANK_NAME := "BANCO ITAU S.A."

  /** Columns 001-008: bank code, lote and record type. */
  function Lead(lote: string, mark: char): (r: string)
    requires |lote| == 4
    ensures |r| == 8 && r[7] == mark
    ensures Unbroken(lote) && mark != '\n' ==> Unbroken(r)
  {
    "341" + lote + [mark]
  }

  /** Columns 018-102, shared by the file header and the batch header. */
  function CompanyBlock(h: FileHeader): (r: string)
    ensures |r| == 85 && Unbroken(r)
  {
    "2" + PadLeftNumStr(h.companyDoc, 14) + PadRightAlpha(h.convenio, 20)
    + PadLeftNumStr(h.companyAgency, 5) + " " + PadLeftNumStr(h.companyAccount, 12)
    + PadRightAlpha(h.companyAccountDgt, 1) + " " + PadRightAlpha(h.companyName, 30)
  }

  /** Columns 103-143: bank name, reserved columns, and 1 for an outgoing file. */
  function BankBlock(): (r: string)
    ensures |r| == 41 && Unbroken(r)
  {
    BANK_NAME + Blank(15) + Blank(10) + "1"
  }

  function FileHeaderHead(h: FileHeader): (r: string)
    ensures |r| == 143 && Unbroken(r)
  {
    Lead("0000", '0') + Blank(9) + CompanyBlock(h) + BankBlock()
  }

  function FileHeaderTail(h: FileHeader): (r: string)
    ensures |r| == 83 && Unbroken(r)
  {
    PadLeftNum(h.fileSequence, 6) + "080" + "00000" + Blank(20) + Blank(20) + Blank(29)
  }

  function FileHeaderLine(h: FileHeader): (r: string)
    ensures |r| == 226 + |h.createdDate| + |h.createdTime|
    ensures Unbroken(r)
  {
    FileHeaderHead(h) + h.createdDate + h.createdTime + FileHeaderTail(h)
  }

  function BatchHeaderHead(h: BatchHeader): (r: string)
    ensures |r| == 9 && Unbroken(r)
  {
    Lead(PadLeftNum(h.batchNumber, 4), '1') + "C"
  }

  function BatchHeaderTail(h: BatchHeader): (r: string)
    ensures |r| == 227 && Unbroken(r)
  {
    PadLeftNumStr(h.layout, 3) + " " + CompanyBlock(h.fileHeader) + PadRightAlpha(h.purpose, 40)
    + PadRightAlpha("", 30) + PadLeftNumStr("", 5) + PadRightAlpha("", 15) + PadRightAlpha("", 20)
    + PadRightAlpha("", 5) + PadRightAlpha("", 3) + PadRightAlpha("", 2) + Blank(8) + Blank(10)
  }

  function BatchHeaderLine(h: BatchHeader): (r: string)
    ensures |r| == 236 + |h.service| + |h.forma|
  {
    BatchHeaderHead(h) + h.service + h.forma + BatchHeaderTail(h)
  }

  /** Columns 001-014 of a detail record: bank, lote, record type, sequence, segment. */
  function DetailLead(lote: string, sequence: string, segment: string): (r: string)
    requires |lote| == 4 && |sequence| == 5 && |segment| == 1
    ensures |r| == 14 && r[7] == '3' && r[13] == segment[0]
    ensures r[3..7] == lote && r[8..13] == sequence
    ensures Unbroken(lote) && Unbroken(sequence) && Unbroken(segment) ==> Unbroken(r)
  {
    var r := Lead(lote, '3') + sequence + segment;
    assert r[3..7] == lote;
    assert r[8..13] == sequence;
    r
  }

  function SegmentAHead(batchNumber: int64, seg: SegmentA): (r: string)
    ensures |r| == 17 && Unbroken(r)
  {
    DetailLead(PadLeftNum(batchNumber, 4), PadLeftNum(seg.sequence, 5), "A") + "000"
  }

  function SegmentAPayee(seg: SegmentA): (r: string)
    ensures |r| == 53 && Unbroken(r)
  {
    PadLeftNumStr(seg.bankCode, 3) + PadLeftNumStr(seg.agency, 5) + " " + PadLeftNumStr(seg.account, 12)
    + PadRightAlpha(seg.accountDigit, 1) + " " + PadRightAlpha(seg.beneficiaryName, 30)
  }

  const SEGMENT_A_CURRENCY := "BRL" + "000" + "000000000000000"

  function SegmentATail(): (r: string)
    ensures |r| == 106 && Unbroken(r) && r[96..] == Blank(10)
  {
    PadRightAlpha("", 15) + PadRightAlpha("", 15) + "        " + "000000000000000" + PadRightAlpha("", 40)
    + PadRightAlpha("", 2) + PadRightAlpha("", 5) + Blank(5) + " "
  }

  function SegmentALine(batchNumber: int64, seg: SegmentA): (r: string)
    ensures |r| == 232 + |seg.paymentDate| && Unbroken(r)
  {
    SegmentAHead(batchNumber, seg) + SegmentAPayee(seg) + PadRightAlpha(seg.ourNumber, 20)
    + seg.paymentDate + SEGMENT_A_CURRENCY + PadLeftNum(seg.amountCents, 15) + SegmentATail()
  }

  function SegmentBHead(batchNumber: int64, seg: SegmentB): (r: string)
    ensures |r| == 17 && Unbroken(r)
  {
    DetailLead(PadLeftNum(batchNumber, 4), PadLeftNum(seg.sequence, 5), "B") + Blank(3)
  }

  function SegmentBAddress(seg: SegmentB): (r: string)
    ensures |r| == 109 && Unbroken(r)
  {
    PadLeftNumStr(seg.beneficiaryDoc, 14) + PadRightAlpha(seg.addressLine, 30) + PadLeftNumStr(seg.addressNumber, 5)
    + PadRightAlpha(seg.complement, 15) + PadRightAlpha(seg.neighborhood, 15) + PadRightAlpha(seg.city, 20)
    + PadLeftNumStr(seg.cep, 5) + PadRightAlpha("", 3) + PadRightAlpha(seg.state, 2)
  }

  function SegmentBTail(): (r: string)
    ensures |r| == 113 && Unbroken(r)
  {
    "00000000" + "000000000000000" + "000000000000000" + "000000000000000" + "000000000000000" + "000000000000000"
    + PadRightAlpha("", 15) + Blank(15)
  }

  function SegmentBLine(batchNumber: int64, seg: SegmentB): (r: string)
    ensures |r| == 239 + |seg.documentType|
  {
    SegmentBHead(batchNumber, seg) + seg.documentType + SegmentBAddress(seg) + SegmentBTail()
  }

  function BatchTrailerLine(t: BatchTrailer): (r: string)
    ensures |r| == LINE_WIDTH && Unbroken(r)
  {
    Lead(PadLeftNum(t.batchNumber, 4), '5') + Blank(9) + PadLeftNum(t.recordCount, 6)
    + PadLeftNum(t.totalCents, 18) + "000000000000000000" + "000000" + Blank(165) + Blank(10)
  }

  function FileTrailerLine(t: FileTrailer): (r: string)
    ensures |r| == LINE_WIDTH && Unbroken(r)
  {
    Lead("9999", '9') + Blank(9) + PadLeftNum(t.batchCount, 6) + PadLeftNum(t.recordCount, 6)
    + "000000" + Blank(205)
  }

  function Line(r: Record): string {
    match r
    case FileHeaderRecord(h) => FileHeaderLine(h)
    case BatchHeaderRecord(h) => BatchHeaderLine(h)
    case SegmentARecord(n, seg) => SegmentALine(n, seg)
    case SegmentBRecord(n, seg) => SegmentBLine(n, seg)
    case BatchTrailerRecord(t) => BatchTrailerLine(t)
    case FileTrailerRecord(t) => FileTrailerLine(t)
  }

  /** The record is written: its line has the canonical width. */
  predicate Fits(r: Record) { |Line(r)| == LINE_WIDTH }

  /** The bytes one call appends; a record of the wrong width appends nothing. */
  function Emitted(r: Record): string {
    if Fits(r) then Line(r) + CRLF else ""
  }

  /** The buffer after a sequence of calls on a fresh encoder. */
  function FileOf(records: seq<Record>): string {
    if records == [] then "" else Emitted(records[0]) + FileOf(records[1..])
  }

  /** From its construction on the buffer is the file of the calls made so far. */
  class Encoder {
    var buf: string
    ghost var calls: seq<Record>

    ghost predicate Valid()
      reads this
    {
      buf == FileOf(calls)
    }

    constructor ()
      ensures Valid() && calls == []
    {
      buf := "";
      calls := [];
    }

    method Bytes() returns (bytes: string)
      ensures Valid() ==> bytes == FileOf(calls)
    {
      bytes := buf;
    }

    method WriteLine(line: string) returns (ok: bool)
      modifies this`buf
      ensures ok <==> |line| == LINE_WIDTH
      ensures buf == if ok then old(buf) + (line + CRLF) else old(buf)
    {
      if |line| != LINE_WIDTH { return false; }
      buf := buf + line;
      buf := buf + CRLF;
      assert old(buf) + line + CRLF == old(buf) + (line + CRLF);
      ok := true;
    }

    method WriteFileHeader(h: FileHeader) returns (ok: bool)
      modifies this
      ensures old(Valid()) ==> Valid()
      ensures calls == old(calls) + [FileHeaderRecord(h)]
      ensures ok <==> Fits(FileHeaderRecord(h))
      ensures buf == old(buf) + Emitted(FileHeaderRecord(h))
    {
      hide FileHeaderLine, FileOf;
      ok := WriteLine(FileHeaderLine(h));
      FileOfAppend(calls, FileHeaderRecord(h));
      calls := calls + [FileHeaderRecord(h)];
    }

    method WriteBatchHeader(h: BatchHeader) returns (ok: bool)
      modifies this
      ensures old(Valid()) ==> Valid()
      ensures calls == old(calls) + [BatchHeaderRecord(h)]
      ensures ok <==> Fits(BatchHeaderRecord(h))
      ensures buf == old(buf) + Emitted(BatchHeaderRecord(h))
    {
      hide BatchHeaderLine, FileOf;
      ok := WriteLine(BatchHeaderLine(h));
      FileOfAppend(calls, BatchHeaderRecord(h));
      calls := calls + [BatchHeaderRecord(h)];
    }

    method WriteSegmentA(batchNumber: int64, seg: SegmentA) returns (ok: bool)
      modifies this
      ensures old(Valid()) ==> Valid()
      ensures calls == old(calls) + [SegmentARecord(batchNumber, seg)]
      ensures ok <==> Fits(SegmentARecord(batchNumber, seg))
      ensures buf == old(buf) + Emitted(SegmentARecord(batchNumber, seg))
    {
      hide SegmentALine, FileOf;
      ok := WriteLine(SegmentALine(batchNumber, seg));
      FileOfAppend(calls, SegmentARecord(batchNumber, seg));
      calls := calls + [SegmentARecord(batchNumber, seg)];
    }

    method WriteSegmentB(batchNumber: int64, seg: SegmentB) returns (ok: bool)
      modifies this
      ensures old(Valid()) ==> Valid()
      ensures calls == old(calls) + [SegmentBRecord(batchNumber, seg)]
      ensures ok <==> Fits(SegmentBRecord(batchNumber, seg))
      ensures buf == old(buf) + Emitted(SegmentBRecord(batchNumber, seg))
    {
      hide SegmentBLine, FileOf;
      ok := WriteLine(SegmentBLine(batchNumber, seg));
      FileOfAppend(calls, SegmentBRecord(batchNumber, seg));
      calls := calls + [SegmentBRecord(batchNumber, seg)];
    }

    method WriteBatchTrailer(t: BatchTrailer) returns (ok: bool)
      modifies this
      ensures old(Valid()) ==> Valid()
      ensures calls == old(calls) + [BatchTrailerRecord(t)]
      ensures ok <==> Fits(BatchTrailerRecord(t))
      ensures buf == old(buf) + Emitted(BatchTrailerRecord(t))
    {
      hide BatchTrailerLine, FileOf;
      ok := WriteLine(BatchTrailerLine(t));
      FileOfAppend(calls, BatchTrailerRecord(t));
      calls := calls + [BatchTrailerRecord(t)];
    }

    method WriteFileTrailer(t: FileTrailer) returns (ok: bool)
      modifies this
      ensures old(Valid()) ==> Valid()
      ensures calls == old(calls) + [FileTrailerRecord(t)]
      ensures ok <==> Fits(FileTrailerRecord(t))
      ensures buf == old(buf) + Emitted(FileTrailerRecord(t))
    {
      hide FileTrailerLine, FileOf;
      ok := WriteLine(FileTrailerLine(t));
      FileOfAppend(calls, FileTrailerRecord(t));
      calls := calls + [FileTrailerRecord(t)];
    }
  }

  // ---- what the layouts guarantee ----

  /** The fields copied without padding have the width that the layout leaves for them. */
  predicate RightSizes(r: Record) {
    match r
    case FileHeaderRecord(h) => |h.createdDate| + |h.createdTime| == 14
    case BatchHeaderRecord(h) => |h.service| + |h.forma| == 4
    case SegmentARecord(_, seg) => |seg.paymentDate| == 8
    case SegmentBRecord(_, seg) => |seg.documentType| == 1
    case BatchTrailerRecord(_) => true
    case FileTrailerRecord(_) => true
  }

  /** Exactly these fields decide whether a record is written. */
  lemma FitsIff(r: Record)
    ensures Fits(r) <==> RightSizes(r)
  {
  }

  lemma Assoc(a: string, b: string, c: string)
    ensures (a + b) + c == a + (b + c)
  {
  }

  lemma {:induction false} FileOfAppend(records: seq<Record>, r: Record)
    ensures FileOf(records + [r]) == FileOf(records) + Emitted(r)
  {
    hide Emitted;
    if records == [] {
      assert [] + [r] == [r];
      assert [r][1..] == [];
      assert Emitted(r) + "" == Emitted(r) == "" + Emitted(r);
    } else {
      assert (records + [r])[1..] == records[1..] + [r];
      FileOfAppend(records[1..], r);
      Assoc(Emitted(records[0]), FileOf(records[1..]), Emitted(r));
    }
  }

  function Written(records: seq<Record>): nat {
    if records == [] then 0 else (if Fits(records[0]) then 1 else 0) + Written(records[1..])
  }

  /** Every successful call adds exactly 242 bytes, every failed call none. */
  lemma {:induction false} FileLength(records: seq<Record>)
    ensures |FileOf(records)| == 242 * Written(records)
  {
    if records != [] { FileLength(records[1..]); }
  }

  lemma KeepPrefix(x: string, y: string, i: nat, j: nat)
    requires i <= j <= |x|
    ensures (x + y)[i..j] == x[i..j]
  {
  }

  /** The offsets the return parser reads, found in a Segment A line that was written. */
  lemma SegmentALayout(n: int64, seg: SegmentA)
    requires |seg.paymentDate| == 8
    ensures var line := SegmentALine(n, seg);
            line[7] == '3' && line[13] == 'A'
            && line[3..7] == PadLeftNum(n, 4) && line[8..13] == PadLeftNum(seg.sequence, 5)
            && line[70..90] == PadRightAlpha(seg.ourNumber, 20)
            && line[119..134] == PadLeftNum(seg.amountCents, 15)
            && line[230..240] == Blank(10)
  {
    hide SegmentAPayee, PadRightAlpha, PadLeftNum, SegmentATail, DetailLead;
    DetailMarks(PadLeftNum(n, 4), PadLeftNum(seg.sequence, 5), "A", "000");
    SevenFields(SegmentAHead(n, seg), SegmentAPayee(seg), PadRightAlpha(seg.ourNumber, 20), seg.paymentDate,
                SEGMENT_A_CURRENCY, PadLeftNum(seg.amountCents, 15), SegmentATail());
  }

  lemma DetailMarks(lote: string, sequence: string, segment: string, x: string)
    requires |lote| == 4 && |sequence| == 5 && |segment| == 1
    ensures var r := DetailLead(lote, sequence, segment) + x;
            r[7] == '3' && r[13] == segment[0] && r[3..7] == lote && r[8..13] == sequence
  {
    hide DetailLead;
    KeepPrefix(DetailLead(lote, sequence, segment), x, 3, 7);
    KeepPrefix(DetailLead(lote, sequence, segment), x, 8, 13);
  }

  lemma SevenFields(a: string, b: string, c: string, d: string, e: string, f: string, g: string)
    requires |a| == 17 && |b| == 53 && |c| == 20 && |d| == 8 && |e| == 21 && |f| == 15 && |g| == 106
    ensures var line := a + b + c + d + e + f + g;
            line[7] == a[7] && line[13] == a[13] && line[3..7] == a[3..7] && line[8..13] == a[8..13]
            && line[70..90] == c && line[119..134] == f && line[230..240] == g[96..]
  {
    var abc := a + b + c;
    assert abc[70..90] == c;
    KeepPrefix(a + b, c, 3, 7);
    KeepPrefix(a + b, c, 8, 13);
    LeftFields(abc, d, e, f, g, 3, 7);
    LeftFields(abc, d, e, f, g, 8, 13);
    LeftFields(abc, d, e, f, g, 70, 90);
    var left := abc + d + e;
    assert (left + f)[119..134] == f;
    KeepPrefix(left + f, g, 119, 134);
  }

  lemma LeftFields(x: string, d: string, e: string, f: string, g: string, i: nat, j: nat)
    requires i <= j <= |x|
    ensures (x + d + e + f + g)[i..j] == x[i..j]
  {
    KeepPrefix(x, d, i, j);
    KeepPrefix(x + d, e, i, j);
    KeepPrefix(x + d + e, f, i, j);
    KeepPrefix(x + d + e + f, g, i, j);
  }

  /** The record-type column, and the segment column of detail records. */
  lemma RecordMarks(r: Record)
    ensures match r
            case FileHeaderRecord(_) => Line(r)[7] == '0'
            case BatchHeaderRecord(_) => Line(r)[7] == '1'
            case SegmentARecord(_, _) => Line(r)[7] == '3' && Line(r)[13] == 'A'
            case SegmentBRecord(_, _) => Line(r)[7] == '3' && Line(r)[13] == 'B'
            case BatchTrailerRecord(_) => Line(r)[7] == '5'
            case FileTrailerRecord(_) => Line(r)[7] == '9'
  {
    hide FileHeaderTail, BatchHeaderTail, DetailLead, SegmentAPayee, SegmentATail, SegmentBAddress, SegmentBTail,
      PadLeftNum, PadRightAlpha, CompanyBlock, BankBlock, Lead;
  }

  /** The bank name needs no normalisation, so its column is the name followed by blanks. */
  lemma BankNameField()
    ensures PadRightAlpha(BANK_NAME, 30) == BANK_NAME + Blank(15)
  {
    CleanUnchanged(BANK_NAME);
  }
}
