/**
 The columns of the remessa: each field of a written record, read back by the position that the
 layout gives it. Columns are counted from zero, the end excluded.
 */
module CnabLayout {
  import opened MachineInts
  import opened Decimal
  import opened CnabFields
  import opened CnabEncoder

  /** The field f stands right after the text p at the start of a line. */
  lemma Column(p: string, f: string, line: string)
    requires p + f <= line
    ensures p <= line && line[|p|..|p| + |f|] == f
  {
    assert line == p + f + line[|p + f|..];
  }

  /** A column of a block that itself stands at column `start`. */
  lemma Inner(line: string, start: nat, end: nat, i: nat, j: nat)
    requires start <= end <= |line| && i <= j <= end - start
    ensures line[start..end][i..j] == line[start + i..start + j]
  {
    assert line[start..end] == line[..end][start..];
    assert forall k :: i <= k < j ==> line[start..end][k] == line[start + k];
  }

  // ---- what the reader gets out of a column ----

  lemma {:induction false} DigitsValue(s: string)
    ensures Value(DigitsOf(s)) == Value(s)
  {
    if s != [] {
      DigitsValue(s[..|s| - 1]);
      if IsDigit(s[|s| - 1]) { ValueAppend(DigitsOf(s[..|s| - 1]), s[|s| - 1]); }
    }
  }

  /** A document, agency or account column reads back as the digits of the text, modulo its width. */
  lemma PadLeftNumStrValue(s: string, w: nat)
    ensures Value(PadLeftNumStr(s, w)) == Value(s) % Pow10(w)
  {
    var t := DigitsOf(s);
    DigitsValue(s);
    if |t| >= w {
      SuffixValue(t, w);
    } else {
      ZerosValue(w - |t|);
      SkipLeft(Zeros(w - |t|), t);
      ValueBound(t);
      AllDigitsCount(t);
      Pow10Monotone(|t|, w);
      SmallMod(Value(t), Pow10(w));
    }
  }

  /** A column of at most 18 bytes holds the digits of a text, cut to its width. */
  ghost predicate HoldsDigits(line: string, start: nat, w: nat, s: string)
    requires start + w <= |line|
  {
    NumAt(line, start, start + w) == Value(s) % Pow10(w)
  }

  ghost predicate HoldsNumber(line: string, start: nat, w: nat, v: int)
    requires start + w <= |line|
  {
    NumAt(line, start, start + w) == Abs(v) % Pow10(w)
  }

  ghost predicate HoldsText(line: string, start: nat, w: nat, s: Text)
    requires start + w <= |line|
  {
    TrimSpace(StringAt(line, start, start + w)) == TrimSpace(Cut(Normalized(s), w))
  }

  lemma DigitsColumn(line: string, start: nat, w: nat, s: string)
    requires start + w <= |line| && w <= 18 && line[start..start + w] == PadLeftNumStr(s, w)
    ensures HoldsDigits(line, start, w, s)
  {
    NumAtBounded(line, start, start + w);
    PadLeftNumStrValue(s, w);
  }

  lemma TextColumn(line: string, start: nat, w: nat, s: Text)
    requires start + w <= |line| && line[start..start + w] == PadRightAlpha(s, w)
    ensures HoldsText(line, start, w, s)
  {
    AlphaFieldRoundTrip(line, start, w, s);
  }

  lemma NumberColumn(line: string, start: nat, w: nat, v: int)
    requires start + w <= |line| && w <= 18 && line[start..start + w] == PadLeftNum(v, w)
    ensures HoldsNumber(line, start, w, v)
  {
    NumFieldRoundTrip(line, start, w, v);
  }

  // ---- the company block of both headers ----

  ghost predicate CompanyAt(line: string, h: FileHeader)
    requires |line| == LINE_WIDTH
  {
    HoldsDigits(line, 18, 14, h.companyDoc) && HoldsText(line, 32, 20, h.convenio)
    && HoldsDigits(line, 52, 5, h.companyAgency) && HoldsDigits(line, 58, 12, h.companyAccount)
    && HoldsText(line, 70, 1, h.companyAccountDgt) && HoldsText(line, 72, 30, h.companyName)
  }

  lemma CompanyFields(
    r: string, doc: string, conv: string, agency: string, account: string, digit: string, name: string)
    requires |doc| == 14 && |conv| == 20 && |agency| == 5 && |account| == 12 && |digit| == 1 && |name| == 30
    requires r == "2" + doc + conv + agency + " " + account + digit + " " + name
    ensures r[1..15] == doc && r[15..35] == conv && r[35..40] == agency && r[41..53] == account
    ensures r[53..54] == digit && r[55..85] == name
  {
    Column("2" + doc + conv + agency + " " + account + digit + " ", name, r);
    Column("2" + doc + conv + agency + " " + account + digit, " ", r);
    Column("2" + doc + conv + agency + " " + account, digit, r);
    Column("2" + doc + conv + agency + " ", account, r);
    Column("2" + doc + conv + agency, " ", r);
    Column("2" + doc + conv, agency, r);
    Column("2" + doc, conv, r);
    Column("2", doc, r);
  }

  lemma CompanyColumns(line: string, h: FileHeader)
    requires |line| == LINE_WIDTH && line[17..102] == CompanyBlock(h)
    ensures CompanyAt(line, h)
  {
    hide PadLeftNumStr, PadRightAlpha, HoldsDigits, HoldsText;
    CompanyFields(
      CompanyBlock(h), PadLeftNumStr(h.companyDoc, 14), PadRightAlpha(h.convenio, 20),
      PadLeftNumStr(h.companyAgency, 5), PadLeftNumStr(h.companyAccount, 12), PadRightAlpha(h.companyAccountDgt, 1),
      PadRightAlpha(h.companyName, 30));
    hide CompanyBlock;
    Inner(line, 17, 102, 1, 15);
    Inner(line, 17, 102, 15, 35);
    Inner(line, 17, 102, 35, 40);
    Inner(line, 17, 102, 41, 53);
    Inner(line, 17, 102, 53, 54);
    Inner(line, 17, 102, 55, 85);
    DigitsColumn(line, 18, 14, h.companyDoc);
    TextColumn(line, 32, 20, h.convenio);
    DigitsColumn(line, 52, 5, h.companyAgency);
    DigitsColumn(line, 58, 12, h.companyAccount);
    TextColumn(line, 70, 1, h.companyAccountDgt);
    TextColumn(line, 72, 30, h.companyName);
  }

  /** Every field of a written file header reads back from its columns. */
  lemma FileHeaderReads(h: FileHeader)
    requires |h.createdDate| + |h.createdTime| == 14
    ensures var line := FileHeaderLine(h);
            && CompanyAt(line, h) && line[143..157] == h.createdDate + h.createdTime
            && HoldsNumber(line, 157, 6, h.fileSequence)
  {
    hide CompanyBlock, PadLeftNum, CompanyAt;
    var line := FileHeaderLine(h);
    var front, sequence := Lead("0000", '0') + Blank(9), PadLeftNum(h.fileSequence, 6);
    var tail := "080" + "00000" + Blank(20) + Blank(20) + Blank(29);
    assert FileHeaderTail(h) == sequence + tail;
    var dates := h.createdDate + h.createdTime;
    assert line == FileHeaderHead(h) + dates + sequence + tail;
    Column(FileHeaderHead(h) + dates, sequence, line);
    Column(FileHeaderHead(h), dates, line);
    assert FileHeaderHead(h) == front + CompanyBlock(h) + BankBlock();
    Column(front + CompanyBlock(h), BankBlock(), line);
    Column(front, CompanyBlock(h), line);
    hide FileHeaderLine, FileHeaderHead, FileHeaderTail;
    CompanyColumns(line, h);
    NumberColumn(line, 157, 6, h.fileSequence);
  }

  /** The same for a batch header; its service and form of payment are copied as they are. */
  lemma BatchHeaderReads(h: BatchHeader)
    requires |h.service| + |h.forma| == 4
    ensures var line := BatchHeaderLine(h);
            && HoldsNumber(line, 3, 4, h.batchNumber) && line[9..13] == h.service + h.forma
            && HoldsDigits(line, 13, 3, h.layout) && CompanyAt(line, h.fileHeader)
            && HoldsText(line, 102, 40, h.purpose)
  {
    hide CompanyBlock, PadLeftNum, CompanyAt, PadLeftNumStr, PadRightAlpha;
    var line, service := BatchHeaderLine(h), h.service + h.forma;
    var lote, layout, purpose := PadLeftNum(h.batchNumber, 4), PadLeftNumStr(h.layout, 3), PadRightAlpha(h.purpose, 40);
    var company := CompanyBlock(h.fileHeader);
    var front := BatchHeaderHead(h) + service;
    assert front + layout + " " + company + purpose <= line by { BatchHeaderPrefix(h); }
    hide BatchHeaderLine;
    Column(front + layout + " " + company, purpose, line);
    Column(front + layout + " ", company, line);
    Column(front + layout, " ", line);
    Column(front, layout, line);
    Column(BatchHeaderHead(h), service, line);
    assert BatchHeaderHead(h) == "341" + lote + ("1" + "C");
    Column("341" + lote, "1" + "C", line);
    Column("341", lote, line);
    NumberColumn(line, 3, 4, h.batchNumber);
    DigitsColumn(line, 13, 3, h.layout);
    CompanyColumns(line, h.fileHeader);
    TextColumn(line, 102, 40, h.purpose);
  }

  lemma BatchHeaderPrefix(h: BatchHeader)
    ensures BatchHeaderHead(h) + (h.service + h.forma) + PadLeftNumStr(h.layout, 3) + " " + CompanyBlock(h.fileHeader)
            + PadRightAlpha(h.purpose, 40) <= BatchHeaderLine(h)
  {
    hide CompanyBlock, PadLeftNumStr, PadRightAlpha, BatchHeaderHead;
    var start := PadLeftNumStr(h.layout, 3) + " " + CompanyBlock(h.fileHeader) + PadRightAlpha(h.purpose, 40);
    var rest := PadRightAlpha("", 30) + PadLeftNumStr("", 5) + PadRightAlpha("", 15) + PadRightAlpha("", 20)
                + PadRightAlpha("", 5) + PadRightAlpha("", 3) + PadRightAlpha("", 2) + Blank(8) + Blank(10);
    assert BatchHeaderTail(h) == start + rest;
  }

  // ---- detail records ----

  lemma PayeeFields(
    line: string, head: string, bank: string, agency: string, account: string, digit: string, name: string)
    requires |head| == 17 && |bank| == 3 && |agency| == 5 && |account| == 12 && |digit| == 1 && |name| == 30
    requires head + (bank + agency + " " + account + digit + " " + name) <= line
    ensures line[17..20] == bank && line[20..25] == agency && line[26..38] == account
    ensures line[38..39] == digit && line[40..70] == name
  {
    assert head + (bank + agency + " " + account + digit + " " + name)
        == head + bank + agency + " " + account + digit + " " + name;
    Column(head + bank + agency + " " + account + digit + " ", name, line);
    Column(head + bank + agency + " " + account + digit, " ", line);
    Column(head + bank + agency + " " + account, digit, line);
    Column(head + bank + agency + " ", account, line);
    Column(head + bank + agency, " ", line);
    Column(head + bank, agency, line);
    Column(head, bank, line);
  }

  lemma SegmentABlocks(n: int64, seg: SegmentA)
    requires |seg.paymentDate| == 8
    ensures SegmentAHead(n, seg) + SegmentAPayee(seg) <= SegmentALine(n, seg)
    ensures SegmentALine(n, seg)[90..98] == seg.paymentDate
  {
    hide PadLeftNum, PadRightAlpha, SegmentAHead, SegmentAPayee, SegmentATail;
    var line, front := SegmentALine(n, seg), SegmentAHead(n, seg) + SegmentAPayee(seg);
    var our, rest := PadRightAlpha(seg.ourNumber, 20), SEGMENT_A_CURRENCY;
    Column(front + our + seg.paymentDate + rest + PadLeftNum(seg.amountCents, 15), SegmentATail(), line);
    Column(front + our + seg.paymentDate + rest, PadLeftNum(seg.amountCents, 15), line);
    Column(front + our + seg.paymentDate, rest, line);
    Column(front + our, seg.paymentDate, line);
    Column(front, our, line);
  }

  /** The payee columns of Segment A, which the return parser does not read. */
  lemma SegmentAPayeeReads(n: int64, seg: SegmentA)
    requires |seg.paymentDate| == 8
    ensures var line := SegmentALine(n, seg);
            && HoldsDigits(line, 17, 3, seg.bankCode) && HoldsDigits(line, 20, 5, seg.agency)
            && HoldsDigits(line, 26, 12, seg.account) && HoldsText(line, 38, 1, seg.accountDigit)
            && HoldsText(line, 40, 30, seg.beneficiaryName) && line[90..98] == seg.paymentDate
  {
    hide PadLeftNumStr, PadRightAlpha, HoldsDigits, HoldsText, SegmentAHead, SegmentALine;
    var line := SegmentALine(n, seg);
    SegmentABlocks(n, seg);
    PayeeFields(
      line, SegmentAHead(n, seg), PadLeftNumStr(seg.bankCode, 3), PadLeftNumStr(seg.agency, 5),
      PadLeftNumStr(seg.account, 12), PadRightAlpha(seg.accountDigit, 1), PadRightAlpha(seg.beneficiaryName, 30));
    DigitsColumn(line, 17, 3, seg.bankCode);
    DigitsColumn(line, 20, 5, seg.agency);
    DigitsColumn(line, 26, 12, seg.account);
    TextColumn(line, 38, 1, seg.accountDigit);
    TextColumn(line, 40, 30, seg.beneficiaryName);
  }

  lemma AddressFields(
    line: string, front: string, doc: string, street: string, number: string, extra: string, area: string, city: string,
    cep: string, gap: string, state: string)
    requires |front| == 18 && |doc| == 14 && |street| == 30 && |number| == 5 && |extra| == 15 && |area| == 15
    requires |city| == 20 && |cep| == 5 && |gap| == 3 && |state| == 2
    requires front + (doc + street + number + extra + area + city + cep + gap + state) <= line
    ensures front <= line && line[18..32] == doc && line[32..62] == street && line[62..67] == number
    ensures line[67..82] == extra && line[82..97] == area && line[97..117] == city && line[117..122] == cep
    ensures line[125..127] == state
  {
    assert front + (doc + street + number + extra + area + city + cep + gap + state)
        == front + doc + street + number + extra + area + city + cep + gap + state;
    Column(front + doc + street + number + extra + area + city + cep + gap, state, line);
    Column(front + doc + street + number + extra + area + city + cep, gap, line);
    Column(front + doc + street + number + extra + area + city, cep, line);
    Column(front + doc + street + number + extra + area, city, line);
    Column(front + doc + street + number + extra, area, line);
    Column(front + doc + street + number, extra, line);
    Column(front + doc + street, number, line);
    Column(front + doc, street, line);
    Column(front, doc, line);
  }

  lemma SegmentBBlocks(n: int64, seg: SegmentB)
    requires |seg.documentType| == 1
    ensures SegmentBHead(n, seg) + seg.documentType + SegmentBAddress(seg) <= SegmentBLine(n, seg)
    ensures var line := SegmentBLine(n, seg);
            line[3..7] == PadLeftNum(n, 4) && line[8..13] == PadLeftNum(seg.sequence, 5)
            && line[17..18] == seg.documentType
  {
    hide PadLeftNum, DetailLead, SegmentBAddress, SegmentBTail;
    var lead, rest := SegmentBHead(n, seg), SegmentBAddress(seg) + SegmentBTail();
    DetailMarks(PadLeftNum(n, 4), PadLeftNum(seg.sequence, 5), "B", Blank(3));
    KeepPrefix(lead, seg.documentType, 3, 7);
    KeepPrefix(lead, seg.documentType, 8, 13);
    KeepPrefix(lead + seg.documentType, rest, 3, 7);
    KeepPrefix(lead + seg.documentType, rest, 8, 13);
    Assoc(lead + seg.documentType, SegmentBAddress(seg), SegmentBTail());
    Column(lead, seg.documentType, SegmentBLine(n, seg));
  }

  lemma AddressReads(line: string, front: string, seg: SegmentB)
    requires |line| == LINE_WIDTH && |front| == 18 && front + SegmentBAddress(seg) <= line
    ensures HoldsDigits(line, 18, 14, seg.beneficiaryDoc) && HoldsText(line, 32, 30, seg.addressLine)
    ensures HoldsDigits(line, 62, 5, seg.addressNumber) && HoldsText(line, 67, 15, seg.complement)
    ensures HoldsText(line, 82, 15, seg.neighborhood) && HoldsText(line, 97, 20, seg.city)
    ensures HoldsDigits(line, 117, 5, seg.cep) && HoldsText(line, 125, 2, seg.state)
  {
    hide PadLeftNumStr, PadRightAlpha, HoldsDigits, HoldsText;
    AddressFields(
      line, front, PadLeftNumStr(seg.beneficiaryDoc, 14), PadRightAlpha(seg.addressLine, 30),
      PadLeftNumStr(seg.addressNumber, 5), PadRightAlpha(seg.complement, 15), PadRightAlpha(seg.neighborhood, 15),
      PadRightAlpha(seg.city, 20), PadLeftNumStr(seg.cep, 5), PadRightAlpha("", 3), PadRightAlpha(seg.state, 2));
    DigitsColumn(line, 18, 14, seg.beneficiaryDoc);
    TextColumn(line, 32, 30, seg.addressLine);
    DigitsColumn(line, 62, 5, seg.addressNumber);
    TextColumn(line, 67, 15, seg.complement);
    TextColumn(line, 82, 15, seg.neighborhood);
    TextColumn(line, 97, 20, seg.city);
    DigitsColumn(line, 117, 5, seg.cep);
    TextColumn(line, 125, 2, seg.state);
  }

  /** Every field of a written Segment B, which the return parser skips. */
  lemma SegmentBReads(n: int64, seg: SegmentB)
    requires |seg.documentType| == 1
    ensures var line := SegmentBLine(n, seg);
            && HoldsNumber(line, 3, 4, n) && HoldsNumber(line, 8, 5, seg.sequence)
            && line[17..18] == seg.documentType && HoldsDigits(line, 18, 14, seg.beneficiaryDoc)
            && HoldsText(line, 32, 30, seg.addressLine) && HoldsDigits(line, 62, 5, seg.addressNumber)
            && HoldsText(line, 67, 15, seg.complement) && HoldsText(line, 82, 15, seg.neighborhood)
            && HoldsText(line, 97, 20, seg.city) && HoldsDigits(line, 117, 5, seg.cep)
            && HoldsText(line, 125, 2, seg.state)
  {
    hide PadLeftNum, HoldsDigits, HoldsText, HoldsNumber, SegmentBLine, SegmentBHead, SegmentBAddress;
    var line := SegmentBLine(n, seg);
    SegmentBBlocks(n, seg);
    NumberColumn(line, 3, 4, n);
    NumberColumn(line, 8, 5, seg.sequence);
    AddressReads(line, SegmentBHead(n, seg) + seg.documentType, seg);
  }

  // ---- trailers ----

  lemma BatchTrailerReads(t: BatchTrailer)
    ensures var line := BatchTrailerLine(t);
            HoldsNumber(line, 3, 4, t.batchNumber) && HoldsNumber(line, 17, 6, t.recordCount)
            && HoldsNumber(line, 23, 18, t.totalCents)
  {
    hide PadLeftNum;
    var line := BatchTrailerLine(t);
    var lote, count, total := PadLeftNum(t.batchNumber, 4), PadLeftNum(t.recordCount, 6), PadLeftNum(t.totalCents, 18);
    var front := "341" + lote + "5" + Blank(9);
    assert front + count + total <= line;
    hide BatchTrailerLine;
    Column(front + count, total, line);
    Column(front, count, line);
    Column("341" + lote + "5", Blank(9), line);
    Column("341" + lote, "5", line);
    Column("341", lote, line);
    NumberColumn(line, 3, 4, t.batchNumber);
    NumberColumn(line, 17, 6, t.recordCount);
    NumberColumn(line, 23, 18, t.totalCents);
  }

  lemma FileTrailerReads(t: FileTrailer)
    ensures var line := FileTrailerLine(t);
            HoldsNumber(line, 17, 6, t.batchCount) && HoldsNumber(line, 23, 6, t.recordCount)
  {
    hide PadLeftNum;
    var line, front := FileTrailerLine(t), Lead("9999", '9') + Blank(9);
    var batches, count := PadLeftNum(t.batchCount, 6), PadLeftNum(t.recordCount, 6);
    assert front + batches + count <= line;
    hide FileTrailerLine;
    Column(front + batches, count, line);
    Column(front, batches, line);
    NumberColumn(line, 17, 6, t.batchCount);
    NumberColumn(line, 23, 6, t.recordCount);
  }

  // ---- the fixed columns ----

  /** A text field of an empty text is blank, a digit field of one is zero. */
  lemma EmptyFields(w: nat)
    ensures PadRightAlpha("", w) == Blank(w) && PadLeftNumStr("", w) == Zeros(w)
  {
  }

  /** Columns 001-008 of any record: the bank code, the lote, the record type. */
  lemma LeadColumns(line: string, lote: string, mark: char)
    requires |lote| == 4 && Lead(lote, mark) <= line
    ensures line[0..3] == "341" && line[3..7] == lote && line[7..8] == [mark]
  {
    Column("341" + lote, [mark], line);
    Column("341", lote, line);
    Column("", "341", line);
  }

  lemma CompanyConstants(line: string, h: FileHeader)
    requires |line| == LINE_WIDTH && line[17..102] == CompanyBlock(h)
    ensures line[17..18] == "2" && line[57..58] == " " && line[71..72] == " "
  {
    hide PadLeftNumStr, PadRightAlpha;
    CompanyMarks(
      CompanyBlock(h), PadLeftNumStr(h.companyDoc, 14), PadRightAlpha(h.convenio, 20),
      PadLeftNumStr(h.companyAgency, 5), PadLeftNumStr(h.companyAccount, 12), PadRightAlpha(h.companyAccountDgt, 1),
      PadRightAlpha(h.companyName, 30));
    hide CompanyBlock;
    Inner(line, 17, 102, 0, 1);
    Inner(line, 17, 102, 40, 41);
    Inner(line, 17, 102, 54, 55);
  }

  lemma CompanyMarks(
    r: string, doc: string, conv: string, agency: string, account: string, digit: string, name: string)
    requires |doc| == 14 && |conv| == 20 && |agency| == 5 && |account| == 12 && |digit| == 1 && |name| == 30
    requires r == "2" + doc + conv + agency + " " + account + digit + " " + name
    ensures r[0..1] == "2" && r[40..41] == " " && r[54..55] == " "
  {
    Column("2" + doc + conv + agency + " " + account + digit + " ", name, r);
    Column("2" + doc + conv + agency + " " + account + digit, " ", r);
    Column("2" + doc + conv + agency + " " + account, digit, r);
    Column("2" + doc + conv + agency + " ", account, r);
    Column("2" + doc + conv + agency, " ", r);
    Column("2" + doc + conv, agency, r);
    Column("2" + doc, conv, r);
    Column("2", doc, r);
    Column("", "2", r);
  }

  /** The fixed columns of a file header. */
  lemma FileHeaderFixed(h: FileHeader)
    requires |h.createdDate| + |h.createdTime| == 14
    ensures var line := FileHeaderLine(h);
            && line[0..3] == "341" && line[3..7] == "0000" && line[7..8] == "0" && line[8..17] == Blank(9)
            && line[17..18] == "2" && line[57..58] == " " && line[71..72] == " "
            && line[102..117] == "BANCO ITAU S.A." && line[117..142] == Blank(25) && line[142..143] == "1"
            && line[163..166] == "080" && line[166..171] == Zeros(5) && line[171..240] == Blank(69)
  {
    hide CompanyBlock, PadLeftNum, BankBlock;
    var line := FileHeaderLine(h);
    var head, rest := FileHeaderHead(h), h.createdDate + h.createdTime + FileHeaderTail(h);
    assert line == head + rest;
    var lead := Lead("0000", '0');
    Column(lead + Blank(9) + CompanyBlock(h), BankBlock(), line);
    Column(lead + Blank(9), CompanyBlock(h), line);
    Column(lead, Blank(9), line);
    var sequence, tail := PadLeftNum(h.fileSequence, 6), "080" + Zeros(5) + Blank(69);
    TailJoined(sequence);
    Column(head + h.createdDate + h.createdTime, FileHeaderTail(h), line);
    hide FileHeaderLine, FileHeaderHead, FileHeaderTail, Lead;
    LeadColumns(line, "0000", '0');
    CompanyConstants(line, h);
    BankColumns(line);
    TailColumns(line, sequence);
  }

  lemma TailJoined(sequence: string)
    ensures sequence + "080" + "00000" + Blank(20) + Blank(20) + Blank(29) == sequence + ("080" + Zeros(5) + Blank(69))
  {
    assert "00000" == Zeros(5);
    assert Blank(20) + Blank(20) + Blank(29) == Blank(69);
  }

  lemma BankColumns(line: string)
    requires |line| == LINE_WIDTH && line[102..143] == BankBlock()
    ensures line[102..117] == "BANCO ITAU S.A." && line[117..142] == Blank(25) && line[142..143] == "1"
  {
    var r := BankBlock();
    assert r == "BANCO ITAU S.A." + Blank(25) + "1" by { assert Blank(15) + Blank(10) == Blank(25); }
    Column("BANCO ITAU S.A." + Blank(25), "1", r);
    Column("BANCO ITAU S.A.", Blank(25), r);
    Column("", "BANCO ITAU S.A.", r);
    hide BankBlock;
    Inner(line, 102, 143, 0, 15);
    Inner(line, 102, 143, 15, 40);
    Inner(line, 102, 143, 40, 41);
  }

  lemma TailColumns(line: string, sequence: string)
    requires |line| == LINE_WIDTH && |sequence| == 6 && line[157..240] == sequence + ("080" + Zeros(5) + Blank(69))
    ensures line[163..166] == "080" && line[166..171] == Zeros(5) && line[171..240] == Blank(69)
  {
    var r := line[157..240];
    assert r == sequence + "080" + Zeros(5) + Blank(69);
    Column(sequence + "080" + Zeros(5), Blank(69), r);
    Column(sequence + "080", Zeros(5), r);
    Column(sequence, "080", r);
    Inner(line, 157, 240, 6, 9);
    Inner(line, 157, 240, 9, 14);
    Inner(line, 157, 240, 14, 83);
  }

  /** The fixed columns of a batch header. */
  lemma BatchHeaderFixed(h: BatchHeader)
    requires |h.service| + |h.forma| == 4
    ensures var line := BatchHeaderLine(h);
            && line[0..3] == "341" && line[7..8] == "1" && line[8..9] == "C" && line[16..17] == " "
            && line[17..18] == "2" && line[57..58] == " " && line[71..72] == " "
            && line[142..172] == Blank(30) && line[172..177] == Zeros(5) && line[177..240] == Blank(63)
  {
    hide CompanyBlock, PadLeftNum, PadLeftNumStr, PadRightAlpha;
    var line, lote := BatchHeaderLine(h), PadLeftNum(h.batchNumber, 4);
    var start := BatchHeaderHead(h) + (h.service + h.forma) + PadLeftNumStr(h.layout, 3);
    var company, purpose := CompanyBlock(h.fileHeader), PadRightAlpha(h.purpose, 40);
    BatchHeaderJoined(h);
    hide BatchHeaderLine;
    Column(start + " " + company + purpose + Blank(30) + Zeros(5), Blank(63), line);
    Column(start + " " + company + purpose + Blank(30), Zeros(5), line);
    Column(start + " " + company + purpose, Blank(30), line);
    Column(start + " " + company, purpose, line);
    Column(start + " ", company, line);
    Column(start, " ", line);
    Column(BatchHeaderHead(h) + (h.service + h.forma), PadLeftNumStr(h.layout, 3), line);
    Column(BatchHeaderHead(h), h.service + h.forma, line);
    Column(Lead(lote, '1'), "C", line);
    hide Lead, BatchHeaderHead;
    LeadColumns(line, lote, '1');
    CompanyConstants(line, h.fileHeader);
  }

  lemma BatchHeaderJoined(h: BatchHeader)
    ensures BatchHeaderLine(h) ==
            BatchHeaderHead(h) + (h.service + h.forma) + PadLeftNumStr(h.layout, 3) + " " + CompanyBlock(h.fileHeader)
            + PadRightAlpha(h.purpose, 40) + Blank(30) + Zeros(5) + Blank(63)
  {
    hide CompanyBlock, PadLeftNumStr, PadRightAlpha, BatchHeaderHead, BatchHeaderTail;
    BatchHeaderTailJoined(h);
    LayoutJoined(
      BatchHeaderHead(h) + h.service + h.forma, PadLeftNumStr(h.layout, 3), CompanyBlock(h.fileHeader),
      PadRightAlpha(h.purpose, 40));
    Assoc(BatchHeaderHead(h), h.service, h.forma);
  }

  lemma BatchHeaderTailJoined(h: BatchHeader)
    ensures BatchHeaderTail(h) ==
            PadLeftNumStr(h.layout, 3) + " " + CompanyBlock(h.fileHeader) + PadRightAlpha(h.purpose, 40)
            + Blank(30) + Zeros(5) + Blank(63)
  {
    EmptyFields(30);
    EmptyFields(5);
    EmptyFields(15);
    EmptyFields(20);
    EmptyFields(3);
    EmptyFields(2);
    hide CompanyBlock, PadLeftNumStr, PadRightAlpha;
    BlanksJoined(
      PadLeftNumStr(h.layout, 3) + " " + CompanyBlock(h.fileHeader) + PadRightAlpha(h.purpose, 40));
  }

  lemma BlanksJoined(start: string)
    ensures start + Blank(30) + Zeros(5) + Blank(15) + Blank(20) + Blank(5) + Blank(3) + Blank(2) + Blank(8) + Blank(10)
         == start + Blank(30) + Zeros(5) + Blank(63)
  {
    assert Blank(15) + Blank(20) + Blank(5) + Blank(3) + Blank(2) + Blank(8) + Blank(10) == Blank(63);
  }

  lemma LayoutJoined(head: string, layout: string, company: string, purpose: string)
    ensures head + (layout + " " + company + purpose + Blank(30) + Zeros(5) + Blank(63))
         == head + layout + " " + company + purpose + Blank(30) + Zeros(5) + Blank(63)
  {
  }

  /** The fixed columns of Segment A. */
  lemma SegmentAFixed(n: int64, seg: SegmentA)
    requires |seg.paymentDate| == 8
    ensures var line := SegmentALine(n, seg);
            && line[0..3] == "341" && line[7..8] == "3" && line[13..14] == "A" && line[14..17] == "000"
            && line[25..26] == " " && line[39..40] == " "
            && line[98..101] == "BRL" && line[101..119] == Zeros(18)
            && line[134..172] == Blank(38) && line[172..187] == Zeros(15) && line[187..240] == Blank(53)
  {
    hide PadLeftNum, PadRightAlpha, PadLeftNumStr;
    var line, head := SegmentALine(n, seg), SegmentAHead(n, seg);
    var front := head + SegmentAPayee(seg) + PadRightAlpha(seg.ourNumber, 20) + seg.paymentDate;
    var amount := PadLeftNum(seg.amountCents, 15);
    assert line == front + SEGMENT_A_CURRENCY + amount + SegmentATail();
    hide SegmentAHead, SegmentAPayee, SegmentATail;
    Column(front + SEGMENT_A_CURRENCY + amount, SegmentATail(), line);
    Column(front + SEGMENT_A_CURRENCY, amount, line);
    Column(front, SEGMENT_A_CURRENCY, line);
    Column(head + SegmentAPayee(seg) + PadRightAlpha(seg.ourNumber, 20), seg.paymentDate, line);
    Column(head + SegmentAPayee(seg), PadRightAlpha(seg.ourNumber, 20), line);
    Column(head, SegmentAPayee(seg), line);
    hide SegmentALine;
    CurrencyColumns(line);
    SegmentATailColumns(line);
    PayeeMarks(line, seg);
    SegmentAHeadColumns(line, n, seg);
  }

  lemma CurrencyColumns(line: string)
    requires |line| == LINE_WIDTH && line[98..119] == SEGMENT_A_CURRENCY
    ensures line[98..101] == "BRL" && line[101..119] == Zeros(18)
  {
    assert SEGMENT_A_CURRENCY == "BRL" + Zeros(18);
    Column("BRL", Zeros(18), SEGMENT_A_CURRENCY);
    Column("", "BRL", SEGMENT_A_CURRENCY);
    Inner(line, 98, 119, 0, 3);
    Inner(line, 98, 119, 3, 21);
  }

  lemma SegmentATailColumns(line: string)
    requires |line| == LINE_WIDTH && line[134..240] == SegmentATail()
    ensures line[134..172] == Blank(38) && line[172..187] == Zeros(15) && line[187..240] == Blank(53)
  {
    EmptyFields(15);
    EmptyFields(40);
    EmptyFields(2);
    EmptyFields(5);
    hide PadRightAlpha;
    assert Blank(15) + Blank(15) + "        " == Blank(38);
    assert "000000000000000" == Zeros(15);
    assert Blank(40) + Blank(2) + Blank(5) + Blank(5) + " " == Blank(53);
    var r := SegmentATail();
    assert r == Blank(38) + Zeros(15) + Blank(53);
    hide SegmentATail;
    Column(Blank(38) + Zeros(15), Blank(53), r);
    Column(Blank(38), Zeros(15), r);
    Column("", Blank(38), r);
    Inner(line, 134, 240, 0, 38);
    Inner(line, 134, 240, 38, 53);
    Inner(line, 134, 240, 53, 106);
  }

  lemma PayeeMarks(line: string, seg: SegmentA)
    requires |line| == LINE_WIDTH && line[17..70] == SegmentAPayee(seg)
    ensures line[25..26] == " " && line[39..40] == " "
  {
    hide PadLeftNumStr, PadRightAlpha;
    var r, front := SegmentAPayee(seg), PadLeftNumStr(seg.bankCode, 3) + PadLeftNumStr(seg.agency, 5);
    var account, digit, name :=
      PadLeftNumStr(seg.account, 12), PadRightAlpha(seg.accountDigit, 1), PadRightAlpha(seg.beneficiaryName, 30);
    assert r == front + " " + account + digit + " " + name;
    hide SegmentAPayee;
    Column(front + " " + account + digit + " ", name, r);
    Column(front + " " + account + digit, " ", r);
    Column(front + " " + account, digit, r);
    Column(front + " ", account, r);
    Column(front, " ", r);
    Inner(line, 17, 70, 8, 9);
    Inner(line, 17, 70, 22, 23);
  }

  lemma SegmentAHeadColumns(line: string, n: int64, seg: SegmentA)
    requires |line| == LINE_WIDTH && SegmentAHead(n, seg) <= line
    ensures line[0..3] == "341" && line[7..8] == "3" && line[13..14] == "A" && line[14..17] == "000"
  {
    hide PadLeftNum;
    var lote, sequence := PadLeftNum(n, 4), PadLeftNum(seg.sequence, 5);
    DetailColumns(line, lote, sequence, "A", "000");
  }

  lemma DetailColumns(line: string, lote: string, sequence: string, segment: string, movement: string)
    requires |line| == LINE_WIDTH && |lote| == 4 && |sequence| == 5 && |segment| == 1 && |movement| == 3
    requires DetailLead(lote, sequence, segment) + movement <= line
    ensures line[0..3] == "341" && line[7..8] == "3" && line[13..14] == segment && line[14..17] == movement
  {
    var lead := Lead(lote, '3');
    assert DetailLead(lote, sequence, segment) == lead + sequence + segment;
    hide DetailLead;
    Column(lead + sequence + segment, movement, line);
    Column(lead + sequence, segment, line);
    Column(lead, sequence, line);
    hide Lead;
    LeadColumns(line, lote, '3');
  }

  /** The fixed columns of Segment B. */
  lemma SegmentBFixed(n: int64, seg: SegmentB)
    requires |seg.documentType| == 1
    ensures var line := SegmentBLine(n, seg);
            && line[0..3] == "341" && line[7..8] == "3" && line[13..14] == "B" && line[14..17] == Blank(3)
            && line[122..125] == Blank(3) && line[127..210] == Zeros(83) && line[210..240] == Blank(30)
  {
    hide PadLeftNum, PadRightAlpha, PadLeftNumStr, DetailLead;
    var line, head := SegmentBLine(n, seg), SegmentBHead(n, seg);
    var front, address := head + seg.documentType, SegmentBAddress(seg);
    assert line == front + address + SegmentBTail();
    hide SegmentBTail;
    Column(front + address, SegmentBTail(), line);
    Column(front, address, line);
    Column(head, seg.documentType, line);
    DetailColumns(line, PadLeftNum(n, 4), PadLeftNum(seg.sequence, 5), "B", Blank(3));
    hide SegmentBLine, SegmentBHead;
    AddressGap(line, seg);
    SegmentBTailColumns(line);
  }

  lemma AddressGap(line: string, seg: SegmentB)
    requires |line| == LINE_WIDTH && line[18..127] == SegmentBAddress(seg)
    ensures line[122..125] == Blank(3)
  {
    EmptyFields(3);
    hide PadLeftNumStr, PadRightAlpha;
    var r := SegmentBAddress(seg);
    var front := PadLeftNumStr(seg.beneficiaryDoc, 14) + PadRightAlpha(seg.addressLine, 30)
                 + PadLeftNumStr(seg.addressNumber, 5) + PadRightAlpha(seg.complement, 15)
                 + PadRightAlpha(seg.neighborhood, 15) + PadRightAlpha(seg.city, 20) + PadLeftNumStr(seg.cep, 5);
    assert r == front + Blank(3) + PadRightAlpha(seg.state, 2);
    hide SegmentBAddress;
    Column(front + Blank(3), PadRightAlpha(seg.state, 2), r);
    Column(front, Blank(3), r);
    Inner(line, 18, 127, 104, 107);
  }

  lemma SegmentBTailColumns(line: string)
    requires |line| == LINE_WIDTH && line[127..240] == SegmentBTail()
    ensures line[127..210] == Zeros(83) && line[210..240] == Blank(30)
  {
    EmptyFields(15);
    hide PadRightAlpha;
    assert "000000000000000" == Zeros(15) && "00000000" == Zeros(8);
    assert Zeros(8) + Zeros(15) + Zeros(15) + Zeros(15) + Zeros(15) + Zeros(15) == Zeros(83);
    assert Blank(15) + Blank(15) == Blank(30);
    var r := SegmentBTail();
    assert r == Zeros(83) + Blank(30);
    hide SegmentBTail;
    Column(Zeros(83), Blank(30), r);
    Column("", Zeros(83), r);
    Inner(line, 127, 240, 0, 83);
    Inner(line, 127, 240, 83, 113);
  }

  /** The fixed columns of the trailers. */
  lemma BatchTrailerFixed(t: BatchTrailer)
    ensures var line := BatchTrailerLine(t);
            && line[0..3] == "341" && line[7..8] == "5" && line[8..17] == Blank(9)
            && line[41..65] == Zeros(24) && line[65..240] == Blank(175)
  {
    hide PadLeftNum;
    var line, lote := BatchTrailerLine(t), PadLeftNum(t.batchNumber, 4);
    var lead, count, total := Lead(lote, '5'), PadLeftNum(t.recordCount, 6), PadLeftNum(t.totalCents, 18);
    assert "000000000000000000" + "000000" == Zeros(24);
    assert Blank(165) + Blank(10) == Blank(175);
    assert line == lead + Blank(9) + count + total + Zeros(24) + Blank(175);
    hide BatchTrailerLine;
    Column(lead + Blank(9) + count + total + Zeros(24), Blank(175), line);
    Column(lead + Blank(9) + count + total, Zeros(24), line);
    Column(lead + Blank(9) + count, total, line);
    Column(lead + Blank(9), count, line);
    Column(lead, Blank(9), line);
    hide Lead;
    LeadColumns(line, lote, '5');
  }

  lemma FileTrailerFixed(t: FileTrailer)
    ensures var line := FileTrailerLine(t);
            && line[0..3] == "341" && line[3..7] == "9999" && line[7..8] == "9" && line[8..17] == Blank(9)
            && line[29..35] == Zeros(6) && line[35..240] == Blank(205)
  {
    hide PadLeftNum;
    var line, lead := FileTrailerLine(t), Lead("9999", '9');
    var batches, count := PadLeftNum(t.batchCount, 6), PadLeftNum(t.recordCount, 6);
    assert "000000" == Zeros(6);
    assert line == lead + Blank(9) + batches + count + Zeros(6) + Blank(205);
    hide FileTrailerLine;
    Column(lead + Blank(9) + batches + count + Zeros(6), Blank(205), line);
    Column(lead + Blank(9) + batches + count, Zeros(6), line);
    Column(lead + Blank(9) + batches, count, line);
    Column(lead + Blank(9), batches, line);
    Column(lead, Blank(9), line);
    hide Lead;
    LeadColumns(line, "9999", '9');
  }
}
