/** Payment and batch rules: the loop that guards a batch, against the simple form of the same rule. */
module BatchRules {
  import opened MachineInts
  import opened Decimal
  import opened Collections
  import CheckDigits

  datatype Limits = Limits(
    maxSingle: int64, minSingle: int64, daily: int64, batch: int64, maxItems: int, pixNightCap: int64,
    tedCutoff: int, minDays: int, maxDays: int)

  datatype Kind = Pix | Ted | OtherKind

  datatype KeyType = NoKeyType | CpfKey | CnpjKey | EmailKey | PhoneKey | EvpKey | OtherKeyType

  /** `shapeOk` is the verdict of the regular expressions for e-mail, telephone and random keys. */
  datatype Payee =
    | NoPayee
    | PixKey(keyType: KeyType, key: string, shapeOk: bool)
    | BankAccount(bank: string, agency: string, account: string, document: string)
    | OtherMethod

  datatype Payment = Payment(amount: int64, currency: string, kind: Kind, payee: Payee, scheduledDay: Option<int>)

  /** The caller's clock: a day number and the hour of that day. */
  datatype Moment = Moment(day: int, hour: nat)

  datatype Why =
    | NotPositive | Currency | BadKind | BadPayee | InThePast | TooSoon | TooFar
    | BelowMinimum | AboveMaximum | TedCutoff | PixNight

  datatype Outcome = Passed | Validation(why: Why) | Policy(why: Why)

  // ---- one payment ----

  predicate DigitsOnly(s: string) { s != "" && AllDigits(s) }

  predicate PixKeyShape(keyType: KeyType, key: string, shapeOk: bool) {
    match keyType
    case CpfKey => |DigitsOf(key)| == 11 && CheckDigits.CpfVerdict(DigitsOf(key)) == CheckDigits.Accepted
    case CnpjKey => |DigitsOf(key)| == 14 && CheckDigits.CnpjVerdict(DigitsOf(key)) == CheckDigits.Accepted
    case EmailKey => shapeOk
    case PhoneKey => shapeOk
    case EvpKey => shapeOk
    case _ => false
  }

  predicate PayeeShape(p: Payee) {
    match p
    case PixKey(t, key, ok) => t != NoKeyType && key != "" && PixKeyShape(t, key, ok)
    case BankAccount(bank, agency, account, document) =>
      && DigitsOnly(bank) && |bank| == 3
      && DigitsOnly(agency) && 3 <= |agency| <= 5
      && DigitsOnly(account) && 4 <= |account|
      && (document == "" || CheckDigits.DocumentVerdict(document) == CheckDigits.Accepted)
    case _ => false
  }

  function Schedule(p: Payment, l: Limits, now: Moment): Outcome {
    if p.scheduledDay == None then Passed
    else
      var days := p.scheduledDay.value - now.day;
      if days < 0 then Validation(InThePast)
      else if l.minDays > 0 && days < l.minDays then Policy(TooSoon)
      else if l.maxDays > 0 && days > l.maxDays then Policy(TooFar)
      else Passed
  }

  function SingleLimits(p: Payment, l: Limits): Outcome {
    if l.minSingle > 0 && p.amount < l.minSingle then Policy(BelowMinimum)
    else if l.maxSingle > 0 && p.amount > l.maxSingle then Policy(AboveMaximum)
    else Passed
  }

  predicate Night(hour: nat) { hour >= 20 || hour < 6 }

  function Cutoff(p: Payment, l: Limits, now: Moment): Outcome {
    var cutoff := if l.tedCutoff == 0 then 17 else l.tedCutoff;
    if p.kind == Ted && p.scheduledDay == None && now.hour >= cutoff then Policy(TedCutoff)
    else if p.kind == Pix && l.pixNightCap > 0 && Night(now.hour) && p.amount > l.pixNightCap then Policy(PixNight)
    else Passed
  }

  function ValidatePayment(p: Payment, l: Limits, now: Moment): Outcome {
    if p.amount <= 0 then Validation(NotPositive)
    else if p.currency != "" && p.currency != "BRL" then Validation(Currency)
    else if p.kind == OtherKind then Validation(BadKind)
    else if !PayeeShape(p.payee) then Validation(BadPayee)
    else if Schedule(p, l, now) != Passed then Schedule(p, l, now)
    else if SingleLimits(p, l) != Passed then SingleLimits(p, l)
    else Cutoff(p, l, now)
  }

  /**
   The amounts that pass, everything else being equal, are exactly those of one interval: from the
   minimum to the smaller of the single cap and, for PIX at night, the night cap.
   */
  lemma AmountsPassIff(p: Payment, amount: int64, l: Limits, now: Moment)
    requires ValidatePayment(p, l, now) == Passed
    ensures ValidatePayment(p.(amount := amount), l, now) == Passed <==>
              && 0 < amount && (l.minSingle > 0 ==> l.minSingle <= amount)
              && (l.maxSingle > 0 ==> amount <= l.maxSingle)
              && (p.kind == Pix && l.pixNightCap > 0 && (now.hour < 6 || 20 <= now.hour) ==> amount <= l.pixNightCap)
  {
    hide PayeeShape;
  }

  /**
   When a payment passes is a window too: the days between the horizons, unscheduled TED only
   before the cutoff hour.
   */
  lemma DaysPassIff(p: Payment, day: Option<int>, l: Limits, now: Moment)
    requires ValidatePayment(p, l, now) == Passed
    ensures ValidatePayment(p.(scheduledDay := day), l, now) == Passed <==>
              match day
              case None => p.kind == Ted ==> now.hour < if l.tedCutoff == 0 then 17 else l.tedCutoff
              case Some(d) => now.day <= d && (l.minDays > 0 ==> now.day + l.minDays <= d)
                              && (l.maxDays > 0 ==> d <= now.day + l.maxDays)
  {
    hide PayeeShape;
  }

  // ---- the rules of a payment from its data ----

  predicate CpfNumber(d: string) {
    AllDigits(d) && |d| == 11 && !CheckDigits.AllEqual(d) && CheckDigits.CpfCongruent(d)
  }

  predicate CnpjNumber(d: string) {
    AllDigits(d) && |d| == 14 && !CheckDigits.AllEqual(d) && CheckDigits.CnpjCongruent(d)
  }

  /** The payees that can be paid, spelt out. */
  predicate GoodPayee(p: Payee) {
    match p
    case NoPayee => false
    case OtherMethod => false
    case PixKey(keyType, key, shapeOk) =>
      && key != ""
      && (|| (keyType == CpfKey && CpfNumber(DigitsOf(key)))
          || (keyType == CnpjKey && CnpjNumber(DigitsOf(key)))
          || ((keyType == EmailKey || keyType == PhoneKey || keyType == EvpKey) && shapeOk))
    case BankAccount(bank, agency, account, document) =>
      && AllDigits(bank) && |bank| == 3
      && AllDigits(agency) && (|agency| == 3 || |agency| == 4 || |agency| == 5)
      && AllDigits(account) && |account| > 3
      && (document == "" || CpfNumber(DigitsOf(document)) || CnpjNumber(DigitsOf(document)))
  }

  lemma PayeeShapeExact(p: Payee)
    ensures PayeeShape(p) <==> GoodPayee(p)
  {
    match p {
      case PixKey(_, key, _) => NumberExact(DigitsOf(key));
      case BankAccount(_, _, _, document) => CheckDigits.DocumentVerdictIff(document);
      case _ =>
    }
    hide CheckDigits.CpfCongruent, CheckDigits.CnpjCongruent, CheckDigits.AllEqual, CheckDigits.CpfVerdict,
      CheckDigits.CnpjVerdict, CheckDigits.DocumentVerdict;
  }

  lemma NumberExact(d: string)
    requires AllDigits(d)
    ensures |d| == 11 ==> (CpfNumber(d) <==> CheckDigits.CpfVerdict(d) == CheckDigits.Accepted)
    ensures |d| == 14 ==> (CnpjNumber(d) <==> CheckDigits.CnpjVerdict(d) == CheckDigits.Accepted)
  {
    if |d| == 11 { CheckDigits.CpfAcceptedIff(d); }
    if |d| == 14 { CheckDigits.CnpjAcceptedIff(d); }
    hide CheckDigits.CpfCongruent, CheckDigits.CnpjCongruent, CheckDigits.AllEqual, CheckDigits.CpfVerdict,
      CheckDigits.CnpjVerdict;
  }

  /** What is wrong with the day a payment is scheduled for, if anything is. */
  function DayTrouble(day: Option<int>, l: Limits, today: int): Option<Outcome> {
    match day
    case None => None
    case Some(d) =>
      if d < today then Some(Validation(InThePast))
      else if 0 < l.minDays && d < today + l.minDays then Some(Policy(TooSoon))
      else if 0 < l.maxDays && today + l.maxDays < d then Some(Policy(TooFar))
      else None
  }

  function LastTedHour(l: Limits): int { if l.tedCutoff != 0 then l.tedCutoff else 17 }

  /** The first thing that is wrong with a payment, in the order of the checks. */
  lemma ValidatePaymentExact(p: Payment, l: Limits, now: Moment)
    ensures ValidatePayment(p, l, now) ==
            if p.amount <= 0 then Validation(NotPositive)
            else if !(p.currency == "" || p.currency == "BRL") then Validation(Currency)
            else if !(p.kind == Pix || p.kind == Ted) then Validation(BadKind)
            else if !GoodPayee(p.payee) then Validation(BadPayee)
            else if DayTrouble(p.scheduledDay, l, now.day) != None then DayTrouble(p.scheduledDay, l, now.day).value
            else if 0 < l.minSingle && p.amount < l.minSingle then Policy(BelowMinimum)
            else if 0 < l.maxSingle < p.amount then Policy(AboveMaximum)
            else if p.kind == Ted && p.scheduledDay == None && LastTedHour(l) <= now.hour then Policy(TedCutoff)
            else if p.kind == Pix && 0 < l.pixNightCap < p.amount && !(6 <= now.hour < 20) then Policy(PixNight)
            else Passed
  {
    PayeeShapeExact(p.payee);
    hide PayeeShape, GoodPayee;
  }

  // ---- a batch ----

  /** A missing item is refused with a message that reads the missing item, which crashes. */
  datatype BatchOutcome =
    | Accepted
    | Empty
    | TooManyItems
    | Item(index: nat, outcome: Outcome)
    | OverDaily(total: int64)
    | OverBatch(total: int64)
    | Crash(index: nat)

  type Batch = seq<Option<Payment>>

  /** What the loop answers from item k on, with the int64 total of the items before it. */
  function From(items: Batch, k: nat, total: int64, l: Limits, now: Moment): BatchOutcome
    requires k <= |items|
    decreases |items| - k
  {
    if k == |items| then Accepted
    else if items[k] == None then Crash(k)
    else
      var p := items[k].value;
      var next := Wrap64(total + p.amount);
      if ValidatePayment(p, l, now) != Passed then Item(k, ValidatePayment(p, l, now))
      else if l.daily > 0 && next > l.daily then OverDaily(next)
      else if l.batch > 0 && next > l.batch then OverBatch(next)
      else From(items, k + 1, next, l, now)
  }

  function BatchVerdict(items: Batch, l: Limits, now: Moment): BatchOutcome {
    if |items| == 0 then Empty
    else if l.maxItems > 0 && |items| > l.maxItems then TooManyItems
    else From(items, 0, 0, l, now)
  }

  method ValidateBatch(items: Batch, l: Limits, now: Moment) returns (v: BatchOutcome)
    ensures v == BatchVerdict(items, l, now)
  {
    if |items| == 0 { return Empty; }
    if l.maxItems > 0 && |items| > l.maxItems { return TooManyItems; }
    var total: int64 := 0;
    for i := 0 to |items|
      invariant BatchVerdict(items, l, now) == From(items, i, total, l, now)
    {
      if items[i] == None { return Crash(i); }
      var p := items[i].value;
      var outcome := ValidatePayment(p, l, now);
      if outcome != Passed { return Item(i, outcome); }
      total := Wrap64(total + p.amount);
      if l.daily > 0 && total > l.daily { return OverDaily(total); }
      if l.batch > 0 && total > l.batch { return OverBatch(total); }
    }
    v := Accepted;
  }

  // ---- the simple form of the rule ----

  function Amount(item: Option<Payment>): int { if item == None then 0 else item.value.amount }

  /** The true total of the first n items. */
  function Total(items: Batch, n: nat): int
    requires n <= |items|
  {
    if n == 0 then 0 else Total(items, n - 1) + Amount(items[n - 1])
  }

  predicate Fine(item: Option<Payment>, l: Limits, now: Moment) {
    item != None && ValidatePayment(item.value, l, now) == Passed
  }

  ghost predicate AllFine(items: Batch, l: Limits, now: Moment) {
    && items != [] && (l.maxItems > 0 ==> |items| <= l.maxItems)
    && forall i :: 0 <= i < |items| ==> Fine(items[i], l, now)
  }

  predicate Capped(l: Limits) { l.daily > 0 || l.batch > 0 }

  function Cap(l: Limits): (c: int64)
    requires Capped(l)
    ensures c > 0
  {
    if l.daily <= 0 then l.batch else if l.batch <= 0 then l.daily else Min64(l.daily, l.batch)
  }

  function Min64(a: int64, b: int64): int64 { if a < b then a else b }

  predicate Within(total: int, l: Limits) { Capped(l) ==> total <= Cap(l) }

  /** The rule as a reader would state it: every item is fine and the final total is within the limits. */
  ghost predicate SimplyAccepted(items: Batch, l: Limits, now: Moment) {
    AllFine(items, l, now) && Within(Total(items, |items|), l)
  }

  ghost predicate PrefixesWithin(items: Batch, l: Limits, k: nat, n: nat)
    requires n <= |items|
  {
    forall i :: k < i <= n ==> Within(Wrap64(Total(items, i)), l)
  }

  lemma {:induction false} FromClosedForm(items: Batch, k: nat, l: Limits, now: Moment)
    requires k <= |items|
    ensures From(items, k, Wrap64(Total(items, k)), l, now) == Accepted <==>
              && (forall i :: k <= i < |items| ==> Fine(items[i], l, now))
              && PrefixesWithin(items, l, k, |items|)
    decreases |items| - k
  {
    hide ValidatePayment, Wrap64;
    if k < |items| && items[k] != None {
      WrapAdd(Total(items, k), items[k].value.amount);
      FromClosedForm(items, k + 1, l, now);
    }
  }

  /** The loop in closed form: it accepts exactly when no wrapped running total is over a limit. */
  lemma BatchClosedForm(items: Batch, l: Limits, now: Moment)
    ensures BatchVerdict(items, l, now) == Accepted <==>
              AllFine(items, l, now) && PrefixesWithin(items, l, 0, |items|)
  {
    FromClosedForm(items, 0, l, now);
  }

  lemma {:induction false} FromCrashes(items: Batch, i: nat, l: Limits, now: Moment, k: nat)
    requires i <= k && i <= |items|
    ensures From(items, i, Wrap64(Total(items, i)), l, now) == Crash(k) <==>
              && k < |items| && items[k] == None
              && (forall j :: i <= j < k ==> Fine(items[j], l, now)) && PrefixesWithin(items, l, i, k)
    decreases |items| - i
  {
    hide ValidatePayment, Wrap64;
    if i < |items| && items[i] != None {
      WrapAdd(Total(items, i), items[i].value.amount);
      if i < k {
        FromCrashes(items, i + 1, l, now, k);
      } else {
        FromCrashesLater(items, i + 1, Wrap64(Total(items, i + 1)), l, now, k);
      }
    }
  }

  lemma {:induction false} FromCrashesLater(items: Batch, i: nat, total: int64, l: Limits, now: Moment, k: nat)
    requires k < i <= |items|
    ensures From(items, i, total, l, now) != Crash(k)
    decreases |items| - i
  {
    hide ValidatePayment, Wrap64;
    if i < |items| && items[i] != None {
      FromCrashesLater(items, i + 1, Wrap64(total + items[i].value.amount), l, now, k);
    }
  }

  lemma {:induction false} FromStops(items: Batch, i: nat, l: Limits, now: Moment, k: nat)
    requires i <= k < |items| && (forall j :: i <= j < k ==> Fine(items[j], l, now)) && PrefixesWithin(items, l, i, k)
    ensures From(items, i, Wrap64(Total(items, i)), l, now) == From(items, k, Wrap64(Total(items, k)), l, now)
    decreases k - i
  {
    hide ValidatePayment, Wrap64;
    if i < k {
      assert Fine(items[i], l, now) && Within(Wrap64(Total(items, i + 1)), l);
      WrapAdd(Total(items, i), items[i].value.amount);
      FromStops(items, i + 1, l, now, k);
    }
  }

  /**
   The first item that is missing, not fine, or brings the running total over a limit decides what
   the batch is refused for: the item's own trouble first, then the daily, then the batch limit.
   */
  lemma BatchStopsAt(items: Batch, l: Limits, now: Moment, k: nat)
    requires k < |items| && (l.maxItems > 0 ==> |items| <= l.maxItems)
    requires (forall j :: 0 <= j < k ==> Fine(items[j], l, now)) && PrefixesWithin(items, l, 0, k)
    requires !(Fine(items[k], l, now) && Within(Wrap64(Total(items, k + 1)), l))
    ensures var total := Wrap64(Total(items, k + 1));
            BatchVerdict(items, l, now) ==
            if items[k] == None then Crash(k)
            else if ValidatePayment(items[k].value, l, now) != Passed
            then Item(k, ValidatePayment(items[k].value, l, now))
            else if 0 < l.daily < total then OverDaily(total) else OverBatch(total)
  {
    hide ValidatePayment, Wrap64, Fine, Within, PrefixesWithin, From;
    FromStops(items, 0, l, now, k);
    StopHere(items, k, l, now);
  }

  lemma OverEither(total: int64, l: Limits)
    ensures !Within(total, l) <==> 0 < l.daily < total || 0 < l.batch < total
  {
  }

  lemma StopHere(items: Batch, k: nat, l: Limits, now: Moment)
    requires k < |items| && !(Fine(items[k], l, now) && Within(Wrap64(Total(items, k + 1)), l))
    ensures var total := Wrap64(Total(items, k + 1));
            From(items, k, Wrap64(Total(items, k)), l, now) ==
            if items[k] == None then Crash(k)
            else if ValidatePayment(items[k].value, l, now) != Passed
            then Item(k, ValidatePayment(items[k].value, l, now))
            else if 0 < l.daily < total then OverDaily(total) else OverBatch(total)
  {
    if items[k] != None { WrapAdd(Total(items, k), items[k].value.amount); }
    OverEither(Wrap64(Total(items, k + 1)), l);
    hide ValidatePayment, Wrap64, Within, Cap;
  }

  /** No item at all, or too many, is refused before any item is looked at. */
  lemma BatchSizeRefused(items: Batch, l: Limits, now: Moment)
    ensures BatchVerdict(items, l, now) == Empty <==> items == []
    ensures BatchVerdict(items, l, now) == TooManyItems <==> 0 < l.maxItems < |items|
  {
    if items != [] { FromNeverSize(items, 0, 0, l, now); }
  }

  lemma {:induction false} FromNeverSize(items: Batch, k: nat, total: int64, l: Limits, now: Moment)
    requires k <= |items|
    ensures From(items, k, total, l, now) != Empty && From(items, k, total, l, now) != TooManyItems
    decreases |items| - k
  {
    hide ValidatePayment, Wrap64;
    if k < |items| && items[k] != None {
      FromNeverSize(items, k + 1, Wrap64(total + items[k].value.amount), l, now);
    }
  }

  /**
   When a missing item brings the validation down: it is the first one, the batch is within the item
   cap, all items before it are fine, and no running total before it is over a limit.
   */
  lemma CrashIff(items: Batch, l: Limits, now: Moment, k: nat)
    ensures BatchVerdict(items, l, now) == Crash(k) <==>
              && (l.maxItems > 0 ==> |items| <= l.maxItems)
              && k < |items| && items[k] == None
              && (forall j :: 0 <= j < k ==> Fine(items[j], l, now))
              && PrefixesWithin(items, l, 0, k)
  {
    FromCrashes(items, 0, l, now, k);
  }

  /** A batch of one missing item crashes whatever the limits. */
  lemma MissingItemCrashes(l: Limits, now: Moment)
    ensures BatchVerdict([None], l, now) == Crash(0)
  {
    CrashIff([None], l, now, 0);
  }

  lemma {:induction false} TotalMonotone(items: Batch, m: nat, n: nat)
    requires m <= n <= |items| && forall i :: 0 <= i < n ==> Amount(items[i]) >= 0
    ensures 0 <= Total(items, m) <= Total(items, n)
  {
    if m < n { TotalMonotone(items, m, n - 1); }
    else if n > 0 { TotalMonotone(items, m - 1, n - 1); }
  }

  /**
   The incremental check is the simple one, except exactly for the batches whose true total is
   beyond int64 while no wrapped running total shows it.
   */
  lemma SimpleIff(items: Batch, l: Limits, now: Moment)
    requires AllFine(items, l, now)
    ensures (BatchVerdict(items, l, now) == Accepted <==> SimplyAccepted(items, l, now)) <==>
              !(Capped(l) && Total(items, |items|) > MAX64 && PrefixesWithin(items, l, 0, |items|))
  {
    BatchClosedForm(items, l, now);
    var n := |items|;
    TotalMonotone(items, 0, n);
    forall i | 0 < i <= n && Total(items, n) <= MAX64
      ensures Wrap64(Total(items, i)) == Total(items, i) <= Total(items, n)
    {
      TotalMonotone(items, i, n);
      TotalMonotone(items, 0, i);
    }
    if Total(items, n) <= MAX64 {
      assert Wrap64(Total(items, n)) == Total(items, n);
    }
  }

  /** What a caller can check to be safe: with limit L, no single amount above MAX64 - L. */
  ghost predicate NoWrap(items: Batch, l: Limits) {
    Capped(l) ==> forall i :: 0 <= i < |items| ==> Amount(items[i]) <= MAX64 - Cap(l)
  }

  lemma {:induction false} TotalsStaySmall(items: Batch, l: Limits, n: nat)
    requires n <= |items| && Capped(l) && NoWrap(items, l) && PrefixesWithin(items, l, 0, n)
    requires forall i :: 0 <= i < n ==> Amount(items[i]) >= 0
    ensures 0 <= Total(items, n) <= Cap(l)
  {
    if n > 0 {
      TotalsStaySmall(items, l, n - 1);
      assert Wrap64(Total(items, n)) == Total(items, n);
      assert Within(Wrap64(Total(items, n)), l);
    }
  }

  /**
   Under that guard a batch is accepted if and only if it is non-empty, within the item cap, every
   item validates, and the final total is within each enabled limit.
   */
  lemma AcceptedIff(items: Batch, l: Limits, now: Moment)
    requires NoWrap(items, l)
    ensures BatchVerdict(items, l, now) == Accepted <==> SimplyAccepted(items, l, now)
  {
    BatchClosedForm(items, l, now);
    if AllFine(items, l, now) {
      SimpleIff(items, l, now);
      if Capped(l) && PrefixesWithin(items, l, 0, |items|) { TotalsStaySmall(items, l, |items|); }
    }
  }

  /** The guard is tight: after a first item at the limit, any amount beyond it is let through. */
  lemma GuardIsTight(p: Payment, q: Payment, l: Limits, now: Moment)
    requires Capped(l) && !(l.maxItems == 1) && p.amount == Cap(l)
    requires Fine(Some(p), l, now) && Fine(Some(q), l, now)
    ensures BatchVerdict([Some(p), Some(q)], l, now) == Accepted <==> q.amount > MAX64 - Cap(l)
    ensures !SimplyAccepted([Some(p), Some(q)], l, now)
  {
    var items := [Some(p), Some(q)];
    assert Total(items, 1) == Total(items, 0) + p.amount == p.amount;
    assert Total(items, 2) == p.amount + q.amount;
    BatchClosedForm(items, l, now);
    forall i | 0 < i <= 2
      ensures Within(Wrap64(Total(items, i)), l) <==> i == 1 || q.amount > MAX64 - Cap(l)
    {
    }
    if q.amount <= MAX64 - Cap(l) { assert !Within(Wrap64(Total(items, 2)), l); }
  }

  ghost predicate UpTo(items: Batch, top: int64) { forall i :: 0 <= i < |items| ==> Amount(items[i]) <= top }

  ghost predicate Agrees(items: Batch, l: Limits, now: Moment) {
    BatchVerdict(items, l, now) == Accepted <==> SimplyAccepted(items, l, now)
  }

  /** A cap of one item leaves no room for a wrap. */
  lemma SingleAgrees(items: Batch, l: Limits, now: Moment)
    requires l.maxItems == 1
    ensures Agrees(items, l, now)
  {
    BatchClosedForm(items, l, now);
    if AllFine(items, l, now) {
      assert Total(items, 1) == Total(items, 0) + Amount(items[0]);
      SimpleIff(items, l, now);
    }
  }

  /**
   The guard in terms of the largest amount: for payments that attain the limit and the amount
   `top`, all batches with amounts up to `top` are decided as by the simple rule if and only if
   `top` is at most MAX64 less the limit, or a batch has one item only.
   */
  lemma AgreementIff(p: Payment, q: Payment, top: int64, l: Limits, now: Moment)
    requires Capped(l) && Cap(l) <= top
    requires Fine(Some(p), l, now) && p.amount == Cap(l) && Fine(Some(q), l, now) && q.amount == top
    ensures (forall items: Batch :: UpTo(items, top) ==> Agrees(items, l, now)) <==>
              top <= MAX64 - Cap(l) || l.maxItems == 1
  {
    if top <= MAX64 - Cap(l) {
      forall items: Batch | UpTo(items, top) ensures Agrees(items, l, now) { AcceptedIff(items, l, now); }
    } else if l.maxItems == 1 {
      forall items: Batch ensures Agrees(items, l, now) { SingleAgrees(items, l, now); }
    } else {
      var items := [Some(p), Some(q)];
      GuardIsTight(p, q, l, now);
      assert UpTo(items, top) && !Agrees(items, l, now);
    }
  }

  // ---- what a refusal reports ----

  /** A reported total is the true total of some prefix. */
  ghost predicate TrueTotal(items: Batch, t: int64, limit: int64) {
    limit > 0 && t > limit && exists j :: 0 < j <= |items| && t == Total(items, j)
  }

  lemma {:induction false} FromRefusal(items: Batch, k: nat, l: Limits, now: Moment)
    requires k <= |items| && NoWrap(items, l) && Capped(l) && 0 <= Total(items, k) <= Cap(l)
    ensures match From(items, k, Total(items, k), l, now)
            case OverDaily(t) => TrueTotal(items, t, l.daily)
            case OverBatch(t) => TrueTotal(items, t, l.batch)
            case _ => true
    decreases |items| - k
  {
    hide NoWrap;
    if k < |items| && items[k] != None {
      var a := items[k].value.amount;
      AmountSmall(items, k, l);
      assert Total(items, k + 1) == Total(items, k) + a;
      if ValidatePayment(items[k].value, l, now) == Passed {
        assert a > 0;
        assert Wrap64(Total(items, k) + a) == Total(items, k + 1);
        hide ValidatePayment, Wrap64, Total;
        if Total(items, k + 1) <= Cap(l) { FromRefusal(items, k + 1, l, now); }
      }
    }
  }

  lemma AmountSmall(items: Batch, k: nat, l: Limits)
    requires k < |items| && NoWrap(items, l) && Capped(l)
    ensures Amount(items[k]) <= MAX64 - Cap(l)
  {
  }

  /** Under the guard the running total never wraps, also in the step that refuses: the total it reports is true. */
  lemma RefusalReportsTrueTotal(items: Batch, l: Limits, now: Moment)
    requires NoWrap(items, l)
    ensures match BatchVerdict(items, l, now)
            case OverDaily(t) => TrueTotal(items, t, l.daily)
            case OverBatch(t) => TrueTotal(items, t, l.batch)
            case _ => true
  {
    if Capped(l) {
      FromRefusal(items, 0, l, now);
    } else {
      UncappedNeverOver(items, 0, 0, l, now);
    }
  }

  lemma {:induction false} UncappedNeverOver(items: Batch, k: nat, total: int64, l: Limits, now: Moment)
    requires k <= |items| && !Capped(l)
    ensures !From(items, k, total, l, now).OverDaily? && !From(items, k, total, l, now).OverBatch?
    decreases |items| - k
  {
    hide ValidatePayment, Wrap64;
    if k < |items| && items[k] != None {
      UncappedNeverOver(items, k + 1, Wrap64(total + items[k].value.amount), l, now);
    }
  }

  // ---- order and sub-batches ----

  lemma {:induction false} TotalDrop(items: Batch, k: nat, n: nat)
    requires k < n <= |items|
    ensures Total(items, n) == Total(items[..k] + items[k + 1..], n - 1) + Amount(items[k])
  {
    var rest := items[..k] + items[k + 1..];
    if n - 1 == k {
      TotalSame(items, rest, k);
    } else {
      TotalDrop(items, k, n - 1);
      assert rest[n - 2] == items[n - 1];
    }
  }

  lemma {:induction false} TotalSame(a: Batch, b: Batch, n: nat)
    requires n <= |a| && n <= |b| && a[..n] == b[..n]
    ensures Total(a, n) == Total(b, n)
  {
    if n > 0 {
      assert a[n - 1] == a[..n][n - 1] == b[..n][n - 1] == b[n - 1];
      assert a[..n - 1] == a[..n][..n - 1] == b[..n][..n - 1] == b[..n - 1];
      TotalSame(a, b, n - 1);
    }
  }

  lemma MultisetDrop(items: Batch, k: nat)
    requires k < |items|
    ensures multiset(items[..k] + items[k + 1..]) == multiset(items) - multiset{items[k]}
  {
    assert items == items[..k] + [items[k]] + items[k + 1..];
  }

  lemma DropOne(items: Batch, k: nat, x: Option<Payment>)
    requires k < |items| && items[k] == x
    ensures var rest := items[..k] + items[k + 1..];
            && |rest| == |items| - 1 && multiset(rest) == multiset(items) - multiset{x}
            && Total(items, |items|) == Total(rest, |rest|) + Amount(x)
            && forall y :: y in rest ==> y in items
  {
    MultisetDrop(items, k);
    TotalDrop(items, k, |items|);
  }

  lemma IndexOf(items: Batch, x: Option<Payment>) returns (k: nat)
    requires x in multiset(items)
    ensures k < |items| && items[k] == x
  {
    k :| 0 <= k < |items| && items[k] == x;
  }

  ghost predicate NoneNegative(items: Batch) { forall x :: x in items ==> Amount(x) >= 0 }

  lemma {:induction false} SubTotal(sub: Batch, items: Batch)
    requires multiset(sub) <= multiset(items) && NoneNegative(items)
    ensures |sub| <= |items| && Total(sub, |sub|) <= Total(items, |items|)
    decreases |sub|
  {
    if sub == [] {
      forall i | 0 <= i < |items| ensures Amount(items[i]) >= 0 { assert items[i] in items; }
      TotalMonotone(items, 0, |items|);
    } else {
      hide Total, Amount, NoneNegative;
      var x := sub[0];
      assert x in multiset(sub);
      var k := IndexOf(items, x);
      var rest := items[..k] + items[k + 1..];
      DropOne(items, k, x);
      DropFirst(sub);
      assert NoneNegative(rest) by { StillNoneNegative(items, rest); }
      SubTotal(sub[1..], rest);
    }
  }

  lemma DropFirst(sub: Batch)
    requires sub != []
    ensures multiset(sub[1..]) == multiset(sub) - multiset{sub[0]}
    ensures Total(sub, |sub|) == Total(sub[1..], |sub| - 1) + Amount(sub[0])
  {
    FirstTotal(sub);
    hide Total, Amount;
    assert sub == [sub[0]] + sub[1..];
  }

  lemma FirstTotal(sub: Batch)
    requires sub != []
    ensures Total(sub, |sub|) == Total(sub[1..], |sub| - 1) + Amount(sub[0])
  {
    TotalDrop(sub, 0, |sub|);
    hide Total, Amount;
    assert sub[..0] + sub[1..] == sub[1..];
  }

  lemma StillNoneNegative(items: Batch, rest: Batch)
    requires NoneNegative(items) && forall y :: y in rest ==> y in items
    ensures NoneNegative(rest)
  {
  }

  /**
   Acceptance does not depend on the order of the items and is closed under taking non-empty
   sub-batches.
   */
  lemma SubBatchAccepted(sub: Batch, items: Batch, l: Limits, now: Moment)
    requires sub != [] && multiset(sub) <= multiset(items) && NoWrap(items, l)
    requires BatchVerdict(items, l, now) == Accepted
    ensures BatchVerdict(sub, l, now) == Accepted
  {
    AcceptedIff(items, l, now);
    forall x | x in items ensures Fine(x, l, now) && Amount(x) >= 0 { }
    forall i | 0 <= i < |sub| ensures sub[i] in items { assert sub[i] in multiset(sub); }
    SubTotal(sub, items);
    AcceptedIff(sub, l, now);
  }
}
