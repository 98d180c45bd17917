/**
 The tables of the payment hub and one function per step of the system. A step takes the tables
 as they are and says what they become; a step that is refused says why and what it has already
 written. The services in Services.dfy are proved against these functions.
 */
module Hub {
  import opened MachineInts
  import opened Collections
  import opened PaymentStatus
  import R = RunStatus

  type Id = nat

  datatype Kind = Pix | Ted | OtherKind(name: string)

  datatype Method = PixKey | BankAccount | OtherMethod(name: string)

  /** Who an event is attributed to: "user:" plus a name, "SYSTEM", "BANK", or the caller of the intake. */
  datatype Actor = User(name: string) | System | Bank | Caller(name: string)

  datatype Payment = Payment(
    kind: Kind, status: Status, amount: int64, payeeMethod: Method, key: string, bankRef: string)

  datatype Run = Run(
    status: R.Status, approvedBy: string, totalItems: int, totalAmount: int64, pixCount: int, tedCount: int)

  datatype Item = Item(run: Id, channel: R.Channel)

  datatype Event = Event(payment: Id, from: Option<Status>, to: Status, actor: Actor)

  /**
   The database. `items` is keyed by payment because a payment is attached to at most one run;
   `newestFirst` is the order of created_at, descending.
   */
  datatype Tables = Tables(
    payments: map<Id, Payment>, newestFirst: seq<Id>, runs: map<Id, Run>, items: map<Id, Item>,
    events: seq<Event>, requests: map<string, string>, payers: set<Id>)

  datatype Outcome =
    | Done
    | NotFound
    | Conflict
    | IllegalTransition
    | InvalidInput
    | HashMismatch
    | DuplicateRow
    | Retry

  // ---- single writes ----

  /** Stores a payment's new status; without a new bank reference the old one stays. */
  function WriteStatus(t: Tables, id: Id, to: Status, ref: string): Tables
    requires id in t.payments
  {
    var p := t.payments[id];
    t.(payments := t.payments[id := p.(status := to, bankRef := if ref == "" then p.bankRef else ref)])
  }

  function LogEvent(t: Tables, e: Event): Tables { t.(events := t.events + [e]) }

  /** A status write and its audit event. */
  function Move(t: Tables, id: Id, from: Status, to: Status, ref: string, actor: Actor): Tables
    requires id in t.payments
  {
    LogEvent(WriteStatus(t, id, to, ref), Event(id, Some(from), to, actor))
  }

  function Selected(payments: map<Id, Payment>, ids: seq<Id>, status: Status): seq<Id> {
    if ids == [] then []
    else if ids[0] in payments && payments[ids[0]].status == status
    then [ids[0]] + Selected(payments, ids[1..], status)
    else Selected(payments, ids[1..], status)
  }

  /** The newest payments with a status, newest first, at most `limit` of them. */
  function ListByStatus(t: Tables, status: Status, limit: nat): seq<Id> {
    Take(Selected(t.payments, t.newestFirst, status), limit)
  }

  /** The payments attached to a run, in the order of their ids. */
  function ItemIds(items: map<Id, Item>, run: Id): seq<Id> {
    Sorted(set id | id in items && items[id].run == run)
  }

  // ---- intake ----

  datatype Input = Input(
    key: string, kind: Kind, amount: int64, payer: Id, payeeMethod: Method, payeeFields: nat,
    caller: string, hash: string)

  const NIL_ID: Id := 0

  predicate ValidInput(x: Input) {
    x.key != "" && (x.kind == Pix || x.kind == Ted) && x.amount > 0 && x.payer != NIL_ID
    && (x.payeeMethod == PixKey || x.payeeMethod == BankAccount) && x.payeeFields > 0
  }

  function FindKey(payments: map<Id, Payment>, ids: seq<Id>, key: string): Option<Id> {
    if ids == [] then None
    else if ids[0] in payments && payments[ids[0]].key == key then Some(ids[0])
    else FindKey(payments, ids[1..], key)
  }

  function NewPayment(x: Input): Payment {
    Payment(x.kind, Received, x.amount, x.payeeMethod, x.key, "")
  }

  function InsertPayment(t: Tables, id: Id, p: Payment): Tables {
    t.(payments := t.payments[id := p], newestFirst := [id] + t.newestFirst)
  }

  predicate CanInsert(t: Tables, id: Id, key: string) {
    id !in t.payments && forall q :: q in t.payments ==> t.payments[q].key != key
  }

  /** One intake call with a fresh id; on success the payment it answers with. */
  function Receive(t: Tables, x: Input, id: Id): (Tables, Outcome, Option<Id>) {
    if !ValidInput(x) then (t, InvalidInput, None)
    else if x.payer !in t.payers then (t, InvalidInput, None)
    else if x.key in t.requests then
      if t.requests[x.key] != x.hash then (t, HashMismatch, None)
      else
        match FindKey(t.payments, t.newestFirst, x.key)
        case Some(original) => (t, Done, Some(original))
        case None => (t, NotFound, None)
    else if !CanInsert(t, id, x.key) then (t, DuplicateRow, None)
    else
      var t1 := LogEvent(InsertPayment(t, id, NewPayment(x)), Event(id, None, Received, Caller(x.caller)));
      (t1.(requests := t1.requests[x.key := x.hash]), Done, Some(id))
  }

  /** The cleanup job deletes expired idempotency records. */
  function Expire(t: Tables, key: string): Tables { t.(requests := t.requests - {key}) }

  // ---- prevalidation worker ----

  datatype DictReply = DictError | DictReject | DictPass

  datatype RulesReply = RulesError | RulesAllow | RulesReview | RulesReject

  function Prevalidate(t: Tables, id: Id, dict: DictReply, rules: RulesReply): (Tables, Outcome) {
    if id !in t.payments then (t, NotFound)
    else
      var p := t.payments[id];
      var t1 := if p.status == Received then Move(t, id, Received, ValidatedLocal, "", System) else t;
      var asksBank := p.kind == Pix && p.payeeMethod == PixKey;
      if asksBank && dict == DictError then (t1, Retry)
      else if asksBank && dict == DictReject then (Move(t1, id, ValidatedLocal, Rejected, "", System), Done)
      else
        match rules
        case RulesError => (t1, Retry)
        case RulesReject => (Move(t1, id, ValidatedLocal, Rejected, "", System), Done)
        case RulesReview => (Move(t1, id, ValidatedLocal, UnderReview, "", System), Done)
        case RulesAllow => (Move(t1, id, ValidatedLocal, Prevalidated, "", System), Done)
  }

  // ---- runs ----

  function NewRun(): Run { Run(R.Open, "", 0, 0, 0, 0) }

  function CreateRun(t: Tables, run: Id): (Tables, Outcome) {
    if run in t.runs then (t, DuplicateRow) else (t.(runs := t.runs[run := NewRun()]), Done)
  }

  function ChannelFor(kind: Kind): R.Channel { if kind == Ted then R.CnabTed else R.PixRest }

  /** Attaches a payment to a run; refused when it is attached to any run already. */
  function InsertItem(t: Tables, run: Id, id: Id, channel: R.Channel): (Tables, Outcome) {
    if id in t.items then (t, DuplicateRow) else (t.(items := t.items[id := Item(run, channel)]), Done)
  }

  function Attach(t: Tables, run: Id, id: Id): (Tables, Outcome) {
    if run !in t.runs then (t, NotFound)
    else if t.runs[run].status != R.Open then (t, Conflict)
    else if id !in t.payments then (t, NotFound)
    else if t.payments[id].status != Prevalidated then (t, Conflict)
    else InsertItem(t, run, id, ChannelFor(t.payments[id].kind))
  }

  /** Detaches a payment from this run; one that is attached elsewhere or nowhere is left alone. */
  function DeleteItem(t: Tables, run: Id, id: Id): Tables {
    if id in t.items && t.items[id].run == run then t.(items := t.items - {id}) else t
  }

  function Detach(t: Tables, run: Id, id: Id): (Tables, Outcome) {
    if run !in t.runs then (t, NotFound)
    else if t.runs[run].status != R.Open then (t, Conflict)
    else (DeleteItem(t, run, id), Done)
  }

  function AttachAll(t: Tables, run: Id, ids: seq<Id>): Tables
    decreases ids
  {
    if ids == [] then t
    else if ids[0] in t.payments
    then AttachAll(InsertItem(t, run, ids[0], ChannelFor(t.payments[ids[0]].kind)).0, run, ids[1..])
    else AttachAll(t, run, ids[1..])
  }

  const GROUP_LIMIT := 1000

  /** The periodic job that gathers prevalidated payments into a new run. */
  function AutoGroup(t: Tables, run: Id): (Tables, Outcome) {
    var ids := ListByStatus(t, Prevalidated, GROUP_LIMIT);
    if ids == [] then (t, Done)
    else if run in t.runs then (t, DuplicateRow)
    else (AttachAll(t.(runs := t.runs[run := NewRun()]), run, ids), Done)
  }

  // ---- approval ----

  function ApproveItems(t: Tables, ids: seq<Id>, user: string): (Tables, Outcome)
    decreases ids
  {
    if ids == [] then (t, Done)
    else if ids[0] !in t.payments then (t, NotFound)
    else if t.payments[ids[0]].status != Prevalidated then (t, Conflict)
    else ApproveItems(Move(t, ids[0], Prevalidated, Approved, "", User(user)), ids[1..], user)
  }

  /** The true sum of the amounts, before any int64 wrap-around. */
  function AmountSum(payments: map<Id, Payment>, ids: seq<Id>): int {
    if ids == [] then 0
    else
      var id := ids[|ids| - 1];
      AmountSum(payments, ids[..|ids| - 1]) + if id in payments then payments[id].amount else 0
  }

  function CountPix(payments: map<Id, Payment>, ids: seq<Id>): nat {
    if ids == [] then 0
    else
      var id := ids[|ids| - 1];
      CountPix(payments, ids[..|ids| - 1]) + if id in payments && payments[id].kind == Pix then 1 else 0
  }

  /** The counters of a run, computed from the payments attached to it. */
  function WithTotals(r: Run, payments: map<Id, Payment>, ids: seq<Id>): Run {
    r.(totalItems := Wrap32(|ids|), totalAmount := Wrap64(AmountSum(payments, ids)),
       pixCount := Wrap32(CountPix(payments, ids)), tedCount := Wrap32(|ids| - CountPix(payments, ids)))
  }

  function Approve(t: Tables, run: Id, user: string): (Tables, Outcome) {
    if run !in t.runs then (t, NotFound)
    else if !R.CanTransition(t.runs[run].status, R.Approved) then (t, IllegalTransition)
    else
      var (t1, o) := ApproveItems(t, ItemIds(t.items, run), user);
      if o != Done then (t1, o)
      else
        var r := WithTotals(t.runs[run], t.payments, ItemIds(t.items, run)).(status := R.Approved, approvedBy := user);
        (t1.(runs := t1.runs[run := r]), Done)
  }

  /** A later change of an approved run's status along the run table (settlement bookkeeping). */
  function AdvanceRun(t: Tables, run: Id, to: R.Status): (Tables, Outcome) {
    if run !in t.runs then (t, NotFound)
    else if t.runs[run].status == R.Open || !R.CanTransition(t.runs[run].status, to) then (t, IllegalTransition)
    else (t.(runs := t.runs[run := t.runs[run].(status := to)]), Done)
  }

  // ---- operator actions on one payment ----

  /** A move over a table edge; a non-empty list of origins is an extra demand. */
  function TransitionFrom(t: Tables, id: Id, required: seq<Status>, to: Status, user: string): (Tables, Outcome) {
    if id !in t.payments then (t, NotFound)
    else if required != [] && t.payments[id].status !in required then (t, Conflict)
    else if !CanTransition(t.payments[id].status, to) then (t, IllegalTransition)
    else (Move(t, id, t.payments[id].status, to, "", User(user)), Done)
  }

  function Hold(t: Tables, id: Id, user: string): (Tables, Outcome) {
    TransitionFrom(t, id, [Approved], OnHold, user)
  }

  function Unhold(t: Tables, id: Id, user: string): (Tables, Outcome) {
    TransitionFrom(t, id, [OnHold], Approved, user)
  }

  function TransitionAny(t: Tables, id: Id, to: Status, user: string): (Tables, Outcome) {
    if id !in t.payments then (t, NotFound)
    else if !CanTransition(t.payments[id].status, to) then (t, IllegalTransition)
    else (Move(t, id, t.payments[id].status, to, "", User(user)), Done)
  }

  function Cancel(t: Tables, id: Id, user: string): (Tables, Outcome) { TransitionAny(t, id, Canceled, user) }

  function Reject(t: Tables, id: Id, user: string): (Tables, Outcome) { TransitionAny(t, id, Rejected, user) }

  predicate Reschedulable(s: Status) {
    s == Received || s == ValidatedLocal || s == Prevalidated || s == OnHold || s == UnderReview
  }

  function Reschedule(t: Tables, id: Id, user: string): (Tables, Outcome) {
    if id !in t.payments then (t, NotFound)
    else if !Reschedulable(t.payments[id].status) then (t, Conflict)
    else if id in t.items && t.items[id].run in t.runs && R.Locked(t.runs[t.items[id].run].status) then (t, Conflict)
    else (Move(t.(items := t.items - {id}), id, t.payments[id].status, Prevalidated, "", User(user)), Done)
  }

  // ---- submission ----

  /** The audit rows of a submission: every payment of the run, from its status to its status. */
  function SelfLinks(payments: map<Id, Payment>, ids: seq<Id>, user: string): seq<Event> {
    if ids == [] then []
    else if ids[0] in payments
    then [Event(ids[0], Some(payments[ids[0]].status), payments[ids[0]].status, User(user))]
         + SelfLinks(payments, ids[1..], user)
    else SelfLinks(payments, ids[1..], user)
  }

  /** Moves an approved run to EXECUTING, any other not at all, and logs a row for each of its payments. */
  function SubmitToBank(t: Tables, run: Id, user: string): (Tables, Outcome) {
    if run !in t.runs || t.runs[run].status != R.Approved then (t, Conflict)
    else
      (t.(runs := t.runs[run := t.runs[run].(status := R.Executing)],
          events := t.events + SelfLinks(t.payments, ItemIds(t.items, run), user)), Done)
  }

  datatype Debit = Debit(key: string, amount: int64, ref: string)

  /**
   What becomes of one request to the bank: it never arrives; it arrives but the answer is lost,
   unusable, or the worker stops before acting on it; or it is answered.
   */
  datatype BankCall = Unreached | LostReply(ref: string) | Answered(ref: string, settled: bool)

  datatype BankReply = BankError | BankOk(ref: string, settled: bool)

  function FindDebit(ledger: seq<Debit>, key: string): Option<Debit> {
    if ledger == [] then None
    else if ledger[0].key == key then Some(ledger[0])
    else FindDebit(ledger[1..], key)
  }

  /** The bank's side: a key it has seen debits nothing again. */
  function BankSend(ledger: seq<Debit>, key: string, amount: int64, call: BankCall): (seq<Debit>, BankReply) {
    if key == "" || call == Unreached then (ledger, BankError)
    else
      var booked :=
        match FindDebit(ledger, key)
        case Some(_) => ledger
        case None => ledger + [Debit(key, amount, call.ref)];
      match call
      case Answered(ref, settled) => (booked, if ref == "" then BankError else BankOk(ref, settled))
      case _ => (booked, BankError)
  }

  datatype World = World(db: Tables, ledger: seq<Debit>)

  /** One attempt of the PIX submission job. */
  function SubmitPix(w: World, id: Id, call: BankCall): (World, Outcome) {
    if id !in w.db.payments then (w, NotFound)
    else
      var p := w.db.payments[id];
      var t1 := if p.status == Approved then Move(w.db, id, Approved, Submitting, "", System) else w.db;
      var (ledger, reply) := BankSend(w.ledger, p.key, p.amount, call);
      match reply
      case BankError => (World(t1, ledger), Retry)
      case BankOk(ref, settled) =>
        (World(Move(t1, id, Submitting, if settled then Settled else Sent, ref, System), ledger), Done)
  }

  // ---- bank notifications ----

  function Classified(text: string): Option<Status> {
    if text == "FINALIZADO" || text == "APROVADO" || text == "SETTLED" || text == "LIQUIDADO" then Some(Settled)
    else if text == "REJEITADO" || text == "FALHOU" || text == "FAILED" then Some(Failed)
    else None
  }

  function FindRef(payments: map<Id, Payment>, ids: seq<Id>, ref: string): Option<Id> {
    if ids == [] then None
    else if ids[0] in payments && payments[ids[0]].bankRef == ref then Some(ids[0])
    else FindRef(payments, ids[1..], ref)
  }

  const WEBHOOK_LIMIT := 1000

  function Webhook(t: Tables, ref: string, text: string, endToEnd: string): (Tables, Outcome) {
    if ref == "" then (t, InvalidInput)
    else
      match FindRef(t.payments, ListByStatus(t, Sent, WEBHOOK_LIMIT), ref)
      case None => (t, Done)
      case Some(id) =>
        match Classified(text)
        case None => (t, Done)
        case Some(to) =>
          if !CanTransition(Sent, to) || id !in t.payments then (t, Done)
          else (Move(t, id, Sent, to, endToEnd, Bank), Done)
  }

  datatype Poll = Polled(status: Status, ref: string)

  /**
   One payment of the reconciliation sweep, `p` being the row as it was listed; a reference
   without an answer is a failed poll.
   */
  function Reconcile(t: Tables, id: Id, p: Payment, answers: map<string, Poll>): Tables {
    if p.kind != Pix || p.bankRef == "" || p.bankRef !in answers then t
    else
      var a := answers[p.bankRef];
      if a.status == p.status || !CanTransition(p.status, a.status) || id !in t.payments then t
      else Move(t, id, p.status, a.status, a.ref, System)
  }

  function ReconcileAll(t: Tables, listed: map<Id, Payment>, ids: seq<Id>, answers: map<string, Poll>): Tables
    decreases ids
  {
    if ids == [] then t
    else if ids[0] !in listed then ReconcileAll(t, listed, ids[1..], answers)
    else ReconcileAll(Reconcile(t, ids[0], listed[ids[0]], answers), listed, ids[1..], answers)
  }

  const SWEEP_LIMIT := 500

  function Sweep(t: Tables, answers: map<string, Poll>): Tables {
    ReconcileAll(t, t.payments, ListByStatus(t, Sent, SWEEP_LIMIT), answers)
  }

  // ---- all steps ----

  datatype Action =
    | DoReceive(x: Input, id: Id)
    | DoExpire(key: string)
    | DoPrevalidate(id: Id, dict: DictReply, rules: RulesReply)
    | DoCreateRun(run: Id)
    | DoAttach(run: Id, id: Id)
    | DoDetach(run: Id, id: Id)
    | DoAutoGroup(run: Id)
    | DoApprove(run: Id, user: string)
    | DoAdvanceRun(run: Id, status: R.Status)
    | DoHold(id: Id, user: string)
    | DoUnhold(id: Id, user: string)
    | DoCancel(id: Id, user: string)
    | DoReject(id: Id, user: string)
    | DoReschedule(id: Id, user: string)
    | DoSubmitToBank(run: Id, user: string)
    | DoSubmitPix(id: Id, call: BankCall)
    | DoWebhook(ref: string, text: string, endToEnd: string)
    | DoSweep(answers: map<string, Poll>)

  function Apply(w: World, a: Action): World {
    var t := w.db;
    match a
    case DoReceive(x, id) => w.(db := Receive(t, x, id).0)
    case DoExpire(key) => w.(db := Expire(t, key))
    case DoPrevalidate(id, dict, rules) => w.(db := Prevalidate(t, id, dict, rules).0)
    case DoCreateRun(run) => w.(db := CreateRun(t, run).0)
    case DoAttach(run, id) => w.(db := Attach(t, run, id).0)
    case DoDetach(run, id) => w.(db := Detach(t, run, id).0)
    case DoAutoGroup(run) => w.(db := AutoGroup(t, run).0)
    case DoApprove(run, user) => w.(db := Approve(t, run, user).0)
    case DoAdvanceRun(run, to) => w.(db := AdvanceRun(t, run, to).0)
    case DoHold(id, user) => w.(db := Hold(t, id, user).0)
    case DoUnhold(id, user) => w.(db := Unhold(t, id, user).0)
    case DoCancel(id, user) => w.(db := Cancel(t, id, user).0)
    case DoReject(id, user) => w.(db := Reject(t, id, user).0)
    case DoReschedule(id, user) => w.(db := Reschedule(t, id, user).0)
    case DoSubmitToBank(run, user) => w.(db := SubmitToBank(t, run, user).0)
    case DoSubmitPix(id, call) => SubmitPix(w, id, call).0
    case DoWebhook(ref, text, endToEnd) => w.(db := Webhook(t, ref, text, endToEnd).0)
    case DoSweep(answers) => w.(db := Sweep(t, answers))
  }

  /** An empty database with the given payer accounts, and a bank that has booked nothing. */
  function Fresh(payers: set<Id>): World {
    World(Tables(map[], [], map[], map[], [], map[], payers), [])
  }

  function Play(w: World, actions: seq<Action>): World
    decreases actions
  {
    if actions == [] then w else Play(Apply(w, actions[0]), actions[1..])
  }
}
