/**
 The services that update the tables step by step, each proved to do what its step function in
 Hub.dfy says. Replies of the bank and of the rules engine, and fresh ids, arrive as parameters.
 */
module Services {
  import opened MachineInts
  import opened Collections
  import opened PaymentStatus
  import opened Hub
  import opened HubWrites
  import R = RunStatus

  /** The repositories: one field per table. */
  class Database {
    var payments: map<Id, Payment>
    var newestFirst: seq<Id>
    var runs: map<Id, Run>
    var items: map<Id, Item>
    var events: seq<Event>
    var requests: map<string, string>
    var payers: set<Id>

    constructor (payers: set<Id>)
      ensures View() == Fresh(payers).db
    {
      payments, newestFirst, runs, items, events, requests := map[], [], map[], map[], [], map[];
      this.payers := payers;
    }

    function View(): Tables
      reads this
    {
      Tables(payments, newestFirst, runs, items, events, requests, payers)
    }

    method GetPayment(id: Id) returns (p: Option<Payment>)
      ensures p == if id in payments then Some(payments[id]) else None
    {
      p := if id in payments then Some(payments[id]) else None;
    }

    method GetByKey(key: string) returns (found: Option<Id>)
      ensures found == FindKey(payments, newestFirst, key)
    {
      found := None;
      for i := 0 to |newestFirst|
        invariant found == None
        invariant FindKey(payments, newestFirst[i..], key) == FindKey(payments, newestFirst, key)
      {
        var id := newestFirst[i];
        if id in payments && payments[id].key == key { return Some(id); }
      }
    }

    method AddPayment(id: Id, p: Payment) returns (ok: bool)
      modifies this
      ensures ok <==> CanInsert(old(View()), id, p.key)
      ensures View() == if ok then InsertPayment(old(View()), id, p) else old(View())
    {
      ok := id !in payments && forall q :: q in payments ==> payments[q].key != p.key;
      if ok {
        payments := payments[id := p];
        newestFirst := [id] + newestFirst;
      }
    }

    method UpdateStatus(id: Id, to: Status, ref: string)
      requires id in payments
      modifies this
      ensures View() == WriteStatus(old(View()), id, to, ref)
    {
      var p := payments[id];
      payments := payments[id := p.(status := to, bankRef := if ref == "" then p.bankRef else ref)];
    }

    method AddEvent(e: Event)
      modifies this
      ensures View() == LogEvent(old(View()), e)
    {
      events := events + [e];
    }

    method GetRun(run: Id) returns (r: Option<Run>)
      ensures r == if run in runs then Some(runs[run]) else None
    {
      r := if run in runs then Some(runs[run]) else None;
    }

    method AddRun(run: Id, r: Run) returns (ok: bool)
      modifies this
      ensures ok <==> run !in old(runs)
      ensures View() == if ok then old(View()).(runs := old(runs)[run := r]) else old(View())
    {
      ok := run !in runs;
      if ok { runs := runs[run := r]; }
    }

    method AddItem(run: Id, id: Id, channel: R.Channel) returns (o: Outcome)
      modifies this
      ensures (View(), o) == InsertItem(old(View()), run, id, channel)
    {
      if id in items { return DuplicateRow; }
      items := items[id := Item(run, channel)];
      o := Done;
    }

    method RemoveItem(run: Id, id: Id)
      modifies this
      ensures View() == DeleteItem(old(View()), run, id)
    {
      if id in items && items[id].run == run { items := items - {id}; }
    }

    method ListItems(run: Id) returns (ids: seq<Id>)
      ensures ids == ItemIds(items, run)
    {
      ids := ItemIds(items, run);
    }

    /** The rows with a status, newest first, as they are at the time of the query. */
    method List(status: Status, limit: nat) returns (ids: seq<Id>, rows: map<Id, Payment>)
      ensures ids == ListByStatus(View(), status, limit) && rows == payments
    {
      ids, rows := ListByStatus(View(), status, limit), payments;
    }
  }

  lemma ZeroFits()
    ensures Wrap64(0) == 0
  {
  }

  /** A status write followed by its audit event. */
  method MovePayment(db: Database, id: Id, from: Status, to: Status, ref: string, actor: Actor)
    requires id in db.payments
    modifies db
    ensures db.View() == Move(old(db.View()), id, from, to, ref, actor)
  {
    db.UpdateStatus(id, to, ref);
    db.AddEvent(Event(id, Some(from), to, actor));
  }

  // ---- intake ----

  class ReceivePayment {
    const db: Database

    constructor (db: Database)
      ensures this.db == db
    {
      this.db := db;
    }

    method Execute(x: Input, id: Id) returns (o: Outcome, answer: Option<Id>)
      modifies db
      ensures (db.View(), o, answer) == Receive(old(db.View()), x, id)
    {
      if !ValidInput(x) { return InvalidInput, None; }
      if x.payer !in db.payers { return InvalidInput, None; }
      if x.key in db.requests {
        if db.requests[x.key] != x.hash { return HashMismatch, None; }
        var original := db.GetByKey(x.key);
        if original == None { return NotFound, None; }
        return Done, original;
      }
      var ok := db.AddPayment(id, NewPayment(x));
      if !ok { return DuplicateRow, None; }
      db.AddEvent(Event(id, None, Received, Caller(x.caller)));
      db.requests := db.requests[x.key := x.hash];
      return Done, Some(id);
    }
  }

  // ---- workers ----

  class PrevalidatePaymentWorker {
    const db: Database

    constructor (db: Database)
      ensures this.db == db
    {
      this.db := db;
    }

    method Work(id: Id, dict: DictReply, rules: RulesReply) returns (o: Outcome)
      modifies db
      ensures (db.View(), o) == Prevalidate(old(db.View()), id, dict, rules)
    {
      var found := db.GetPayment(id);
      if found == None { return NotFound; }
      var p := found.value;
      if p.status == Received {
        MovePayment(db, id, Received, ValidatedLocal, "", System);
      }
      if p.kind == Pix && p.payeeMethod == PixKey {
        if dict == DictError { return Retry; }
        if dict == DictReject {
          MovePayment(db, id, ValidatedLocal, Rejected, "", System);
          return Done;
        }
      }
      if rules == RulesError { return Retry; }
      if rules == RulesReject {
        MovePayment(db, id, ValidatedLocal, Rejected, "", System);
        return Done;
      }
      if rules == RulesReview {
        MovePayment(db, id, ValidatedLocal, UnderReview, "", System);
        return Done;
      }
      MovePayment(db, id, ValidatedLocal, Prevalidated, "", System);
      return Done;
    }
  }

  /** The bank's own book of debits, deduplicated on the idempotency key. */
  class BankGateway {
    var ledger: seq<Debit>

    constructor ()
      ensures ledger == []
    {
      ledger := [];
    }

    method SendPix(key: string, amount: int64, call: BankCall) returns (reply: BankReply)
      modifies this
      ensures (ledger, reply) == BankSend(old(ledger), key, amount, call)
    {
      if key == "" || call == Unreached { return BankError; }
      var known := false;
      for i := 0 to |ledger|
        invariant !known && FindDebit(ledger, key) == FindDebit(ledger[i..], key)
      {
        assert ledger[i..][0] == ledger[i] && ledger[i..][1..] == ledger[i + 1..];
        if ledger[i].key == key { known := true; break; }
      }
      if !known { ledger := ledger + [Debit(key, amount, call.ref)]; }
      if call.LostReply? || call.ref == "" { return BankError; }
      return BankOk(call.ref, call.settled);
    }
  }

  class SubmitPixWorker {
    const db: Database
    const bank: BankGateway

    constructor (db: Database, bank: BankGateway)
      ensures this.db == db && this.bank == bank
    {
      this.db, this.bank := db, bank;
    }

    method Work(id: Id, call: BankCall) returns (o: Outcome)
      modifies db, bank
      ensures (World(db.View(), bank.ledger), o) == SubmitPix(World(old(db.View()), old(bank.ledger)), id, call)
    {
      var found := db.GetPayment(id);
      if found == None { return NotFound; }
      var p := found.value;
      if p.status == Approved {
        MovePayment(db, id, Approved, Submitting, "", System);
      }
      var reply := bank.SendPix(p.key, p.amount, call);
      if reply == BankError { return Retry; }
      var target := Sent;
      if reply.settled { target := Settled; }
      MovePayment(db, id, Submitting, target, reply.ref, System);
      return Done;
    }
  }

  class ReconcilePixWorker {
    const db: Database

    constructor (db: Database)
      ensures this.db == db
    {
      this.db := db;
    }

    method Work(answers: map<string, Poll>)
      modifies db
      ensures db.View() == Sweep(old(db.View()), answers)
    {
      var ids, rows := db.List(Sent, SWEEP_LIMIT);
      for i := 0 to |ids|
        invariant ReconcileAll(db.View(), rows, ids[i..], answers) == Sweep(old(db.View()), answers)
        invariant forall id :: id in rows ==> id in db.payments
      {
        assert ids[i..][0] == ids[i] && ids[i..][1..] == ids[i + 1..];
        if ids[i] !in rows { continue; }
        var p := rows[ids[i]];
        if p.kind != Pix || p.bankRef == "" { continue; }
        if p.bankRef !in answers { continue; }
        var result := answers[p.bankRef];
        if result.status == p.status { continue; }
        if !CanTransition(p.status, result.status) { continue; }
        MovePayment(db, ids[i], p.status, result.status, result.ref, System);
      }
    }
  }

  class AutoGroupRunWorker {
    const db: Database

    constructor (db: Database)
      ensures this.db == db
    {
      this.db := db;
    }

    method Work(run: Id) returns (o: Outcome, attached: nat)
      modifies db
      ensures (db.View(), o) == AutoGroup(old(db.View()), run)
      ensures attached == |db.items| - |old(db.items)|
    {
      attached := 0;
      var ids, rows := db.List(Prevalidated, GROUP_LIMIT);
      if |ids| == 0 { return Done, 0; }
      var ok := db.AddRun(run, NewRun());
      if !ok { return DuplicateRow, 0; }
      for i := 0 to |ids|
        invariant db.payments == rows && attached == |db.items| - |old(db.items)|
        invariant (AttachAll(db.View(), run, ids[i..]), Done) == AutoGroup(old(db.View()), run)
      {
        assert ids[i..][0] == ids[i] && ids[i..][1..] == ids[i + 1..];
        if ids[i] !in rows { continue; }
        var channel := R.PixRest;
        if rows[ids[i]].kind == Ted { channel := R.CnabTed; }
        var result := db.AddItem(run, ids[i], channel);
        if result != Done { continue; }
        attached := attached + 1;
      }
      o := Done;
    }
  }

  class WebhookHandler {
    const db: Database

    constructor (db: Database)
      ensures this.db == db
    {
      this.db := db;
    }

    method HandleItau(ref: string, text: string, endToEnd: string) returns (o: Outcome)
      modifies db
      ensures (db.View(), o) == Webhook(old(db.View()), ref, text, endToEnd)
    {
      if ref == "" { return InvalidInput; }
      var ids, rows := db.List(Sent, WEBHOOK_LIMIT);
      var target: Option<Id> := None;
      var i := 0;
      while i < |ids| && target == None
        invariant 0 <= i <= |ids|
        invariant FindRef(rows, ids, ref) == if target == None then FindRef(rows, ids[i..], ref) else target
        invariant target != None ==> target.value in rows
      {
        assert ids[i..][0] == ids[i] && ids[i..][1..] == ids[i + 1..];
        if ids[i] in rows && rows[ids[i]].bankRef == ref { target := Some(ids[i]); }
        i := i + 1;
      }
      if target == None { return Done; }
      var newStatus := Classified(text);
      if newStatus == None { return Done; }
      if !CanTransition(Sent, newStatus.value) { return Done; }
      MovePayment(db, target.value, Sent, newStatus.value, endToEnd, Bank);
      return Done;
    }
  }

  // ---- runs ----

  class RunService {
    const db: Database

    constructor (db: Database)
      ensures this.db == db
    {
      this.db := db;
    }

    method Create(run: Id) returns (o: Outcome)
      modifies db
      ensures (db.View(), o) == CreateRun(old(db.View()), run)
    {
      var ok := db.AddRun(run, NewRun());
      o := if ok then Done else DuplicateRow;
    }

    method AttachPayment(run: Id, id: Id) returns (o: Outcome)
      modifies db
      ensures (db.View(), o) == Attach(old(db.View()), run, id)
    {
      var r := db.GetRun(run);
      if r == None { return NotFound; }
      if r.value.status != R.Open { return Conflict; }
      var p := db.GetPayment(id);
      if p == None { return NotFound; }
      if p.value.status != Prevalidated { return Conflict; }
      var channel := R.PixRest;
      if p.value.kind == Ted { channel := R.CnabTed; }
      o := db.AddItem(run, id, channel);
    }

    method DetachPayment(run: Id, id: Id) returns (o: Outcome)
      modifies db
      ensures (db.View(), o) == Detach(old(db.View()), run, id)
    {
      var r := db.GetRun(run);
      if r == None { return NotFound; }
      if r.value.status != R.Open { return Conflict; }
      db.RemoveItem(run, id);
      o := Done;
    }

    /** The approval loop: the payments one by one, with the running counters. */
    method ApproveEach(ids: seq<Id>, user: string)
      returns (o: Outcome, total: int64, pixCount: nat, tedCount: nat)
      modifies db
      ensures (db.View(), o) == ApproveItems(old(db.View()), ids, user)
      ensures OnlyStatuses(old(db.View()), db.View())
      ensures o == Done ==> total == Wrap64(AmountSum(old(db.payments), ids))
                            && pixCount == CountPix(old(db.payments), ids) && pixCount + tedCount == |ids|
    {
      hide Wrap64;
      ghost var before := db.View();
      total, pixCount, tedCount := 0, 0, 0;
      ZeroFits();
      for i := 0 to |ids|
        invariant ApproveItems(db.View(), ids[i..], user) == ApproveItems(before, ids, user)
        invariant OnlyStatuses(before, db.View())
        invariant total == Wrap64(AmountSum(before.payments, ids[..i]))
        invariant pixCount == CountPix(before.payments, ids[..i]) && pixCount + tedCount == i
      {
        assert ids[i..][0] == ids[i] && ids[i..][1..] == ids[i + 1..];
        assert ids[..i + 1][..i] == ids[..i];
        var p := db.GetPayment(ids[i]);
        if p == None { return NotFound, total, pixCount, tedCount; }
        if p.value.status != Prevalidated { return Conflict, total, pixCount, tedCount; }
        assert ids[i] in before.payments.Keys;
        MovePayment(db, ids[i], Prevalidated, Approved, "", User(user));
        WrapAdd(AmountSum(before.payments, ids[..i]), p.value.amount);
        total := Wrap64(total + p.value.amount);
        if p.value.kind == Pix {
          pixCount := pixCount + 1;
        } else {
          tedCount := tedCount + 1;
        }
      }
      assert ids[..|ids|] == ids;
      o := Done;
    }

    method ApproveRun(run: Id, user: string) returns (o: Outcome)
      modifies db
      ensures (db.View(), o) == Approve(old(db.View()), run, user)
    {
      hide ItemIds, ApproveItems, AmountSum, CountPix;
      var r := db.GetRun(run);
      if r == None { return NotFound; }
      if !R.CanTransition(r.value.status, R.Approved) { return IllegalTransition; }
      var ids := db.ListItems(run);
      var total, pixCount, tedCount;
      o, total, pixCount, tedCount := ApproveEach(ids, user);
      if o != Done { return; }
      ghost var runs := db.runs;
      db.runs := db.runs[run := db.runs[run].(status := R.Approved, approvedBy := user)];
      db.runs := db.runs[run := db.runs[run].(totalItems := Wrap32(|ids|), totalAmount := total,
                                              pixCount := Wrap32(pixCount), tedCount := Wrap32(tedCount))];
      assert db.runs == runs[run := db.runs[run]];
    }

    method HoldPayment(id: Id, user: string) returns (o: Outcome)
      modifies db
      ensures (db.View(), o) == Hold(old(db.View()), id, user)
    {
      o := TransitionPayment(id, OnHold, user, [Approved]);
    }

    method UnholdPayment(id: Id, user: string) returns (o: Outcome)
      modifies db
      ensures (db.View(), o) == Unhold(old(db.View()), id, user)
    {
      o := TransitionPayment(id, Approved, user, [OnHold]);
    }

    method CancelPayment(id: Id, user: string) returns (o: Outcome)
      modifies db
      ensures (db.View(), o) == Cancel(old(db.View()), id, user)
    {
      var p := db.GetPayment(id);
      if p == None { return NotFound; }
      if !CanTransition(p.value.status, Canceled) { return IllegalTransition; }
      MovePayment(db, id, p.value.status, Canceled, "", User(user));
      o := Done;
    }

    method RejectPayment(id: Id, user: string) returns (o: Outcome)
      modifies db
      ensures (db.View(), o) == Reject(old(db.View()), id, user)
    {
      var p := db.GetPayment(id);
      if p == None { return NotFound; }
      if !CanTransition(p.value.status, Rejected) { return IllegalTransition; }
      MovePayment(db, id, p.value.status, Rejected, "", User(user));
      o := Done;
    }

    method TransitionPayment(id: Id, to: Status, user: string, requireFrom: seq<Status>) returns (o: Outcome)
      modifies db
      ensures (db.View(), o) == TransitionFrom(old(db.View()), id, requireFrom, to, user)
    {
      var p := db.GetPayment(id);
      if p == None { return NotFound; }
      if |requireFrom| > 0 {
        var ok := false;
        for i := 0 to |requireFrom|
          invariant ok <==> p.value.status in requireFrom[..i]
        {
          if p.value.status == requireFrom[i] { ok := true; }
        }
        assert requireFrom[..|requireFrom|] == requireFrom;
        if !ok { return Conflict; }
      }
      if !CanTransition(p.value.status, to) { return IllegalTransition; }
      MovePayment(db, id, p.value.status, to, "", User(user));
      o := Done;
    }

    method ReschedulePayment(id: Id, user: string) returns (o: Outcome)
      modifies db
      ensures (db.View(), o) == Reschedule(old(db.View()), id, user)
    {
      var p := db.GetPayment(id);
      if p == None { return NotFound; }
      if !Reschedulable(p.value.status) { return Conflict; }
      if id in db.items {
        var r := db.GetRun(db.items[id].run);
        if r != None && R.Locked(r.value.status) { return Conflict; }
      }
      db.items := db.items - {id};
      MovePayment(db, id, p.value.status, Prevalidated, "", User(user));
      o := Done;
    }
  }

  class RunsHandler {
    const db: Database

    constructor (db: Database)
      ensures this.db == db
    {
      this.db := db;
    }

    method Submit(run: Id, user: string) returns (o: Outcome)
      modifies db
      ensures (db.View(), o) == SubmitToBank(old(db.View()), run, user)
    {
      if run !in db.runs || db.runs[run].status != R.Approved { return Conflict; }
      db.runs := db.runs[run := db.runs[run].(status := R.Executing)];
      var ids := db.ListItems(run);
      db.events := db.events + SelfLinks(db.payments, ids, user);
      o := Done;
    }
  }
}
