/** What the states of the hub satisfy, and the facts about single tables that the proofs share. */
module HubInvariant {
  import opened Collections
  import opened PaymentStatus
  import opened Hub
  import opened AuditLog
  import opened HubLists
  import R = RunStatus

  // ---- rows, keys, items, totals ----

  /** No two payments share a key, and every stored request hash has its payment. */
  ghost predicate KeysOk(t: Tables) {
    && (forall p, q :: p in t.payments && q in t.payments && t.payments[p].key == t.payments[q].key ==> p == q)
    && (forall k :: k in t.requests ==> exists p :: p in t.payments && t.payments[p].key == k)
  }

  ghost predicate RowsOk(t: Tables) {
    && NoDup(t.newestFirst)
    && (forall id :: id in t.newestFirst <==> id in t.payments)
    && (forall id :: id in t.payments ==> RowOk(t.payments[id]))
  }

  predicate RowOk(p: Payment) { (p.kind == Pix || p.kind == Ted) && p.amount > 0 && p.key != "" }

  ghost predicate ItemsOk(t: Tables) {
    forall id :: id in t.items ==>
      && id in t.payments && t.items[id].run in t.runs
      && t.items[id].channel == ChannelFor(t.payments[id].kind)
  }

  predicate IsLocked(t: Tables, run: Id) { run in t.runs && R.Locked(t.runs[run].status) }

  /** Stored counters are the aggregate over the payments attached now. */
  ghost predicate TotalsOk(t: Tables) {
    forall run :: IsLocked(t, run) ==> t.runs[run] == WithTotals(t.runs[run], t.payments, ItemIds(t.items, run))
  }

  // ---- what the log remembers of a payment ----

  datatype Memory = Nothing | Torn | Begun(approved: bool)

  /** Statuses that only an approved payment has, until it is handed to the bank. */
  predicate InForce(s: Status) { s == Approved || s == OnHold || s == Submitting }

  function Remember(m: Memory, e: Event): Memory {
    match m
    case Torn => Torn
    case Nothing => if e.from == None && e.to == Received then Begun(false) else Torn
    case Begun(approved) =>
      if e.from == None || (e.to == Submitting && !StillApproved(approved, e)) then Torn
      else Begun(StillApproved(approved, e))
  }

  /** Whether a payment's trail began with its intake, and whether an approval is still in force. */
  function Recall(events: seq<Event>, id: Id): Memory {
    if events == [] then Nothing
    else
      var init, e := events[..|events| - 1], events[|events| - 1];
      if e.payment == id then Remember(Recall(init, id), e) else Recall(init, id)
  }

  predicate MemoryAt(t: Tables, id: Id) {
    var m := Recall(t.events, id);
    if id in t.payments then m.Begun? && (InForce(t.payments[id].status) ==> m.approved) else m == Nothing
  }

  ghost predicate MemoryOk(t: Tables) { forall id :: MemoryAt(t, id) }

  // ---- the bank's book ----

  predicate Delivered(s: Status) { s == Sent || s == Settled || s == Failed }

  predicate Submitted(s: Status) { s == Submitting || Delivered(s) }

  ghost predicate Pays(t: Tables, id: Id, d: Debit) {
    id in t.payments && t.payments[id].key == d.key && t.payments[id].amount == d.amount
  }

  /**
   One debit per key, each of the amount of the payment that owns the key; and a delivered payment
   has its debit.
   */
  ghost predicate BookOk(w: World) {
    && (forall i, j :: 0 <= i < j < |w.ledger| ==> w.ledger[i].key != w.ledger[j].key)
    && (forall d :: d in w.ledger ==> exists id :: Pays(w.db, id, d))
    && (forall id :: id in w.db.payments && Delivered(w.db.payments[id].status)
                     ==> Debited(w.ledger, w.db.payments[id].key))
  }

  /** What no step can break, due or not. */
  ghost predicate Core(w: World) {
    var t := w.db;
    KeysOk(t) && RowsOk(t) && ItemsOk(t) && TotalsOk(t) && MemoryOk(t) && BookOk(w)
  }

  // ---- what a worker that is not due can break ----

  /** The trail is accepted and ends in the stored status. */
  predicate TrailOk(t: Tables, id: Id) {
    var tr := Replay(t.events, id);
    if id in t.payments
    then tr.Standing? && tr.status == t.payments[id].status && (NeedsApproval(tr.status) ==> tr.approved)
    else tr == Absent
  }

  ghost predicate LogOk(t: Tables) { forall id :: TrailOk(t, id) }

  predicate Committed(s: Status) { NeedsApproval(s) || s == Canceled }

  predicate InLockedRun(t: Tables, id: Id) { id in t.items && IsLocked(t, t.items[id].run) }

  /** A payment of a locked run has been approved, and at most been canceled since. */
  ghost predicate LockedOk(t: Tables) {
    forall id :: id in t.payments && InLockedRun(t, id) ==> Committed(t.payments[id].status)
  }

  /** A payment with a debit has been submitted. */
  ghost predicate DebitsOk(w: World) {
    forall id :: id in w.db.payments && Debited(w.ledger, w.db.payments[id].key) ==> Submitted(w.db.payments[id].status)
  }

  ghost predicate Inv(w: World) { Core(w) && LogOk(w.db) && LockedOk(w.db) && DebitsOk(w) }

  // ---- sums depend on amounts and kinds only ----

  ghost predicate SameMoney(a: map<Id, Payment>, b: map<Id, Payment>) {
    a.Keys == b.Keys && forall id :: id in a ==> a[id].amount == b[id].amount && a[id].kind == b[id].kind
  }

  lemma {:induction false} SumsFrame(a: map<Id, Payment>, b: map<Id, Payment>, ids: seq<Id>)
    requires SameMoney(a, b)
    ensures AmountSum(a, ids) == AmountSum(b, ids) && CountPix(a, ids) == CountPix(b, ids)
  {
    if ids != [] {
      SumsFrame(a, b, ids[..|ids| - 1]);
      assert ids[|ids| - 1] in a.Keys <==> ids[|ids| - 1] in b.Keys;
    }
  }

  /** Adding a payment that no listed id refers to changes no sum. */
  lemma {:induction false} SumsInsert(a: map<Id, Payment>, id: Id, p: Payment, ids: seq<Id>)
    requires id !in ids
    ensures AmountSum(a[id := p], ids) == AmountSum(a, ids) && CountPix(a[id := p], ids) == CountPix(a, ids)
  {
    if ids != [] {
      assert ids[|ids| - 1] in ids;
      SumsInsert(a, id, p, ids[..|ids| - 1]);
    }
  }

  lemma MoveKeepsRows(t: Tables, id: Id, from: Status, to: Status, ref: string, actor: Actor)
    requires id in t.payments && KeysOk(t) && RowsOk(t) && ItemsOk(t)
    ensures var u := Move(t, id, from, to, ref, actor);
            KeysOk(u) && RowsOk(u) && ItemsOk(u) && SameMoney(t.payments, u.payments)
  {
    var u := Move(t, id, from, to, ref, actor);
    forall k | k in u.requests ensures exists p :: p in u.payments && u.payments[p].key == k {
      var p :| p in t.payments && t.payments[p].key == k;
      assert p in u.payments && u.payments[p].key == k;
    }
  }

  lemma MoveKeepsTotals(t: Tables, u: Tables)
    requires TotalsOk(t) && SameMoney(t.payments, u.payments) && u.runs == t.runs && u.items == t.items
    ensures TotalsOk(u)
  {
    forall run | IsLocked(u, run)
      ensures u.runs[run] == WithTotals(u.runs[run], u.payments, ItemIds(u.items, run))
    {
      assert IsLocked(t, run);
      SumsFrame(t.payments, u.payments, ItemIds(t.items, run));
    }
  }

  /** A change of the items map that leaves the items of every locked run alone. */
  ghost predicate LockedItemsKept(t: Tables, items: map<Id, Item>) {
    forall run, id :: IsLocked(t, run) ==>
      ((id in t.items && t.items[id].run == run) <==> (id in items && items[id].run == run))
  }

  lemma SameItemIds(a: map<Id, Item>, b: map<Id, Item>, run: Id)
    requires forall id :: (id in a && a[id].run == run) <==> (id in b && b[id].run == run)
    ensures ItemIds(a, run) == ItemIds(b, run)
  {
    var x, y := set id | id in a && a[id].run == run, set id | id in b && b[id].run == run;
    assert x == y;
    assert ItemIds(a, run) == Sorted(x) && ItemIds(b, run) == Sorted(y);
  }

  lemma ItemsKeepTotals(t: Tables, items: map<Id, Item>)
    requires TotalsOk(t) && LockedItemsKept(t, items)
    ensures TotalsOk(t.(items := items))
  {
    hide WithTotals, ItemIds;
    var u := t.(items := items);
    forall run | IsLocked(u, run)
      ensures u.runs[run] == WithTotals(u.runs[run], u.payments, ItemIds(u.items, run))
    {
      assert IsLocked(t, run);
      SameItemIds(t.items, items, run);
    }
  }

  lemma RowsFrame(t: Tables, u: Tables)
    requires KeysOk(t) && RowsOk(t)
    requires u.payments == t.payments && u.newestFirst == t.newestFirst && u.requests == t.requests
    ensures KeysOk(u) && RowsOk(u)
  {
  }

  lemma RowsFrame2(t: Tables, u: Tables)
    requires RowsOk(t) && u.payments == t.payments && u.newestFirst == t.newestFirst
    ensures RowsOk(u)
  {
  }

  // ---- a new payment ----

  /** The tables after a successful intake of `x` under the id `id`. */
  ghost function Inserted(t: Tables, id: Id, x: Input): Tables {
    var u := LogEvent(InsertPayment(t, id, NewPayment(x)), Event(id, None, Received, Caller(x.caller)));
    u.(requests := u.requests[x.key := x.hash])
  }

  lemma InsertKeepsTotals(t: Tables, id: Id, p: Payment)
    requires TotalsOk(t) && ItemsOk(t) && id !in t.payments
    ensures TotalsOk(InsertPayment(t, id, p))
  {
    hide ItemIds;
    var u := InsertPayment(t, id, p);
    forall run | IsLocked(u, run)
      ensures u.runs[run] == WithTotals(u.runs[run], u.payments, ItemIds(u.items, run))
    {
      assert IsLocked(t, run);
      ItemIdsMembers(t.items, run);
      SumsInsert(t.payments, id, p, ItemIds(t.items, run));
    }
  }

  lemma InsertKeepsKeys(t: Tables, id: Id, x: Input)
    requires KeysOk(t) && CanInsert(t, id, x.key)
    ensures KeysOk(Inserted(t, id, x))
  {
    var u := Inserted(t, id, x);
    assert id in u.payments && u.payments[id].key == x.key;
    forall k | k in u.requests ensures exists p :: p in u.payments && u.payments[p].key == k {
      if k != x.key {
        var p :| p in t.payments && t.payments[p].key == k;
        assert p in u.payments && u.payments[p].key == k;
      }
    }
  }

  lemma InsertKeepsRows(t: Tables, id: Id, x: Input)
    requires RowsOk(t) && ItemsOk(t) && ValidInput(x) && id !in t.payments
    ensures RowsOk(Inserted(t, id, x)) && ItemsOk(Inserted(t, id, x))
  {
  }
}
