/** Run totals, intake, money: what holds after any steps, and what the two blind workers can break. */
module HubLaws {
  import opened MachineInts
  import opened Collections
  import opened PaymentStatus
  import opened Hub
  import opened AuditLog
  import opened HubLists
  import opened HubInvariant
  import opened HubWrites
  import opened HubCore
  import opened HubTrail
  import R = RunStatus

  // ---- run totals ----

  /** The items of a run that go out over one channel. */
  function OnChannel(items: map<Id, Item>, ids: seq<Id>, channel: R.Channel): nat {
    if ids == [] then 0
    else
      var id := ids[|ids| - 1];
      OnChannel(items, ids[..|ids| - 1], channel) + if id in items && items[id].channel == channel then 1 else 0
  }

  lemma {:induction false} PixItemsOnPixChannel(t: Tables, ids: seq<Id>)
    requires RowsOk(t) && ItemsOk(t) && forall id :: id in ids ==> id in t.items
    ensures OnChannel(t.items, ids, R.PixRest) == CountPix(t.payments, ids)
    ensures OnChannel(t.items, ids, R.CnabTed) == |ids| - CountPix(t.payments, ids)
  {
    if ids != [] {
      var id := ids[|ids| - 1];
      assert id in ids && RowOk(t.payments[id]);
      forall q | q in ids[..|ids| - 1] ensures q in t.items { assert q in ids; }
      PixItemsOnPixChannel(t, ids[..|ids| - 1]);
    }
  }

  /**
   After any steps whatsoever the counters of a locked run are the aggregate over the payments that
   are attached to it now: their number, the sum of their amounts, and the number per channel,
   each as the integer width stores it.
   */
  lemma RunTotals(w: World, run: Id)
    requires Attainable(w) && run in w.db.runs
    requires var s := w.db.runs[run].status; s == R.Approved || s == R.Executing || s == R.PartiallySettled
    ensures var (r, ids) := (w.db.runs[run], ItemIds(w.db.items, run));
            && (forall id :: id in ids <==> id in w.db.items && w.db.items[id].run == run)
            && (forall id :: id in ids ==> id in w.db.payments)
            && r.totalItems == Wrap32(|ids|)
            && r.totalAmount == Wrap64(AmountSum(w.db.payments, ids))
            && r.pixCount == Wrap32(OnChannel(w.db.items, ids, R.PixRest))
            && r.tedCount == Wrap32(OnChannel(w.db.items, ids, R.CnabTed))
  {
    hide AmountSum, ItemIds, OnChannel, CountPix, KeysOk, MemoryOk, BookOk, Attainable, Wrap32, Wrap64;
    AttainableCore(w);
    ItemIdsMembers(w.db.items, run);
    PixItemsOnPixChannel(w.db, ItemIds(w.db.items, run));
  }

  // ---- payments of locked runs ----

  lemma CommittedEdge(from: Status, to: Status)
    requires Committed(from) && CanTransition(from, to) && to != Expired
    ensures Committed(to)
  {
  }

  lemma ShiftLocked(t: Tables, id: Id, from: Status, to: Status, ref: string, actor: Actor)
    requires LockedOk(t) && id in t.payments
    ensures LockedOk(Move(t, id, from, to, ref, actor)) <==> (InLockedRun(t, id) ==> Committed(to))
  {
    var u := Move(t, id, from, to, ref, actor);
    assert InLockedRun(u, id) <==> InLockedRun(t, id);
    forall q | q in u.payments && InLockedRun(u, q) && (InLockedRun(t, id) ==> Committed(to))
      ensures Committed(u.payments[q].status)
    {
      assert InLockedRun(t, q);
    }
  }

  lemma CheckedLocked(w: World, x: Write)
    requires Core(w) && LockedOk(w.db) && Checked(w, x)
    ensures LockedOk(Written(w, x).db)
  {
    hide KeysOk, RowsOk, TotalsOk, MemoryOk, BookOk, ItemIds, WithTotals, ValidInput, Move;
    var t, u := w.db, Written(w, x).db;
    match x {
      case Shift(id, from, to, ref, actor) =>
        if InLockedRun(t, id) && CanTransition(from, to) && to != Expired { CommittedEdge(from, to); }
        ShiftLocked(t, id, from, to, ref, actor);
      case Row(run, r) =>
        forall id | id in u.payments && InLockedRun(u, id) ensures Committed(u.payments[id].status) {
          assert t.items[id].run != run ==> InLockedRun(t, id);
          assert IsLocked(t, run) && t.items[id].run == run ==> InLockedRun(t, id);
        }
      case Book(_, _) =>
      case _ =>
        forall id | id in u.payments && InLockedRun(u, id) ensures Committed(u.payments[id].status) {
          assert id in t.payments && InLockedRun(t, id);
        }
    }
  }

  lemma {:induction false} CheckedAllLocked(w: World, xs: seq<Write>)
    requires Core(w) && LockedOk(w.db) && AllChecked(w, xs)
    ensures LockedOk(WriteAll(w, xs).db)
    decreases xs
  {
    hide Core, LockedOk, Checked, Written;
    if xs != [] {
      CheckedLocked(w, xs[0]);
      WriteCore(w, xs[0]);
      CheckedAllLocked(Written(w, xs[0]), xs[1..]);
    }
  }

  /** No prevalidation verdict for a payment of a locked run. */
  predicate LockedDue(w: World, a: Action) {
    a.DoPrevalidate? && a.id in w.db.payments && InLockedRun(w.db, a.id) ==>
      NoVerdict(w.db.payments[a.id], a.dict, a.rules)
  }

  lemma FirstLocked(w: World, id: Id, from: Status, to: Status)
    requires Core(w) && LockedOk(w.db) && id in w.db.payments
    requires (from == Received && to == ValidatedLocal) || (from == Approved && to == Submitting)
    ensures var v := FirstWrite(w, id, from, to);
            id in v.db.payments && LockedOk(v.db) && (InLockedRun(v.db, id) <==> InLockedRun(w.db, id))
  {
    hide Core, LockedOk, Checked, Move;
    FirstWriteChecked(w, id);
    SameRun(w.db, id, from, to, "");
    if w.db.payments[id].status == from { CheckedLocked(w, Shift(id, from, to, "", System)); }
  }

  lemma SameRun(t: Tables, id: Id, from: Status, to: Status, ref: string)
    requires id in t.payments
    ensures var u := Move(t, id, from, to, ref, System);
            id in u.payments && (InLockedRun(u, id) <==> InLockedRun(t, id))
  {
  }

  /** A step keeps the payments of locked runs committed if and only if it is no verdict on one of them. */
  lemma StepLockedIff(w: World, a: Action)
    requires Core(w) && LockedOk(w.db)
    ensures LockedOk(Apply(w, a).db) <==> LockedDue(w, a)
  {
    hide Core, LockedOk, Apply, AllChecked, WriteAll, FirstWrite, Booked, Move, InLockedRun;
    if Worker(a) && a.id !in w.db.payments {
      MissingUntouched(w, a);
    } else if a.DoPrevalidate? {
      var (p, v) := (w.db.payments[a.id], FirstWrite(w, a.id, Received, ValidatedLocal));
      PrevalidateWrites(w, a.id, a.dict, a.rules);
      FirstLocked(w, a.id, Received, ValidatedLocal);
      if !NoVerdict(p, a.dict, a.rules) {
        ShiftLocked(v.db, a.id, ValidatedLocal, Verdict(p, a.dict, a.rules), "", System);
      }
    } else if a.DoSubmitPix? {
      var v := FirstWrite(w, a.id, Approved, Submitting);
      CoreRow(w, a.id);
      SubmitPixWrites(w, a.id, a.call);
      FirstLocked(w, a.id, Approved, Submitting);
      BookedSame(v, a.id, a.call);
      if AnswersOk(a.call) {
        ShiftLocked(v.db, a.id, Submitting, if a.call.settled then Settled else Sent, a.call.ref, System);
      }
    } else {
      var xs := CheckedWrites(w, a);
      CheckedAllLocked(w, xs);
    }
  }

  lemma CoreRow(w: World, id: Id)
    requires Core(w) && id in w.db.payments
    ensures RowOk(w.db.payments[id])
  {
  }

  predicate AllLockedDue(w: World, actions: seq<Action>)
    decreases actions
  {
    actions == [] || (LockedDue(w, actions[0]) && AllLockedDue(Apply(w, actions[0]), actions[1..]))
  }

  /** At every point of a run the payments of locked runs are committed. */
  ghost predicate LockedThroughout(w: World, actions: seq<Action>)
    decreases actions
  {
    LockedOk(w.db) && (actions == [] || LockedThroughout(Apply(w, actions[0]), actions[1..]))
  }

  lemma {:induction false} PlayLockedIff(w: World, actions: seq<Action>)
    requires Core(w) && LockedOk(w.db)
    ensures LockedThroughout(w, actions) <==> AllLockedDue(w, actions)
    decreases actions
  {
    hide Core, LockedOk, Apply, LockedDue;
    if actions != [] {
      StepLockedIff(w, actions[0]);
      StepCore(w, actions[0]);
      if LockedDue(w, actions[0]) { PlayLockedIff(Apply(w, actions[0]), actions[1..]); }
    }
  }

  /**
   At every point of a run from an empty hub, every payment of a locked run has been approved and at
   most been canceled since, if and only if no prevalidation writes a verdict to one of them.
   */
  lemma LockedPaymentsApproved(payers: set<Id>, actions: seq<Action>)
    ensures LockedThroughout(Fresh(payers), actions) <==> AllLockedDue(Fresh(payers), actions)
  {
    FreshCore(payers);
    PlayLockedIff(Fresh(payers), actions);
  }

  // ---- the audit trail, due or not ----

  /** After any steps whatsoever each stored payment has exactly one intake event, the first of its trail. */
  lemma OneIntakeEvent(w: World, id: Id) returns (i: nat)
    requires Attainable(w) && id in w.db.payments
    ensures i < |w.db.events| && w.db.events[i].payment == id && w.db.events[i].from == None
    ensures w.db.events[i].to == Received && Quiet(w.db.events, id, -1, i)
    ensures forall n :: 0 <= n < |w.db.events| && w.db.events[n].payment == id && w.db.events[n].from == None ==> n == i
  {
    hide KeysOk, RowsOk, ItemsOk, TotalsOk, BookOk, Attainable;
    AttainableCore(w);
    var events := w.db.events;
    assert MemoryAt(w.db, id);
    RecallNothing(events, id);
    var e :| e in events && e.payment == id;
    var last :| 0 <= last < |events| && events[last] == e;
    i := FirstEvent(events, id, last);
    NothingBefore(events, id, i);
    RecallAt(events, id, i);
    forall n | 0 <= n < |events| && events[n].payment == id && events[n].from == None ensures n == i {
      RecallAt(events, id, n);
      RecallNothing(events[..n], id);
    }
  }

  lemma NothingBefore(events: seq<Event>, id: Id, n: nat)
    requires n < |events| && Quiet(events, id, -1, n)
    ensures Recall(events[..n], id) == Nothing
  {
    RecallNothing(events[..n], id);
    forall e | e in events[..n] ensures e.payment != id {
      var k :| 0 <= k < n && events[k] == e;
    }
  }

  lemma {:induction false} FirstEvent(events: seq<Event>, id: Id, n: nat) returns (i: nat)
    requires n < |events| && events[n].payment == id
    ensures i < |events| && events[i].payment == id && Quiet(events, id, -1, i)
    decreases n
  {
    if k :| 0 <= k < n && events[k].payment == id {
      i := FirstEvent(events, id, k);
    } else {
      i := n;
    }
  }

  /**
   Approval before the bank, after any steps whatsoever: whatever event enters SUBMITTING, an
   earlier event is a user's approval of that payment, and no event into PREVALIDATED lies between
   the two.
   */
  lemma ApprovedBeforeBank(w: World, n: nat) returns (j: nat)
    requires Attainable(w) && n < |w.db.events| && w.db.events[n].to == Submitting
    ensures j < n && w.db.events[j].payment == w.db.events[n].payment && IsApproval(w.db.events[j])
    ensures forall k :: j < k < n && w.db.events[k].payment == w.db.events[n].payment ==>
              w.db.events[k].to != Prevalidated
  {
    hide KeysOk, RowsOk, ItemsOk, TotalsOk, BookOk, Attainable;
    var id := w.db.events[n].payment;
    AttainableCore(w);
    assert MemoryAt(w.db, id);
    RecallAt(w.db.events, id, n);
    var upTo := w.db.events[..n + 1];
    j := RecalledApproval(upTo, id);
    assert upTo[j] == w.db.events[j] && upTo[n] == w.db.events[n];
    forall k | j < k < n && w.db.events[k].payment == id ensures w.db.events[k].to != Prevalidated {
      assert upTo[k] == w.db.events[k];
    }
  }

  // ---- money ----

  /**
   Effectively once, after any steps whatsoever: however often the submission job runs again, also
   after its own status write, a payment has at most one debit at the bank, of exactly its amount.
   */
  lemma DebitedOnce(w: World, id: Id)
    requires Attainable(w) && id in w.db.payments
    ensures var key := w.db.payments[id].key;
            && (forall i, j :: 0 <= i < j < |w.ledger| ==> w.ledger[i].key != key || w.ledger[j].key != key)
            && (forall i :: 0 <= i < |w.ledger| && w.ledger[i].key == key ==>
                  w.ledger[i].amount == w.db.payments[id].amount)
  {
    hide RowsOk, ItemsOk, TotalsOk, MemoryOk, Attainable;
    AttainableCore(w);
    forall i | 0 <= i < |w.ledger| && w.ledger[i].key == w.db.payments[id].key
      ensures w.ledger[i].amount == w.db.payments[id].amount
    {
      assert w.ledger[i] in w.ledger;
      var q :| Pays(w.db, q, w.ledger[i]);
    }
  }

  /**
   After any steps whatsoever a payment that is SENT, SETTLED or FAILED has its debit, so the worker
   reports a delivery only when the bank has booked it.
   */
  lemma DeliveredIsDebited(w: World, id: Id)
    requires Attainable(w) && id in w.db.payments && Delivered(w.db.payments[id].status)
    ensures exists i :: 0 <= i < |w.ledger| && w.ledger[i].key == w.db.payments[id].key
  {
    hide KeysOk, RowsOk, ItemsOk, TotalsOk, MemoryOk, Attainable;
    AttainableCore(w);
    var d :| d in w.ledger && d.key == w.db.payments[id].key;
    var i :| 0 <= i < |w.ledger| && w.ledger[i] == d;
  }

  /** After any steps whatsoever every debit is of exactly one stored payment: its key and its amount. */
  lemma NoStrayDebit(w: World, i: nat) returns (id: Id)
    requires Attainable(w) && i < |w.ledger|
    ensures id in w.db.payments && w.db.payments[id].key == w.ledger[i].key
    ensures w.db.payments[id].amount == w.ledger[i].amount
    ensures forall q :: q in w.db.payments && w.db.payments[q].key == w.ledger[i].key ==> q == id
  {
    hide RowsOk, ItemsOk, TotalsOk, MemoryOk, Attainable;
    AttainableCore(w);
    assert w.ledger[i] in w.ledger;
    id :| Pays(w.db, id, w.ledger[i]);
  }

  /**
   The step neither takes a payment with a debit back to a status before submission, nor books a
   debit for a payment that is not waiting to be sent without recording a delivery.
   */
  ghost predicate DebitsDue(w: World, a: Action) {
    match a
    case DoPrevalidate(id, dict, rules) =>
      id in w.db.payments && Debited(w.ledger, w.db.payments[id].key) ==> NoVerdict(w.db.payments[id], dict, rules)
    case DoSubmitPix(id, call) =>
      id in w.db.payments ==>
        || w.db.payments[id].status == Approved || Submitted(w.db.payments[id].status)
        || call == Unreached || AnswersOk(call)
    case _ => true
  }

  lemma ShiftDebits(w: World, id: Id, from: Status, to: Status, ref: string, actor: Actor)
    requires DebitsOk(w) && id in w.db.payments
    ensures DebitsOk(w.(db := Move(w.db, id, from, to, ref, actor))) <==>
              (Debited(w.ledger, w.db.payments[id].key) ==> Submitted(to))
  {
    hide Debited;
    var u := Move(w.db, id, from, to, ref, actor);
    assert id in u.payments && u.payments[id].key == w.db.payments[id].key && u.payments[id].status == to;
    assert forall q :: q in u.payments && q != id ==> u.payments[q] == w.db.payments[q];
  }

  lemma SubmittedEdge(from: Status, to: Status)
    requires Submitted(from) && CanTransition(from, to)
    ensures Submitted(to)
  {
  }

  lemma CheckedDebits(w: World, x: Write)
    requires Core(w) && DebitsOk(w) && Checked(w, x)
    ensures DebitsOk(Written(w, x))
  {
    hide RowsOk, ItemsOk, TotalsOk, MemoryOk, ItemIds, WithTotals, ValidInput, Move;
    match x {
      case Shift(id, from, to, ref, actor) =>
        if Submitted(from) && CanTransition(from, to) { SubmittedEdge(from, to); }
        hide Debited;
        ShiftDebits(w, id, from, to, ref, actor);
      case Enter(id, input) => EnteredNotDebited(w, id, input);
      case _ => hide Debited;
    }
  }

  lemma EnteredNotDebited(w: World, id: Id, x: Input)
    requires BookOk(w) && DebitsOk(w) && CanInsert(w.db, id, x.key)
    ensures DebitsOk(w.(db := Inserted(w.db, id, x)))
  {
    var u := Inserted(w.db, id, x);
    forall d | d in w.ledger ensures d.key != x.key {
      var q :| Pays(w.db, q, d);
    }
    assert forall q :: q in u.payments && q != id ==> u.payments[q] == w.db.payments[q];
  }

  lemma {:induction false} CheckedAllDebits(w: World, xs: seq<Write>)
    requires Core(w) && DebitsOk(w) && AllChecked(w, xs)
    ensures DebitsOk(WriteAll(w, xs))
    decreases xs
  {
    hide Core, DebitsOk, Checked, Written;
    if xs != [] {
      CheckedDebits(w, xs[0]);
      WriteCore(w, xs[0]);
      CheckedAllDebits(Written(w, xs[0]), xs[1..]);
    }
  }

  lemma BookDebits(w: World, id: Id, call: BankCall)
    requires KeysOk(w.db) && DebitsOk(w) && id in w.db.payments
    ensures var (v, s) := (Booked(w, id, call), w.db.payments[id].status);
            && v.db == w.db && (forall q :: q in w.db.payments && q != id && Debited(v.ledger, w.db.payments[q].key) ==>
                 Submitted(w.db.payments[q].status))
            && (DebitsOk(v) <==> call == Unreached || Submitted(s))
  {
    var v := Booked(w, id, call);
    if v != w {
      assert v.ledger[|v.ledger| - 1] in v.ledger;
      forall q | q in w.db.payments && q != id && Debited(v.ledger, w.db.payments[q].key)
        ensures Submitted(w.db.payments[q].status)
      {
        var d :| d in v.ledger && d.key == w.db.payments[q].key;
        assert d in w.ledger;
      }
    }
  }

  lemma FirstDebits(w: World, id: Id, from: Status, to: Status)
    requires Core(w) && DebitsOk(w) && id in w.db.payments
    requires (from == Received && to == ValidatedLocal) || (from == Approved && to == Submitting)
    ensures var v := FirstWrite(w, id, from, to);
            && id in v.db.payments && DebitsOk(v) && KeysOk(v.db) && v.ledger == w.ledger
            && v.db.payments[id].key == w.db.payments[id].key
            && v.db.payments[id].status == if w.db.payments[id].status == from then to else w.db.payments[id].status
  {
    hide DebitsOk, Checked, Move, RowsOk, ItemsOk, TotalsOk, MemoryOk, BookOk;
    FirstWriteChecked(w, id);
    MovedStored(w.db, id, from, to, "", System);
    if w.db.payments[id].status == from {
      CheckedDebits(w, Shift(id, from, to, "", System));
      WriteCore(w, Shift(id, from, to, "", System));
    }
  }

  /** After a delivery is recorded, the payment may have a debit. */
  lemma AnswerDebits(v: World, id: Id, to: Status, ref: string)
    requires id in v.db.payments && Submitted(to)
    requires forall q :: q in v.db.payments && q != id && Debited(v.ledger, v.db.payments[q].key) ==>
      Submitted(v.db.payments[q].status)
    ensures DebitsOk(v.(db := Move(v.db, id, Submitting, to, ref, System)))
  {
    hide Debited;
  }

  /** A step keeps every debited payment submitted if and only if it is due in this respect. */
  lemma StepDebitsIff(w: World, a: Action)
    requires Core(w) && DebitsOk(w)
    ensures DebitsOk(Apply(w, a)) <==> DebitsDue(w, a)
  {
    hide Core, DebitsOk, Apply, AllChecked, WriteAll, FirstWrite, Booked, Move, Debited;
    if Worker(a) && a.id !in w.db.payments {
      MissingUntouched(w, a);
    } else if a.DoPrevalidate? {
      var (p, v) := (w.db.payments[a.id], FirstWrite(w, a.id, Received, ValidatedLocal));
      PrevalidateWrites(w, a.id, a.dict, a.rules);
      FirstDebits(w, a.id, Received, ValidatedLocal);
      if !NoVerdict(p, a.dict, a.rules) {
        ShiftDebits(v, a.id, ValidatedLocal, Verdict(p, a.dict, a.rules), "", System);
      }
    } else if a.DoSubmitPix? {
      var v := FirstWrite(w, a.id, Approved, Submitting);
      CoreRow(w, a.id);
      SubmitPixWrites(w, a.id, a.call);
      FirstDebits(w, a.id, Approved, Submitting);
      BookDebits(v, a.id, a.call);
      if AnswersOk(a.call) {
        AnswerDebits(Booked(v, a.id, a.call), a.id, if a.call.settled then Settled else Sent, a.call.ref);
      }
    } else {
      var xs := CheckedWrites(w, a);
      CheckedAllDebits(w, xs);
    }
  }

  ghost predicate AllDebitsDue(w: World, actions: seq<Action>)
    decreases actions
  {
    actions == [] || (DebitsDue(w, actions[0]) && AllDebitsDue(Apply(w, actions[0]), actions[1..]))
  }

  /** At every point of a run the payments with a debit have been submitted. */
  ghost predicate DebitsThroughout(w: World, actions: seq<Action>)
    decreases actions
  {
    DebitsOk(w) && (actions == [] || DebitsThroughout(Apply(w, actions[0]), actions[1..]))
  }

  lemma {:induction false} PlayDebitsIff(w: World, actions: seq<Action>)
    requires Core(w) && DebitsOk(w)
    ensures DebitsThroughout(w, actions) <==> AllDebitsDue(w, actions)
    decreases actions
  {
    hide Core, DebitsOk, Apply, DebitsDue;
    if actions != [] {
      StepDebitsIff(w, actions[0]);
      StepCore(w, actions[0]);
      if DebitsDue(w, actions[0]) { PlayDebitsIff(Apply(w, actions[0]), actions[1..]); }
    }
  }

  /**
   At every point of a run from an empty hub, no payment has a debit before it was submitted, if and
   only if every step is due in this respect.
   */
  lemma NoEarlyDebit(payers: set<Id>, actions: seq<Action>)
    ensures DebitsThroughout(Fresh(payers), actions) <==> AllDebitsDue(Fresh(payers), actions)
  {
    hide Debited;
    FreshCore(payers);
    PlayDebitsIff(Fresh(payers), actions);
  }

  // ---- all of it together ----

  /**
   The submission job runs on an approved or submitting payment; or it achieves nothing: the bank
   is not reached, or it is asked again about a payment it already has and gives no usable answer.
   */
  predicate SubmitDue(t: Tables, id: Id, call: BankCall) {
    id in t.payments ==>
      || t.payments[id].status == Approved
      || t.payments[id].status == Submitting
      || call == Unreached
      || (Delivered(t.payments[id].status) && !AnswersOk(call))
  }

  /** The two workers that write without consulting the lifecycle table run when they are due. */
  predicate Due(w: World, a: Action) {
    match a
    case DoPrevalidate(id, dict, rules) => PrevalidateDue(w.db, id, dict, rules)
    case DoSubmitPix(id, call) => SubmitDue(w.db, id, call)
    case _ => true
  }

  lemma LogStepIff(w: World, a: Action)
    requires Core(w) && LogOk(w.db)
    ensures LogOk(Apply(w, a).db) <==> forall id :: TrailDue(w, a, id)
  {
    hide Core, TrailOk, Apply, TrailDue;
    forall id ensures TrailOk(Apply(w, a).db, id) <==> TrailDue(w, a, id) {
      assert TrailOk(w.db, id);
      StepTrail(w, a, id);
      BrokenTrail(Apply(w, a).db, id);
    }
    if LogOk(Apply(w, a).db) {
      forall id ensures TrailDue(w, a, id) { assert TrailOk(Apply(w, a).db, id); }
    } else {
      var id :| !TrailOk(Apply(w, a).db, id);
      assert !TrailDue(w, a, id);
    }
  }

  lemma BrokenTrail(t: Tables, id: Id)
    ensures Replay(t.events, id) == Broken ==> !TrailOk(t, id)
  {
  }

  lemma InvStatus(w: World, id: Id)
    requires Inv(w) && id in w.db.payments
    ensures InLockedRun(w.db, id) ==> Committed(w.db.payments[id].status)
    ensures Debited(w.ledger, w.db.payments[id].key) ==> Submitted(w.db.payments[id].status)
  {
    hide Core, Debited;
  }

  /** Being due is being due in all three respects. */
  lemma DueIff(w: World, a: Action)
    requires Inv(w)
    ensures Due(w, a) <==> (forall id :: TrailDue(w, a, id)) && LockedDue(w, a) && DebitsDue(w, a)
  {
    hide Inv, InLockedRun, Debited;
    if Worker(a) {
      assert TrailDue(w, a, a.id) <==> forall id :: TrailDue(w, a, id);
      if a.id in w.db.payments { InvStatus(w, a.id); }
    }
  }

  /** One step keeps the whole invariant exactly when it is due. */
  lemma StepIff(w: World, a: Action)
    requires Inv(w)
    ensures Inv(Apply(w, a)) <==> Due(w, a)
  {
    hide Core, LogOk, LockedOk, DebitsOk, Apply, LockedDue, DebitsDue, TrailDue;
    StepCore(w, a);
    LogStepIff(w, a);
    StepLockedIff(w, a);
    StepDebitsIff(w, a);
    DueIff(w, a);
  }

  predicate AllDue(w: World, actions: seq<Action>)
    decreases actions
  {
    actions == [] || (Due(w, actions[0]) && AllDue(Apply(w, actions[0]), actions[1..]))
  }

  ghost predicate InvThroughout(w: World, actions: seq<Action>)
    decreases actions
  {
    Inv(w) && (actions == [] || InvThroughout(Apply(w, actions[0]), actions[1..]))
  }

  lemma {:induction false} PlayInvIff(w: World, actions: seq<Action>)
    requires Inv(w)
    ensures InvThroughout(w, actions) <==> AllDue(w, actions)
    decreases actions
  {
    hide Inv, Apply, Due;
    if actions != [] {
      StepIff(w, actions[0]);
      if Due(w, actions[0]) { PlayInvIff(Apply(w, actions[0]), actions[1..]); }
    }
  }

  /** The whole invariant holds at every point of a run from an empty hub exactly when all its steps are due. */
  lemma InvThroughoutIff(payers: set<Id>, actions: seq<Action>)
    ensures InvThroughout(Fresh(payers), actions) <==> AllDue(Fresh(payers), actions)
  {
    FreshCore(payers);
    assert forall id :: TrailOk(Fresh(payers).db, id);
    PlayInvIff(Fresh(payers), actions);
  }

  /**
   What can be looked up before the job runs: whatever the bank's directory and the rules answer,
   the attempt keeps the invariant exactly when the payment is new to it.
   */
  lemma PrevalidateSafeIff(w: World, id: Id)
    requires Inv(w)
    ensures (forall dict, rules :: Inv(Apply(w, DoPrevalidate(id, dict, rules)))) <==>
              (id in w.db.payments ==>
                 w.db.payments[id].status == Received || w.db.payments[id].status == ValidatedLocal)
  {
    hide Inv, Apply;
    forall dict, rules
      ensures Inv(Apply(w, DoPrevalidate(id, dict, rules))) <==> PrevalidateDue(w.db, id, dict, rules)
    {
      StepIff(w, DoPrevalidate(id, dict, rules));
    }
    assert Inv(Apply(w, DoPrevalidate(id, DictPass, RulesAllow))) <==> PrevalidateDue(w.db, id, DictPass, RulesAllow);
  }

  /**
   What can be looked up before the job runs: whatever becomes of the call to the bank, the attempt
   keeps the invariant exactly when the payment is waiting to be sent.
   */
  lemma SubmitPixSafeIff(w: World, id: Id)
    requires Inv(w)
    ensures (forall call :: Inv(Apply(w, DoSubmitPix(id, call)))) <==>
              (id in w.db.payments ==>
                 w.db.payments[id].status == Approved || w.db.payments[id].status == Submitting)
  {
    hide Inv, Apply;
    forall call ensures Inv(Apply(w, DoSubmitPix(id, call))) <==> SubmitDue(w.db, id, call) {
      StepIff(w, DoSubmitPix(id, call));
    }
    assert Inv(Apply(w, DoSubmitPix(id, Answered("ref", false)))) <==> SubmitDue(w.db, id, Answered("ref", false));
  }

  // ---- intake ----

  /** When the intake takes a request. */
  predicate Accepts(t: Tables, x: Input, id: Id) {
    ValidInput(x) && x.payer in t.payers
    && if x.key in t.requests then t.requests[x.key] == x.hash else CanInsert(t, id, x.key)
  }

  /** The payment is the only one with the key. */
  ghost predicate OwnsKey(t: Tables, id: Id, key: string) {
    id in t.payments && t.payments[id].key == key && forall q :: q in t.payments && t.payments[q].key == key ==> q == id
  }

  /**
   One intake call, after any steps whatsoever. It succeeds exactly for a valid input of a known
   payer whose key is either recorded with the same hash, or neither recorded nor owned by a
   payment; the answer is the one payment that owns the key; a refusal changes nothing; and the
   fallback for a recorded key without payment never happens.
   */
  lemma IntakeAnswersOwner(w: World, x: Input, id: Id)
    requires Core(w)
    ensures var (t, o, answer) := Receive(w.db, x, id);
            && (o == Done <==> Accepts(w.db, x, id))
            && (o == Done ==> answer.Some? && OwnsKey(t, answer.value, x.key))
            && (o == Done && x.key in w.db.requests ==> t == w.db)
            && (o != Done ==> t == w.db && answer == None)
            && o != NotFound
  {
    hide ItemsOk, TotalsOk, MemoryOk, BookOk;
    FindKeyMember(w.db.payments, w.db.newestFirst, x.key);
  }

  /**
   Idempotent intake: two successful calls with the same key, however many steps of whatever kind
   lie between them (the expiry of the record included), answer with the same payment.
   */
  lemma SameKeySamePayment(w: World, x: Input, id: Id, between: seq<Action>, y: Input, id2: Id)
    requires Attainable(w) && x.key == y.key && Receive(w.db, x, id).1 == Done
    requires Receive(Play(w.(db := Receive(w.db, x, id).0), between).db, y, id2).1 == Done
    ensures Receive(Play(w.(db := Receive(w.db, x, id).0), between).db, y, id2).2 == Receive(w.db, x, id).2
  {
    hide Core, Receive, CanInsert, ValidInput, Attainable;
    var v := w.(db := Receive(w.db, x, id).0);
    AttainableCore(w);
    StepCore(w, DoReceive(x, id));
    IntakeAnswersOwner(w, x, id);
    PlayLater(v, between);
    PlayCore(v, between);
    IntakeAnswersOwner(Play(v, between), y, id2);
    StepLater(Play(v, between), DoReceive(y, id2));
  }

  /**
   Once its record has expired, repeating the very same request is refused as a duplicate row
   instead of being answered again: the payment's own unique key still stands.
   */
  lemma RepeatAfterExpiryRefused(w: World, x: Input, id: Id, id2: Id)
    requires Core(w) && Receive(w.db, x, id).1 == Done
    ensures Receive(Expire(Receive(w.db, x, id).0, x.key), x, id2).1 == DuplicateRow
  {
    IntakeAnswersOwner(w, x, id);
    var t := Receive(w.db, x, id).0;
    var owner := Receive(w.db, x, id).2.value;
    assert owner in t.payments && t.payments[owner].key == x.key;
  }
}
