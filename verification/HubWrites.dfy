/**
 Every step as a sequence of single writes. What a law needs to know about the steps is collected
 here once, as the condition under which each write is made; a law is then proved write by write.
 */
module HubWrites {
  import opened MachineInts
  import opened Collections
  import opened PaymentStatus
  import opened Hub
  import opened HubLists
  import opened HubInvariant
  import R = RunStatus

  datatype Write =
    | Enter(id: Id, x: Input)
    | Forget(key: string)
    | Shift(id: Id, from: Status, to: Status, ref: string, actor: Actor)
    | Open(run: Id)
    | Row(run: Id, r: Run)
    | Put(run: Id, id: Id)
    | Drop(id: Id)
    | Book(id: Id, ref: string)

  /** The effect of one write; a write to a payment that is not stored has none. */
  ghost function Written(w: World, x: Write): World {
    var t := w.db;
    match x
    case Enter(id, input) => w.(db := Inserted(t, id, input))
    case Forget(key) => w.(db := Expire(t, key))
    case Shift(id, from, to, ref, actor) =>
      if id in t.payments then w.(db := Move(t, id, from, to, ref, actor)) else w
    case Open(run) => w.(db := t.(runs := t.runs[run := NewRun()]))
    case Row(run, r) => w.(db := t.(runs := t.runs[run := r]))
    case Put(run, id) =>
      if id in t.payments then w.(db := t.(items := t.items[id := Item(run, ChannelFor(t.payments[id].kind))])) else w
    case Drop(id) => w.(db := t.(items := t.items - {id}))
    case Book(id, ref) =>
      if id in t.payments then w.(ledger := w.ledger + [Debit(t.payments[id].key, t.payments[id].amount, ref)]) else w
  }

  // ---- when writes are made ----

  /** A status write that looked at the stored status: a self link, a reschedule, or a table edge. */
  predicate CheckedShift(t: Tables, id: Id, from: Status, to: Status, actor: Actor)
    requires id in t.payments
  {
    && from == t.payments[id].status
    && (|| (to == from && actor.User?)
        || (to == Prevalidated && Reschedulable(from) && actor.User? && !InLockedRun(t, id))
        || (CanTransition(from, to) && to != Expired && (Delivered(to) ==> from == Sent)
            && (InForce(to) ==> InForce(from) || (from == Prevalidated && actor.User?))))
  }

  /** All payments of the run are approved. */
  ghost predicate AllApproved(t: Tables, run: Id) {
    forall id :: id in t.items && id in t.payments && t.items[id].run == run ==> t.payments[id].status == Approved
  }

  /** A run's row never goes back; it is locked with the aggregate, when all its payments are approved. */
  ghost predicate RowFits(t: Tables, run: Id, r: Run) {
    && run in t.runs && R.Rank(t.runs[run].status) <= R.Rank(r.status)
    && (R.Locked(r.status) ==>
          r == WithTotals(r, t.payments, ItemIds(t.items, run)) && (IsLocked(t, run) || AllApproved(t, run)))
  }

  /** The condition under which each write is made by a step that looks before it writes. */
  ghost predicate Checked(w: World, x: Write) {
    var t := w.db;
    match x
    case Enter(id, input) => ValidInput(input) && CanInsert(t, id, input.key)
    case Forget(_) => true
    case Shift(id, from, to, _, actor) => id in t.payments && CheckedShift(t, id, from, to, actor)
    case Open(run) => run !in t.runs
    case Row(run, r) => RowFits(t, run, r)
    case Put(run, id) => run in t.runs && t.runs[run].status == R.Open && id in t.payments && id !in t.items
    case Drop(id) => !InLockedRun(t, id)
    case Book(_, _) => false
  }

  /** The writes that the two workers make whatever the stored status is. */
  ghost predicate Blind(w: World, x: Write) {
    match x
    case Shift(id, from, to, _, actor) =>
      && id in w.db.payments && actor == System
      && (|| (from == ValidatedLocal && (to == Rejected || to == UnderReview || to == Prevalidated))
          || (from == Submitting && (to == Sent || to == Settled) && Debited(w.ledger, w.db.payments[id].key)))
    case Book(id, _) => id in w.db.payments && !Debited(w.ledger, w.db.payments[id].key)
    case _ => false
  }

  ghost function WriteAll(w: World, xs: seq<Write>): World
    decreases xs
  {
    if xs == [] then w else WriteAll(Written(w, xs[0]), xs[1..])
  }

  ghost predicate AllChecked(w: World, xs: seq<Write>)
    decreases xs
  {
    xs == [] || (Checked(w, xs[0]) && AllChecked(Written(w, xs[0]), xs[1..]))
  }

  ghost predicate AllFit(w: World, xs: seq<Write>)
    decreases xs
  {
    xs == [] || ((Checked(w, xs[0]) || Blind(w, xs[0])) && AllFit(Written(w, xs[0]), xs[1..]))
  }

  lemma {:induction false} CheckedFit(w: World, xs: seq<Write>)
    requires AllChecked(w, xs)
    ensures AllFit(w, xs)
    decreases xs
  {
    hide Checked, Blind, Written;
    if xs != [] { CheckedFit(Written(w, xs[0]), xs[1..]); }
  }

  lemma OneWrite(w: World, x: Write)
    ensures WriteAll(w, [x]) == Written(w, x)
    ensures AllChecked(w, [x]) <==> Checked(w, x)
    ensures AllFit(w, [x]) <==> Checked(w, x) || Blind(w, x)
  {
    hide Checked, Blind, Written;
    assert [x][1..] == [];
  }

  lemma {:induction false} WritesConcat(w: World, xs: seq<Write>, ys: seq<Write>)
    ensures WriteAll(w, xs + ys) == WriteAll(WriteAll(w, xs), ys)
    ensures AllChecked(w, xs + ys) <==> AllChecked(w, xs) && AllChecked(WriteAll(w, xs), ys)
    ensures AllFit(w, xs + ys) <==> AllFit(w, xs) && AllFit(WriteAll(w, xs), ys)
    decreases xs
  {
    hide Checked, Blind, Written;
    if xs == [] {
      assert xs + ys == ys;
    } else {
      assert (xs + ys)[1..] == xs[1..] + ys;
      WritesConcat(Written(w, xs[0]), xs[1..], ys);
    }
  }

  lemma Prepend(w: World, x: Write, rest: seq<Write>)
    ensures WriteAll(w, [x] + rest) == WriteAll(Written(w, x), rest)
    ensures AllChecked(w, [x] + rest) <==> Checked(w, x) && AllChecked(Written(w, x), rest)
  {
    hide Checked, Written;
    assert ([x] + rest)[1..] == rest;
  }

  // ---- the loops ----

  lemma ApprovalChecked(w: World, id: Id, user: string)
    requires id in w.db.payments && w.db.payments[id].status == Prevalidated
    ensures Checked(w, Shift(id, Prevalidated, Approved, "", User(user)))
  {
  }

  lemma {:induction false} ApprovalWrites(w: World, ids: seq<Id>, user: string) returns (xs: seq<Write>)
    ensures AllChecked(w, xs) && WriteAll(w, xs) == w.(db := ApproveItems(w.db, ids, user).0)
    decreases ids
  {
    hide Checked, Move;
    xs := [];
    if ids != [] && ids[0] in w.db.payments && w.db.payments[ids[0]].status == Prevalidated {
      var x := Shift(ids[0], Prevalidated, Approved, "", User(user));
      ApprovalChecked(w, ids[0], user);
      var rest := ApprovalWrites(Written(w, x), ids[1..], user);
      Prepend(w, x, rest);
      xs := [x] + rest;
    }
  }

  lemma GroupChecked(w: World, run: Id, id: Id)
    requires run in w.db.runs && w.db.runs[run].status == R.Open && id in w.db.payments && id !in w.db.items
    ensures Checked(w, Put(run, id)) && Written(w, Put(run, id)).db.runs == w.db.runs
    ensures Written(w, Put(run, id)) == w.(db := InsertItem(w.db, run, id, ChannelFor(w.db.payments[id].kind)).0)
  {
  }

  lemma {:induction false} GroupWrites(w: World, run: Id, ids: seq<Id>) returns (xs: seq<Write>)
    requires run in w.db.runs && w.db.runs[run].status == R.Open
    ensures AllChecked(w, xs) && WriteAll(w, xs) == w.(db := AttachAll(w.db, run, ids))
    decreases ids
  {
    hide Checked, Written;
    xs := [];
    if ids != [] {
      if ids[0] in w.db.payments && ids[0] !in w.db.items {
        var x := Put(run, ids[0]);
        GroupChecked(w, run, ids[0]);
        var rest := GroupWrites(Written(w, x), run, ids[1..]);
        Prepend(w, x, rest);
        xs := [x] + rest;
      } else {
        xs := GroupWrites(w, run, ids[1..]);
      }
    }
  }

  /** The listed rows that the sweep has not reached yet are still as they were listed. */
  ghost predicate Untouched(t: Tables, listed: map<Id, Payment>, ids: seq<Id>) {
    NoDup(ids) && forall id :: id in ids ==>
      id in listed && id in t.payments && t.payments[id] == listed[id] && listed[id].status == Sent
  }

  lemma ReconcileOthers(t: Tables, id: Id, p: Payment, answers: map<string, Poll>)
    ensures var u := Reconcile(t, id, p, answers);
            u.payments.Keys == t.payments.Keys
            && forall q :: q in t.payments && q != id ==> u.payments[q] == t.payments[q]
  {
  }

  lemma UntouchedStep(t: Tables, listed: map<Id, Payment>, ids: seq<Id>, answers: map<string, Poll>)
    requires ids != [] && Untouched(t, listed, ids)
    ensures Untouched(Reconcile(t, ids[0], listed[ids[0]], answers), listed, ids[1..])
  {
    ReconcileOthers(t, ids[0], listed[ids[0]], answers);
    var u := Reconcile(t, ids[0], listed[ids[0]], answers);
    forall id | id in ids[1..] ensures id in listed && id in u.payments && u.payments[id] == listed[id] {
      assert id in ids && id != ids[0];
    }
  }

  lemma ReconcileWrite(w: World, id: Id, answers: map<string, Poll>) returns (xs: seq<Write>)
    requires id in w.db.payments && w.db.payments[id].status == Sent
    ensures AllChecked(w, xs) && |xs| <= 1
    ensures WriteAll(w, xs) == w.(db := Reconcile(w.db, id, w.db.payments[id], answers))
  {
    var p := w.db.payments[id];
    xs := [];
    if p.kind == Pix && p.bankRef != "" && p.bankRef in answers && CanTransition(Sent, answers[p.bankRef].status) {
      var x := Shift(id, Sent, answers[p.bankRef].status, answers[p.bankRef].ref, System);
      OneWrite(w, x);
      xs := [x];
    }
  }

  lemma {:induction false} SweepWrites(w: World, listed: map<Id, Payment>, ids: seq<Id>, answers: map<string, Poll>)
    returns (xs: seq<Write>)
    requires Untouched(w.db, listed, ids)
    ensures AllChecked(w, xs) && WriteAll(w, xs) == w.(db := ReconcileAll(w.db, listed, ids, answers))
    decreases ids
  {
    hide Checked, Written, Reconcile;
    xs := [];
    if ids != [] {
      assert ids[0] in ids;
      var first := ReconcileWrite(w, ids[0], answers);
      var v := w.(db := Reconcile(w.db, ids[0], listed[ids[0]], answers));
      UntouchedStep(w.db, listed, ids, answers);
      var rest := SweepWrites(v, listed, ids[1..], answers);
      WritesConcat(w, first, rest);
      xs := first + rest;
    }
  }

  /** A self link is a move to the status the payment already has. */
  lemma SelfMove(w: World, id: Id, user: string)
    requires id in w.db.payments
    ensures var s := w.db.payments[id].status;
            && Checked(w, Shift(id, s, s, "", User(user)))
            && Written(w, Shift(id, s, s, "", User(user)))
               == w.(db := LogEvent(w.db, Event(id, Some(s), s, User(user))))
  {
    assert w.db.payments[id := w.db.payments[id]] == w.db.payments;
  }

  lemma {:induction false} SelfLinkWrites(w: World, ids: seq<Id>, user: string) returns (xs: seq<Write>)
    ensures AllChecked(w, xs)
    ensures WriteAll(w, xs) == w.(db := w.db.(events := w.db.events + SelfLinks(w.db.payments, ids, user)))
    decreases ids
  {
    hide Checked, Written;
    xs := [];
    var t := w.db;
    if ids == [] {
      assert t.events + [] == t.events;
    } else if ids[0] in t.payments {
      var s := t.payments[ids[0]].status;
      var e, links := Event(ids[0], Some(s), s, User(user)), SelfLinks(t.payments, ids[1..], user);
      var x := Shift(ids[0], s, s, "", User(user));
      SelfMove(w, ids[0], user);
      var rest := SelfLinkWrites(Written(w, x), ids[1..], user);
      Prepend(w, x, rest);
      xs := [x] + rest;
      assert t.events + ([e] + links) == (t.events + [e]) + links;
    } else {
      xs := SelfLinkWrites(w, ids[1..], user);
    }
  }

  // ---- steps that look before they write ----

  predicate Worker(a: Action) { a.DoPrevalidate? || a.DoSubmitPix? }

  /** At most one checked write leads from w to v. */
  ghost predicate AtMostOne(w: World, v: World) { v == w || exists x :: Checked(w, x) && v == Written(w, x) }

  lemma AtMostOneWrite(w: World, v: World) returns (xs: seq<Write>)
    requires AtMostOne(w, v)
    ensures AllChecked(w, xs) && WriteAll(w, xs) == v
  {
    hide Checked, Written;
    xs := [];
    if v != w {
      var x :| Checked(w, x) && v == Written(w, x);
      OneWrite(w, x);
      xs := [x];
    }
  }

  lemma ExpireWrite(w: World, key: string)
    ensures AtMostOne(w, w.(db := Expire(w.db, key)))
  {
    assert Checked(w, Forget(key)) && w.(db := Expire(w.db, key)) == Written(w, Forget(key));
  }

  lemma IntakeWrite(w: World, x: Input, id: Id)
    ensures AtMostOne(w, w.(db := Receive(w.db, x, id).0))
  {
    hide ValidInput, CanInsert, FindKey;
    if Receive(w.db, x, id).0 != w.db {
      assert Checked(w, Enter(id, x)) && w.(db := Receive(w.db, x, id).0) == Written(w, Enter(id, x));
    }
  }

  lemma CreateWrite(w: World, run: Id)
    ensures AtMostOne(w, w.(db := CreateRun(w.db, run).0))
  {
    if run !in w.db.runs {
      assert Checked(w, Open(run)) && w.(db := CreateRun(w.db, run).0) == Written(w, Open(run));
    }
  }

  lemma AdvanceWrite(w: World, run: Id, to: R.Status)
    requires TotalsOk(w.db)
    ensures AtMostOne(w, w.(db := AdvanceRun(w.db, run, to).0))
  {
    hide ItemIds, AmountSum, CountPix, Wrap32, Wrap64;
    var t := w.db;
    if run in t.runs && t.runs[run].status != R.Open && R.CanTransition(t.runs[run].status, to) {
      var r := t.runs[run].(status := to);
      assert R.Locked(to) ==> IsLocked(t, run);
      assert Checked(w, Row(run, r)) && w.(db := AdvanceRun(t, run, to).0) == Written(w, Row(run, r));
    }
  }

  lemma AttachWrite(w: World, run: Id, id: Id)
    ensures AtMostOne(w, w.(db := Attach(w.db, run, id).0))
  {
    if Attach(w.db, run, id).1 == Done {
      assert Checked(w, Put(run, id)) && w.(db := Attach(w.db, run, id).0) == Written(w, Put(run, id));
    }
  }

  lemma DetachWrite(w: World, run: Id, id: Id)
    ensures AtMostOne(w, w.(db := Detach(w.db, run, id).0))
  {
    if Detach(w.db, run, id).0 != w.db {
      assert Checked(w, Drop(id)) && w.(db := Detach(w.db, run, id).0) == Written(w, Drop(id));
    }
  }

  /** An operator's move over a table edge, from a status that is not with the bank. */
  lemma OperatorWrite(w: World, id: Id, user: string)
    ensures AtMostOne(w, w.(db := Hold(w.db, id, user).0)) && AtMostOne(w, w.(db := Unhold(w.db, id, user).0))
    ensures AtMostOne(w, w.(db := Cancel(w.db, id, user).0)) && AtMostOne(w, w.(db := Reject(w.db, id, user).0))
  {
    hide Move;
    if id in w.db.payments {
      var s, u := w.db.payments[id].status, User(user);
      if s == Approved { assert Checked(w, Shift(id, s, OnHold, "", u)); }
      if s == OnHold { assert Checked(w, Shift(id, s, Approved, "", u)); }
      if CanTransition(s, Canceled) {
        assert Checked(w, Shift(id, s, Canceled, "", u));
        assert w.(db := Cancel(w.db, id, user).0) == Written(w, Shift(id, s, Canceled, "", u));
      }
      if CanTransition(s, Rejected) {
        assert Checked(w, Shift(id, s, Rejected, "", u));
        assert w.(db := Reject(w.db, id, user).0) == Written(w, Shift(id, s, Rejected, "", u));
      }
      assert s == Approved ==> w.(db := Hold(w.db, id, user).0) == Written(w, Shift(id, s, OnHold, "", u));
      assert s == OnHold ==> w.(db := Unhold(w.db, id, user).0) == Written(w, Shift(id, s, Approved, "", u));
    }
  }

  lemma WebhookWrite(w: World, ref: string, text: string, endToEnd: string)
    ensures AtMostOne(w, w.(db := Webhook(w.db, ref, text, endToEnd).0))
  {
    hide Selected, Move;
    ListedMembers(w.db, Sent, WEBHOOK_LIMIT);
    FindRefMember(w.db.payments, ListByStatus(w.db, Sent, WEBHOOK_LIMIT), ref);
    hide FindRef, ListByStatus;
    match FindRef(w.db.payments, ListByStatus(w.db, Sent, WEBHOOK_LIMIT), ref) {
      case None =>
      case Some(id) =>
        if Webhook(w.db, ref, text, endToEnd).0 != w.db {
          var x := Shift(id, Sent, Classified(text).value, endToEnd, Bank);
          assert Checked(w, x) && w.(db := Webhook(w.db, ref, text, endToEnd).0) == Written(w, x);
        }
    }
  }

  lemma RescheduleWrites(w: World, id: Id, user: string) returns (xs: seq<Write>)
    requires ItemsOk(w.db)
    ensures AllChecked(w, xs) && WriteAll(w, xs) == w.(db := Reschedule(w.db, id, user).0)
  {
    hide Move;
    xs := [];
    var t := w.db;
    if id in t.payments && Reschedulable(t.payments[id].status) && !InLockedRun(t, id) {
      var x, y := Drop(id), Shift(id, t.payments[id].status, Prevalidated, "", User(user));
      var v := Written(w, x);
      assert Checked(w, x) && Checked(v, y) && w.(db := Reschedule(t, id, user).0) == Written(v, y);
      hide Checked, Written;
      OneWrite(v, y);
      Prepend(w, x, [y]);
      xs := [x] + [y];
    }
  }

  lemma AutoGroupWrites(w: World, run: Id) returns (xs: seq<Write>)
    ensures AllChecked(w, xs) && WriteAll(w, xs) == w.(db := AutoGroup(w.db, run).0)
  {
    hide AttachAll, ListByStatus;
    xs := [];
    var ids := ListByStatus(w.db, Prevalidated, GROUP_LIMIT);
    if ids != [] && run !in w.db.runs {
      var x := Open(run);
      var rest := GroupWrites(Written(w, x), run, ids);
      Prepend(w, x, rest);
      xs := [x] + rest;
    }
  }

  /** What the approval loop leaves alone. */
  ghost predicate OnlyStatuses(t: Tables, u: Tables) {
    u.runs == t.runs && u.items == t.items && u.newestFirst == t.newestFirst && u.requests == t.requests
    && u.payers == t.payers && SameMoney(t.payments, u.payments)
  }

  lemma MoveOnlyStatuses(t: Tables, id: Id, from: Status, to: Status, ref: string, actor: Actor)
    requires id in t.payments
    ensures OnlyStatuses(t, Move(t, id, from, to, ref, actor))
  {
  }

  /** The loop changes statuses only, and stops successfully only after approving every listed payment. */
  lemma {:induction false} ApproveItemsDone(t: Tables, ids: seq<Id>, user: string)
    ensures OnlyStatuses(t, ApproveItems(t, ids, user).0)
    ensures ApproveItems(t, ids, user).1 == Done ==> AllListedApproved(ApproveItems(t, ids, user).0, ids)
    ensures forall id :: id in t.payments && t.payments[id].status == Approved ==>
              && id in ApproveItems(t, ids, user).0.payments
              && ApproveItems(t, ids, user).0.payments[id].status == Approved
    decreases ids
  {
    if ids != [] && ids[0] in t.payments && t.payments[ids[0]].status == Prevalidated {
      assert ids == [ids[0]] + ids[1..];
      MoveOnlyStatuses(t, ids[0], Prevalidated, Approved, "", User(user));
      ApproveItemsDone(Move(t, ids[0], Prevalidated, Approved, "", User(user)), ids[1..], user);
    }
  }

  ghost predicate AllListedApproved(t: Tables, ids: seq<Id>) {
    forall id :: id in ids ==> id in t.payments && t.payments[id].status == Approved
  }

  lemma ApproveRowFits(w: World, run: Id, user: string)
    requires Approve(w.db, run, user).1 == Done
    ensures var t1 := ApproveItems(w.db, ItemIds(w.db.items, run), user).0;
            && run in Approve(w.db, run, user).0.runs
            && RowFits(t1, run, Approve(w.db, run, user).0.runs[run])
            && Approve(w.db, run, user).0 == t1.(runs := t1.runs[run := Approve(w.db, run, user).0.runs[run]])
  {
    hide ApproveItems, ItemIds, AmountSum, CountPix, Wrap32, Wrap64;
    var t, ids := w.db, ItemIds(w.db.items, run);
    var t1 := ApproveItems(t, ids, user).0;
    ApproveItemsDone(t, ids, user);
    ItemIdsMembers(t.items, run);
    SumsFrame(t.payments, t1.payments, ids);
  }

  lemma ApproveWrites(w: World, run: Id, user: string) returns (xs: seq<Write>)
    ensures AllChecked(w, xs) && WriteAll(w, xs) == w.(db := Approve(w.db, run, user).0)
  {
    xs := [];
    var t := w.db;
    if run in t.runs && R.CanTransition(t.runs[run].status, R.Approved) {
      xs := ApprovalWrites(w, ItemIds(t.items, run), user);
      if Approve(t, run, user).1 == Done {
        ApproveRowFits(w, run, user);
        var v, x := WriteAll(w, xs), Row(run, Approve(t, run, user).0.runs[run]);
        assert Checked(v, x) && Written(v, x) == w.(db := Approve(t, run, user).0);
        hide Checked, Written;
        OneWrite(v, x);
        WritesConcat(w, xs, [x]);
        xs := xs + [x];
      }
    }
  }

  lemma SubmitToBankWrites(w: World, run: Id, user: string) returns (xs: seq<Write>)
    requires TotalsOk(w.db)
    ensures AllChecked(w, xs) && WriteAll(w, xs) == w.(db := SubmitToBank(w.db, run, user).0)
  {
    hide ItemIds, AmountSum, CountPix, Wrap32, Wrap64, SelfLinks;
    xs := [];
    var t := w.db;
    if run in t.runs && t.runs[run].status == R.Approved {
      var x := Row(run, t.runs[run].(status := R.Executing));
      assert IsLocked(t, run);
      assert Checked(w, x);
      var rest := SelfLinkWrites(Written(w, x), ItemIds(t.items, run), user);
      Prepend(w, x, rest);
      xs := [x] + rest;
    }
  }

  lemma SweepAllWrites(w: World, answers: map<string, Poll>) returns (xs: seq<Write>)
    requires RowsOk(w.db)
    ensures AllChecked(w, xs) && WriteAll(w, xs) == w.(db := Sweep(w.db, answers))
  {
    ListedMembers(w.db, Sent, SWEEP_LIMIT);
    xs := SweepWrites(w, w.db.payments, ListByStatus(w.db, Sent, SWEEP_LIMIT), answers);
  }

  /** The steps whose checks depend on what the tables satisfy. */
  predicate Relying(a: Action) { a.DoAdvanceRun? || a.DoReschedule? || a.DoSubmitToBank? || a.DoSweep? }

  /** The other steps but those of the two workers are sequences of checked writes on any tables. */
  lemma PlainWrites(w: World, a: Action) returns (xs: seq<Write>)
    requires !Worker(a) && !Relying(a)
    ensures AllChecked(w, xs) && WriteAll(w, xs) == Apply(w, a)
  {
    hide Checked, Written, AtMostOne, Receive, Expire, CreateRun, Attach, Detach, AutoGroup, Approve, Hold, Unhold,
      Cancel, Reject, Webhook;
    match a {
      case DoReceive(x, id) => IntakeWrite(w, x, id); xs := AtMostOneWrite(w, Apply(w, a));
      case DoExpire(key) => ExpireWrite(w, key); xs := AtMostOneWrite(w, Apply(w, a));
      case DoCreateRun(run) => CreateWrite(w, run); xs := AtMostOneWrite(w, Apply(w, a));
      case DoAttach(run, id) => AttachWrite(w, run, id); xs := AtMostOneWrite(w, Apply(w, a));
      case DoDetach(run, id) => DetachWrite(w, run, id); xs := AtMostOneWrite(w, Apply(w, a));
      case DoHold(id, user) => OperatorWrite(w, id, user); xs := AtMostOneWrite(w, Apply(w, a));
      case DoUnhold(id, user) => OperatorWrite(w, id, user); xs := AtMostOneWrite(w, Apply(w, a));
      case DoCancel(id, user) => OperatorWrite(w, id, user); xs := AtMostOneWrite(w, Apply(w, a));
      case DoReject(id, user) => OperatorWrite(w, id, user); xs := AtMostOneWrite(w, Apply(w, a));
      case DoWebhook(ref, text, end) => WebhookWrite(w, ref, text, end); xs := AtMostOneWrite(w, Apply(w, a));
      case DoAutoGroup(run) => xs := AutoGroupWrites(w, run);
      case DoApprove(run, user) => xs := ApproveWrites(w, run, user);
    }
  }

  /** Every step but those of the two workers is a sequence of checked writes. */
  lemma CheckedWrites(w: World, a: Action) returns (xs: seq<Write>)
    requires Core(w) && !Worker(a)
    ensures AllChecked(w, xs) && WriteAll(w, xs) == Apply(w, a)
  {
    hide Checked, Written, AtMostOne, AdvanceRun, Reschedule, SubmitToBank, Sweep;
    if !Relying(a) {
      xs := PlainWrites(w, a);
    } else {
      match a {
        case DoAdvanceRun(run, to) => AdvanceWrite(w, run, to); xs := AtMostOneWrite(w, Apply(w, a));
        case DoReschedule(id, user) => xs := RescheduleWrites(w, id, user);
        case DoSubmitToBank(run, user) => xs := SubmitToBankWrites(w, run, user);
        case DoSweep(answers) => xs := SweepAllWrites(w, answers);
      }
    }
  }

  // ---- the two workers ----

  predicate AsksBank(p: Payment) { p.kind == Pix && p.payeeMethod == PixKey }

  /** The attempt ends in an error and is retried later. */
  predicate NoVerdict(p: Payment, dict: DictReply, rules: RulesReply) {
    if AsksBank(p) && dict == DictError then true
    else if AsksBank(p) && dict == DictReject then false
    else rules == RulesError
  }

  function Verdict(p: Payment, dict: DictReply, rules: RulesReply): Status {
    if (AsksBank(p) && dict == DictReject) || rules == RulesReject then Rejected
    else if rules == RulesReview then UnderReview
    else Prevalidated
  }

  function VerdictShift(id: Id, p: Payment, dict: DictReply, rules: RulesReply): Write {
    Shift(id, ValidatedLocal, Verdict(p, dict, rules), "", System)
  }

  /** The checked first write of a worker, if the payment has the status for it. */
  ghost function FirstWrite(w: World, id: Id, from: Status, to: Status): World
    requires id in w.db.payments
  {
    if w.db.payments[id].status == from then Written(w, Shift(id, from, to, "", System)) else w
  }

  /** The prevalidation worker: a checked first write, then the verdict whatever the stored status is. */
  lemma PrevalidateWrites(w: World, id: Id, dict: DictReply, rules: RulesReply)
    requires id in w.db.payments
    ensures var (p, v) := (w.db.payments[id], FirstWrite(w, id, Received, ValidatedLocal));
            Apply(w, DoPrevalidate(id, dict, rules)) ==
            if NoVerdict(p, dict, rules) then v else Written(v, VerdictShift(id, p, dict, rules))
  {
    hide Move;
    MovedStored(w.db, id, Received, ValidatedLocal, "", System);
  }

  lemma MovedStored(t: Tables, id: Id, from: Status, to: Status, ref: string, actor: Actor)
    requires id in t.payments
    ensures var u := Move(t, id, from, to, ref, actor);
            id in u.payments && u.payments[id] == t.payments[id].(status := to, bankRef := u.payments[id].bankRef)
  {
  }

  function AnswerShift(id: Id, call: BankCall): Write
    requires AnswersOk(call)
  {
    Shift(id, Submitting, if call.settled then Settled else Sent, call.ref, System)
  }

  /** The bank's book after the call: one more debit, unless it was not reached or knows the key. */
  ghost function Booked(w: World, id: Id, call: BankCall): World
    requires id in w.db.payments
  {
    if call == Unreached || Debited(w.ledger, w.db.payments[id].key) then w else Written(w, Book(id, call.ref))
  }

  /** The submission worker: a checked first write, the booking at the bank, then the answer. */
  lemma SubmitPixWrites(w: World, id: Id, call: BankCall)
    requires id in w.db.payments && w.db.payments[id].key != ""
    ensures var v := FirstWrite(w, id, Approved, Submitting);
            && id in v.db.payments
            && Apply(w, DoSubmitPix(id, call)) ==
               if AnswersOk(call) then Written(Booked(v, id, call), AnswerShift(id, call)) else Booked(v, id, call)
  {
    hide Move, BankSend;
    var p := w.db.payments[id];
    MovedStored(w.db, id, Approved, Submitting, "", System);
    BankBooks(w.ledger, p.key, p.amount, call);
    AnswerAsGiven(w.ledger, p.key, p.amount, call);
    assert !AnswersOk(call) ==> BankSend(w.ledger, p.key, p.amount, call).1 == BankError;
  }

  lemma AnswerAsGiven(ledger: seq<Debit>, key: string, amount: int64, call: BankCall)
    requires key != ""
    ensures AnswersOk(call) ==> BankSend(ledger, key, amount, call).1 == BankOk(call.ref, call.settled)
  {
  }

  lemma FirstWriteChecked(w: World, id: Id)
    requires id in w.db.payments
    ensures var s := w.db.payments[id].status;
            && (s == Received ==> Checked(w, Shift(id, Received, ValidatedLocal, "", System)))
            && (s == Approved ==> Checked(w, Shift(id, Approved, Submitting, "", System)))
  {
  }

  lemma AnswerDebited(w: World, id: Id, call: BankCall)
    requires id in w.db.payments && call != Unreached
    ensures Debited(Booked(w, id, call).ledger, w.db.payments[id].key) && Booked(w, id, call).db == w.db
  {
    var v := Booked(w, id, call);
    if v != w { assert v.ledger[|v.ledger| - 1] in v.ledger; }
  }

  lemma FirstWrites(w: World, id: Id, from: Status, to: Status) returns (xs: seq<Write>)
    requires id in w.db.payments
    requires (from == Received && to == ValidatedLocal) || (from == Approved && to == Submitting)
    ensures AllFit(w, xs) && WriteAll(w, xs) == FirstWrite(w, id, from, to)
    ensures id in FirstWrite(w, id, from, to).db.payments
  {
    hide Checked, Move, Blind;
    xs := [];
    FirstWriteChecked(w, id);
    MovedStored(w.db, id, from, to, "", System);
    if w.db.payments[id].status == from {
      var x := Shift(id, from, to, "", System);
      OneWrite(w, x);
      xs := [x];
    }
  }

  lemma OneBlind(v: World, x: Write) returns (xs: seq<Write>)
    requires Blind(v, x)
    ensures AllFit(v, xs) && WriteAll(v, xs) == Written(v, x)
  {
    hide Checked, Blind, Written;
    OneWrite(v, x);
    xs := [x];
  }

  lemma BookedWrites(v: World, id: Id, call: BankCall) returns (xs: seq<Write>)
    requires id in v.db.payments
    ensures AllFit(v, xs) && WriteAll(v, xs) == Booked(v, id, call)
  {
    xs := [];
    if Booked(v, id, call) != v { xs := OneBlind(v, Book(id, call.ref)); }
  }

  lemma VerdictWrites(v: World, id: Id, x: Write) returns (xs: seq<Write>)
    requires id in v.db.payments && x.Shift? && x.id == id && x.from == ValidatedLocal && x.actor == System
    requires x.to == Rejected || x.to == UnderReview || x.to == Prevalidated
    ensures AllFit(v, xs) && WriteAll(v, xs) == Written(v, x)
  {
    xs := OneBlind(v, x);
  }

  lemma AnswerWrites(v: World, id: Id, call: BankCall) returns (xs: seq<Write>)
    requires id in v.db.payments && AnswersOk(call)
    ensures var u := Booked(v, id, call); AllFit(u, xs) && WriteAll(u, xs) == Written(u, AnswerShift(id, call))
  {
    AnswerDebited(v, id, call);
    xs := OneBlind(Booked(v, id, call), AnswerShift(id, call));
  }

  lemma WorkerWrites(w: World, a: Action) returns (xs: seq<Write>)
    requires RowsOk(w.db) && Worker(a)
    ensures AllFit(w, xs) && WriteAll(w, xs) == Apply(w, a)
  {
    hide Checked, Blind, Written, Prevalidate, SubmitPix, FirstWrite, Booked, VerdictShift, AnswerShift;
    if a.id !in w.db.payments {
      xs := [];
      MissingUntouched(w, a);
    } else if a.DoPrevalidate? {
      var p, v := w.db.payments[a.id], FirstWrite(w, a.id, Received, ValidatedLocal);
      PrevalidateWrites(w, a.id, a.dict, a.rules);
      xs := FirstWrites(w, a.id, Received, ValidatedLocal);
      if !NoVerdict(p, a.dict, a.rules) {
        VerdictForm(a.id, p, a.dict, a.rules);
        var rest := VerdictWrites(v, a.id, VerdictShift(a.id, p, a.dict, a.rules));
        WritesConcat(w, xs, rest);
        xs := xs + rest;
      }
    } else {
      var v := FirstWrite(w, a.id, Approved, Submitting);
      assert RowOk(w.db.payments[a.id]);
      SubmitPixWrites(w, a.id, a.call);
      xs := FirstWrites(w, a.id, Approved, Submitting);
      var booking := BookedWrites(v, a.id, a.call);
      WritesConcat(w, xs, booking);
      xs := xs + booking;
      if AnswersOk(a.call) {
        var rest := AnswerWrites(v, a.id, a.call);
        WritesConcat(w, xs, rest);
        xs := xs + rest;
      }
    }
  }

  lemma VerdictForm(id: Id, p: Payment, dict: DictReply, rules: RulesReply)
    ensures var x := VerdictShift(id, p, dict, rules);
            && x.Shift? && x.id == id && x.from == ValidatedLocal && x.actor == System
            && (x.to == Rejected || x.to == UnderReview || x.to == Prevalidated)
  {
  }

  lemma MissingUntouched(w: World, a: Action)
    requires Worker(a) && a.id !in w.db.payments
    ensures Apply(w, a) == w
  {
  }

  /** Every step is a sequence of writes that are checked, or one of the workers' blind ones. */
  lemma StepWrites(w: World, a: Action) returns (xs: seq<Write>)
    requires Core(w)
    ensures AllFit(w, xs) && WriteAll(w, xs) == Apply(w, a)
  {
    hide Apply, AllChecked, AllFit, WriteAll, KeysOk, RowsOk, ItemsOk, TotalsOk, MemoryOk, BookOk;
    if Worker(a) {
      xs := WorkerWrites(w, a);
    } else {
      xs := CheckedWrites(w, a);
      CheckedFit(w, xs);
    }
  }
}
