/**
 Webhooks and reconciliation sweeps together: any order and duplication of the two, as long as the
 bank does not contradict itself about a payment.
 */
module BankNotices {
  import opened Collections
  import opened PaymentStatus
  import opened Hub
  import opened HubLists
  import opened HubInvariant
  import opened HubWrites

  datatype Notice =
    | Delivery(ref: string, text: string, endToEnd: string)
    | Polling(answers: map<string, Poll>)

  function Receipt(t: Tables, n: Notice): Tables {
    match n
    case Delivery(ref, text, endToEnd) => Webhook(t, ref, text, endToEnd).0
    case Polling(answers) => Sweep(t, answers)
  }

  function Receipts(t: Tables, notices: seq<Notice>): Tables
    decreases notices
  {
    if notices == [] then t else Receipts(Receipt(t, notices[0]), notices[1..])
  }

  predicate IsSent(t: Tables, id: Id) { id in t.payments && t.payments[id].status == Sent }

  /** What a notice says about a reference, if it says anything final. */
  function Says(n: Notice, ref: string): Option<Status> {
    match n
    case Delivery(r, text, _) => if r == ref then Classified(text) else None
    case Polling(answers) =>
      if ref in answers && CanTransition(Sent, answers[ref].status) then Some(answers[ref].status) else None
  }

  /** The bank's fixed verdicts: each sent payment will be reported as `v[id]` or not at all. */
  ghost predicate Consistent(t: Tables, v: map<Id, Status>, notices: seq<Notice>) {
    && (forall id :: IsSent(t, id) ==> id in v && (v[id] == Settled || v[id] == Failed))
    && (forall n, id :: n in notices && IsSent(t, id) && Says(n, t.payments[id].bankRef).Some? ==>
          Says(n, t.payments[id].bankRef) == Some(v[id]))
  }

  /** Events of one payment. */
  function EventsOf(events: seq<Event>, id: Id): nat {
    if events == [] then 0
    else EventsOf(events[..|events| - 1], id) + if events[|events| - 1].payment == id then 1 else 0
  }

  /** Relative to the state t0, the payment is as it was, or it left SENT once, for its verdict. */
  ghost predicate AtMostOnce(t0: Tables, v: map<Id, Status>, t: Tables, id: Id) {
    && id in t.payments && id in t0.payments
    && if t.payments[id] == t0.payments[id] then EventsOf(t.events, id) == EventsOf(t0.events, id)
       else IsSent(t0, id) && id in v && t.payments[id].status == v[id]
            && EventsOf(t.events, id) == EventsOf(t0.events, id) + 1
  }

  ghost predicate Progress(t0: Tables, v: map<Id, Status>, t: Tables) {
    && t.payments.Keys == t0.payments.Keys && t.newestFirst == t0.newestFirst
    && forall id :: id in t0.payments ==> AtMostOnce(t0, v, t, id)
  }

  lemma MoveProgress(t0: Tables, v: map<Id, Status>, t: Tables, id: Id, to: Status, ref: string, actor: Actor)
    requires Progress(t0, v, t) && IsSent(t, id)
    requires forall q :: IsSent(t0, q) ==> q in v && v[q] != Sent
    requires id in v && to == v[id]
    ensures Progress(t0, v, Move(t, id, Sent, to, ref, actor))
  {
    var u := Move(t, id, Sent, to, ref, actor);
    assert AtMostOnce(t0, v, t, id);
    assert t.payments[id] == t0.payments[id];
    assert IsSent(t0, id);
    forall q | q in t0.payments ensures AtMostOnce(t0, v, u, q) {
      assert AtMostOnce(t0, v, t, q);
      assert u.events[..|u.events| - 1] == t.events;
    }
  }

  lemma StillSent(t0: Tables, v: map<Id, Status>, t: Tables, id: Id)
    requires Progress(t0, v, t) && IsSent(t, id)
    requires forall q :: IsSent(t0, q) ==> q in v && v[q] != Sent
    ensures IsSent(t0, id) && t.payments[id] == t0.payments[id]
  {
    assert id in t0.payments.Keys;
    assert AtMostOnce(t0, v, t, id);
  }

  lemma WebhookProgress(t0: Tables, v: map<Id, Status>, t: Tables, n: Notice)
    requires Progress(t0, v, t) && Consistent(t0, v, [n]) && n.Delivery?
    ensures Progress(t0, v, Receipt(t, n))
  {
    hide Progress, AtMostOnce;
    var ids := ListByStatus(t, Sent, WEBHOOK_LIMIT);
    ListedMembers(t, Sent, WEBHOOK_LIMIT);
    FindRefMember(t.payments, ids, n.ref);
    match FindRef(t.payments, ids, n.ref) {
      case None =>
      case Some(id) =>
        StillSent(t0, v, t, id);
        assert n in [n];
        if n.ref != "" && Classified(n.text).Some? {
          assert Says(n, t0.payments[id].bankRef) == Classified(n.text);
          MoveProgress(t0, v, t, id, v[id], n.endToEnd, Bank);
        }
    }
  }

  lemma ReconcileProgress(t0: Tables, v: map<Id, Status>, t: Tables, id: Id, n: Notice)
    requires Progress(t0, v, t) && Consistent(t0, v, [n]) && n.Polling? && IsSent(t, id)
    ensures Progress(t0, v, Reconcile(t, id, t.payments[id], n.answers))
  {
    hide Progress, AtMostOnce;
    StillSent(t0, v, t, id);
    assert n in [n];
    var ref := t.payments[id].bankRef;
    if ref in n.answers && CanTransition(Sent, n.answers[ref].status) {
      assert Says(n, t0.payments[id].bankRef) == Some(n.answers[ref].status);
      MoveProgress(t0, v, t, id, v[id], n.answers[ref].ref, System);
    }
  }

  lemma {:induction false} ReconcileAllProgress(
    t0: Tables, v: map<Id, Status>, t: Tables, listed: map<Id, Payment>, ids: seq<Id>, n: Notice)
    requires Progress(t0, v, t) && Consistent(t0, v, [n]) && n.Polling? && Untouched(t, listed, ids)
    ensures Progress(t0, v, ReconcileAll(t, listed, ids, n.answers))
    decreases ids
  {
    hide Progress, AtMostOnce, Consistent, Reconcile;
    if ids != [] {
      assert ids[0] in ids;
      ReconcileProgress(t0, v, t, ids[0], n);
      UntouchedStep(t, listed, ids, n.answers);
      ReconcileAllProgress(t0, v, Reconcile(t, ids[0], listed[ids[0]], n.answers), listed, ids[1..], n);
    }
  }

  lemma ReceiptProgress(t0: Tables, v: map<Id, Status>, t: Tables, n: Notice)
    requires RowsOk(t0) && Progress(t0, v, t) && Consistent(t0, v, [n])
    ensures Progress(t0, v, Receipt(t, n))
  {
    hide AtMostOnce;
    match n {
      case Delivery(_, _, _) => WebhookProgress(t0, v, t, n);
      case Polling(answers) =>
        ListedMembers(t, Sent, SWEEP_LIMIT);
        ReconcileAllProgress(t0, v, t, t.payments, ListByStatus(t, Sent, SWEEP_LIMIT), n);
    }
  }

  lemma ConsistentPart(t: Tables, v: map<Id, Status>, notices: seq<Notice>, part: seq<Notice>)
    requires Consistent(t, v, notices) && forall n :: n in part ==> n in notices
    ensures Consistent(t, v, part)
  {
    hide Says;
    forall n, id | n in part && IsSent(t, id) && Says(n, t.payments[id].bankRef).Some?
      ensures Says(n, t.payments[id].bankRef) == Some(v[id])
    {
      assert n in notices;
    }
  }

  lemma {:induction false} ReceiptsProgress(t0: Tables, v: map<Id, Status>, t: Tables, notices: seq<Notice>)
    requires RowsOk(t0) && Progress(t0, v, t) && Consistent(t0, v, notices)
    ensures Progress(t0, v, Receipts(t, notices))
    decreases notices
  {
    hide Progress, Receipt, Says;
    if notices != [] {
      assert notices == [notices[0]] + notices[1..];
      ConsistentPart(t0, v, notices, [notices[0]]);
      ConsistentPart(t0, v, notices, notices[1..]);
      ReceiptProgress(t0, v, t, notices[0]);
      ReceiptsProgress(t0, v, Receipt(t, notices[0]), notices[1..]);
    }
  }

  /**
   Under any order, duplication and mixture of consistent notices, a payment that was not SENT is
   untouched, and one that was SENT ends as SENT with no new event, or as its verdict with exactly
   one.
   */
  lemma NoticesAgree(t: Tables, v: map<Id, Status>, notices: seq<Notice>, id: Id)
    requires RowsOk(t) && Consistent(t, v, notices) && id in t.payments
    ensures var u := Receipts(t, notices);
            && id in u.payments
            && (!IsSent(t, id) ==> u.payments[id] == t.payments[id])
            && (IsSent(t, id) ==> u.payments[id].status == Sent || u.payments[id].status == v[id])
            && EventsOf(u.events, id) == EventsOf(t.events, id) + (if u.payments[id] == t.payments[id] then 0 else 1)
            && (u.payments[id] == t.payments[id] <==> u.payments[id].status == t.payments[id].status)
  {
    assert forall q :: q in t.payments ==> AtMostOnce(t, v, t, q);
    ReceiptsProgress(t, v, t, notices);
    assert AtMostOnce(t, v, Receipts(t, notices), id);
  }

  // ---- one complete sweep ----

  /** The sweep's effect on one listed row. */
  function PolledRow(p: Payment, answers: map<string, Poll>): Payment {
    if p.kind == Pix && p.bankRef != "" && p.bankRef in answers && CanTransition(p.status, answers[p.bankRef].status)
       && answers[p.bankRef].status != p.status
    then p.(status := answers[p.bankRef].status,
            bankRef := if answers[p.bankRef].ref == "" then p.bankRef else answers[p.bankRef].ref)
    else p
  }

  lemma ReconcileRow(t: Tables, id: Id, answers: map<string, Poll>)
    requires id in t.payments
    ensures var u := Reconcile(t, id, t.payments[id], answers);
            u.payments == t.payments[id := PolledRow(t.payments[id], answers)]
            && (PolledRow(t.payments[id], answers) == t.payments[id] ==> u == t)
            && u.newestFirst == t.newestFirst
  {
    var p := t.payments[id];
    if PolledRow(p, answers) == p { assert t.payments[id := p] == t.payments; }
  }

  /** The loop applies the poll to each listed payment once and to nothing else. */
  lemma {:induction false} ReconcileAllExact(
    t: Tables, listed: map<Id, Payment>, ids: seq<Id>, answers: map<string, Poll>)
    requires Untouched(t, listed, ids)
    ensures var u := ReconcileAll(t, listed, ids, answers);
            && u.payments.Keys == t.payments.Keys && u.newestFirst == t.newestFirst
            && (forall id :: id in t.payments ==>
                  u.payments[id] == if id in ids then PolledRow(t.payments[id], answers) else t.payments[id])
            && ((forall id :: id in ids ==> PolledRow(t.payments[id], answers) == t.payments[id]) ==> u == t)
    decreases ids
  {
    hide Reconcile, PolledRow;
    if ids != [] {
      assert ids[0] in ids && t.payments[ids[0]] == listed[ids[0]];
      assert ids == [ids[0]] + ids[1..];
      ReconcileRow(t, ids[0], answers);
      UntouchedStep(t, listed, ids, answers);
      ReconcileAllExact(Reconcile(t, ids[0], listed[ids[0]], answers), listed, ids[1..], answers);
    }
  }

  /** The sent payments, newest first. */
  function AllSent(t: Tables): seq<Id> { Selected(t.payments, t.newestFirst, Sent) }

  /** One sweep applies the poll to each of the newest 500 sent payments and to nothing else. */
  lemma SweepExact(t: Tables, answers: map<string, Poll>)
    requires RowsOk(t)
    ensures var (u, listed) := (Sweep(t, answers), Take(AllSent(t), 500));
            && u.payments.Keys == t.payments.Keys && u.newestFirst == t.newestFirst
            && (forall id :: id in listed ==> IsSent(t, id))
            && forall id :: id in t.payments ==>
                 u.payments[id] == if id in listed then PolledRow(t.payments[id], answers) else t.payments[id]
  {
    hide PolledRow;
    SelectedMembers(t.payments, t.newestFirst, Sent);
    ReconcileAllExact(t, t.payments, ListByStatus(t, Sent, SWEEP_LIMIT), answers);
  }

  /** An error-free sweep brings each listed PIX payment with a reference to its polled status. */
  lemma SweepReachesBank(t: Tables, answers: map<string, Poll>, id: Id)
    requires RowsOk(t) && id in Take(AllSent(t), 500) && id in t.payments
    requires t.payments[id].kind == Pix && t.payments[id].bankRef != "" && t.payments[id].bankRef in answers
    requires var s := answers[t.payments[id].bankRef].status; s == Sent || s == Settled || s == Failed
    ensures id in Sweep(t, answers).payments
    ensures Sweep(t, answers).payments[id].status == answers[t.payments[id].bankRef].status
  {
    SweepExact(t, answers);
  }

  /** One event of the system for each payment that its poll moves, in list order. */
  function PollEvents(payments: map<Id, Payment>, ids: seq<Id>, answers: map<string, Poll>): seq<Event> {
    if ids == [] then []
    else if ids[0] in payments && PolledRow(payments[ids[0]], answers) != payments[ids[0]]
    then [Event(ids[0], Some(payments[ids[0]].status), PolledRow(payments[ids[0]], answers).status, System)]
         + PollEvents(payments, ids[1..], answers)
    else PollEvents(payments, ids[1..], answers)
  }

  lemma {:induction false} PollEventsFrame(
    a: map<Id, Payment>, b: map<Id, Payment>, ids: seq<Id>, answers: map<string, Poll>)
    requires forall id :: id in ids ==> id in a && id in b && a[id] == b[id]
    ensures PollEvents(a, ids, answers) == PollEvents(b, ids, answers)
  {
    hide PolledRow;
    if ids != [] {
      assert ids[0] in ids && forall id :: id in ids[1..] ==> id in ids;
      PollEventsFrame(a, b, ids[1..], answers);
    }
  }

  lemma ReconcileEvent(t: Tables, id: Id, answers: map<string, Poll>)
    requires id in t.payments
    ensures var p := t.payments[id];
            Reconcile(t, id, p, answers).events ==
            t.events + if PolledRow(p, answers) == p then []
                       else [Event(id, Some(p.status), PolledRow(p, answers).status, System)]
  {
  }

  lemma {:induction false} ReconcileAllEvents(
    t: Tables, listed: map<Id, Payment>, ids: seq<Id>, answers: map<string, Poll>)
    requires Untouched(t, listed, ids)
    ensures ReconcileAll(t, listed, ids, answers).events == t.events + PollEvents(t.payments, ids, answers)
    decreases ids
  {
    hide Reconcile, PolledRow;
    if ids != [] {
      assert ids[0] in ids;
      var u := Reconcile(t, ids[0], listed[ids[0]], answers);
      ReconcileEvent(t, ids[0], answers);
      ReconcileOthers(t, ids[0], listed[ids[0]], answers);
      UntouchedStep(t, listed, ids, answers);
      ReconcileAllEvents(u, listed, ids[1..], answers);
      forall id | id in ids[1..] ensures id in t.payments && id in u.payments && u.payments[id] == t.payments[id] {
        assert id in ids && id != ids[0];
      }
      PollEventsFrame(t.payments, u.payments, ids[1..], answers);
    }
  }

  /** A sweep logs exactly the moves it makes. */
  lemma SweepLogs(t: Tables, answers: map<string, Poll>)
    requires RowsOk(t)
    ensures Sweep(t, answers).events == t.events + PollEvents(t.payments, Take(AllSent(t), 500), answers)
  {
    ListedMembers(t, Sent, SWEEP_LIMIT);
    ReconcileAllEvents(t, t.payments, ListByStatus(t, Sent, SWEEP_LIMIT), answers);
  }

  // ---- lists without some of their members ----

  function Without(ids: seq<Id>, gone: set<Id>): (kept: seq<Id>)
    ensures |kept| <= |ids|
  {
    if ids == [] then [] else (if ids[0] in gone then [] else [ids[0]]) + Without(ids[1..], gone)
  }

  lemma {:induction false} WithoutMembers(ids: seq<Id>, gone: set<Id>)
    ensures forall id :: id in Without(ids, gone) <==> id in ids && id !in gone
  {
    if ids != [] {
      WithoutMembers(ids[1..], gone);
      assert ids == [ids[0]] + ids[1..];
    }
  }

  lemma {:induction false} WithoutConcat(a: seq<Id>, b: seq<Id>, gone: set<Id>)
    ensures Without(a + b, gone) == Without(a, gone) + Without(b, gone)
  {
    if a == [] {
      assert a + b == b;
    } else {
      assert (a + b)[1..] == a[1..] + b;
      WithoutConcat(a[1..], b, gone);
    }
  }

  lemma {:induction false} WithoutNone(ids: seq<Id>, gone: set<Id>)
    requires forall id :: id in ids ==> id !in gone
    ensures Without(ids, gone) == ids
  {
    if ids != [] {
      assert ids[0] in ids && forall id :: id in ids[1..] ==> id in ids;
      WithoutNone(ids[1..], gone);
    }
  }

  lemma {:induction false} WithoutOne(ids: seq<Id>, id: Id)
    requires NoDup(ids) && id in ids
    ensures |Without(ids, {id})| == |ids| - 1
  {
    if ids[0] == id {
      WithoutNone(ids[1..], {id});
    } else {
      assert ids == [ids[0]] + ids[1..];
      WithoutOne(ids[1..], id);
    }
  }

  lemma {:induction false} SelectedWithout(a: map<Id, Payment>, b: map<Id, Payment>, ids: seq<Id>, gone: set<Id>)
    requires forall id :: id in ids ==>
      ((id in b && b[id].status == Sent) <==> (id in a && a[id].status == Sent && id !in gone))
    ensures Selected(b, ids, Sent) == Without(Selected(a, ids, Sent), gone)
  {
    if ids != [] {
      assert ids[0] in ids && forall id :: id in ids[1..] ==> id in ids;
      SelectedWithout(a, b, ids[1..], gone);
      if ids[0] in a && a[ids[0]].status == Sent { WithoutConcat([ids[0]], Selected(a, ids[1..], Sent), gone); }
    }
  }

  /** The first n of a list that has lost members of its first n: the rest moves up. */
  lemma TakeWithout(ids: seq<Id>, gone: set<Id>, n: nat)
    requires NoDup(ids) && forall id :: id in gone ==> id in Take(ids, n)
    ensures var kept := Without(Take(ids, n), gone);
            Take(Without(ids, gone), n) == kept + Take(ids[|Take(ids, n)|..], n - |kept|)
  {
    var front, rest := Take(ids, n), ids[|Take(ids, n)|..];
    assert ids == front + rest;
    WithoutConcat(front, rest, gone);
    forall j | 0 <= j < |rest| ensures rest[j] !in front { assert rest[j] == ids[|front| + j]; }
    WithoutNone(rest, gone);
    WithoutMembers(front, gone);
  }

  // ---- a second sweep ----

  /** The listed payments that the sweep moves. */
  ghost function MovedBy(t: Tables, answers: map<string, Poll>): set<Id> {
    set id | id in Take(AllSent(t), SWEEP_LIMIT) && id in t.payments
             && PolledRow(t.payments[id], answers) != t.payments[id]
  }

  /** The payments behind the listed ones that move up when the moved ones are gone. */
  ghost function MovingUp(t: Tables, answers: map<string, Poll>): seq<Id> {
    var listed := Take(AllSent(t), SWEEP_LIMIT);
    Take(AllSent(t)[|listed|..], SWEEP_LIMIT - |Without(listed, MovedBy(t, answers))|)
  }

  lemma MovedLeaveSent(p: Payment, answers: map<string, Poll>)
    requires p.status == Sent
    ensures PolledRow(p, answers) != p <==> PolledRow(p, answers).status != Sent
  {
  }

  lemma SentAfterSweep(t: Tables, answers: map<string, Poll>)
    requires RowsOk(t)
    ensures AllSent(Sweep(t, answers)) == Without(AllSent(t), MovedBy(t, answers))
  {
    hide Sweep, PolledRow, Selected;
    var (u, gone) := (Sweep(t, answers), MovedBy(t, answers));
    SweepExact(t, answers);
    SelectedMembers(t.payments, t.newestFirst, Sent);
    forall id | id in t.newestFirst
      ensures (id in u.payments && u.payments[id].status == Sent) <==> (IsSent(t, id) && id !in gone)
    {
      assert id in t.payments && id in u.payments.Keys;
      if IsSent(t, id) { MovedLeaveSent(t.payments[id], answers); }
    }
    SelectedWithout(t.payments, u.payments, t.newestFirst, gone);
  }

  /** What the second sweep lists: what the first listed and left, and then those that move up. */
  lemma SecondListing(t: Tables, answers: map<string, Poll>)
    requires RowsOk(t)
    ensures var (u, listed) := (Sweep(t, answers), Take(AllSent(t), SWEEP_LIMIT));
            && ListByStatus(u, Sent, SWEEP_LIMIT) == Without(listed, MovedBy(t, answers)) + MovingUp(t, answers)
            && RowsOk(u)
  {
    hide Sweep, PolledRow, Selected, Without;
    var u := Sweep(t, answers);
    SweepExact(t, answers);
    SweptRowsOk(t, u, answers);
    SentAfterSweep(t, answers);
    SelectedMembers(t.payments, t.newestFirst, Sent);
    TakeWithout(AllSent(t), MovedBy(t, answers), SWEEP_LIMIT);
  }

  lemma SweptRowsOk(t: Tables, u: Tables, answers: map<string, Poll>)
    requires RowsOk(t) && u.newestFirst == t.newestFirst && u.payments.Keys == t.payments.Keys
    requires forall id :: id in t.payments ==>
      u.payments[id] == PolledRow(t.payments[id], answers) || u.payments[id] == t.payments[id]
    ensures RowsOk(u)
  {
    forall id | id in u.payments ensures RowOk(u.payments[id]) { assert id in t.payments.Keys; }
    assert forall id :: id in u.payments <==> id in t.payments.Keys;
  }

  /**
   A second sweep with the same answers changes nothing if and only if it has nothing to move among
   the payments that move up; in particular when there were at most 500 sent payments.
   */
  lemma SweepTwiceIff(t: Tables, answers: map<string, Poll>)
    requires RowsOk(t)
    ensures Sweep(Sweep(t, answers), answers) == Sweep(t, answers) <==>
              forall id :: id in MovingUp(t, answers) && id in t.payments ==>
                             PolledRow(t.payments[id], answers) == t.payments[id]
    ensures |AllSent(t)| <= 500 ==> MovingUp(t, answers) == []
  {
    hide ReconcileAll, Reconcile, PolledRow, MovingUp, Without;
    var u := Sweep(t, answers);
    var (listed, up, gone) := (Take(AllSent(t), SWEEP_LIMIT), MovingUp(t, answers), MovedBy(t, answers));
    SweepExact(t, answers);
    SecondListing(t, answers);
    MovingUpUnlisted(t, answers);
    var ids := ListByStatus(u, Sent, SWEEP_LIMIT);
    WithoutMembers(listed, gone);
    ListedMembers(u, Sent, SWEEP_LIMIT);
    ReconcileAllExact(u, u.payments, ids, answers);
    assert Sweep(u, answers) == ReconcileAll(u, u.payments, ids, answers);
    forall id | id in Without(listed, gone)
      ensures id in u.payments && PolledRow(u.payments[id], answers) == u.payments[id]
    {
      assert id in t.payments && id in u.payments.Keys;
    }
    forall id | id in up ensures id in t.payments && id in u.payments && u.payments[id] == t.payments[id] {
      assert id in u.payments.Keys;
    }
    assert forall id :: id in ids <==> id in Without(listed, gone) || id in up;
    if id :| id in up && PolledRow(t.payments[id], answers) != t.payments[id] {
      assert id in ids && id in u.payments;
      assert Sweep(u, answers).payments[id] == PolledRow(u.payments[id], answers);
    }
  }

  lemma MovingUpUnlisted(t: Tables, answers: map<string, Poll>)
    requires RowsOk(t)
    ensures forall id :: id in MovingUp(t, answers) ==> IsSent(t, id) && id !in Take(AllSent(t), SWEEP_LIMIT)
    ensures |AllSent(t)| <= SWEEP_LIMIT ==> MovingUp(t, answers) == []
  {
    hide Without, MovedBy, Selected;
    SelectedMembers(t.payments, t.newestFirst, Sent);
    var all, n := AllSent(t), |Take(AllSent(t), SWEEP_LIMIT)|;
    forall id | id in MovingUp(t, answers) ensures id in all && id !in Take(all, SWEEP_LIMIT) {
      var j :| 0 <= j < |all| - n && all[n..][j] == id;
      assert all[n + j] == id;
    }
  }

  // ---- one webhook, delivered twice ----

  /** The sent payments that a delivery and its repetition look at. */
  function NewestSent(t: Tables): seq<Id> { Take(AllSent(t), 1001) }

  predicate Carries(t: Tables, id: Id, ref: string) {
    id in NewestSent(t) && id in t.payments && t.payments[id].bankRef == ref
  }

  /** At most one of the newest 1001 sent payments carries the reference. */
  ghost predicate UniqueAmongNewest(t: Tables, ref: string) {
    forall p, q :: Carries(t, p, ref) && Carries(t, q, ref) ==> p == q
  }

  /**
   Nothing records which events were handled. Repeating a delivery at once is a no-op if and only if
   it says nothing final, or at most one of the newest 1001 sent payments carries its reference.
   */
  lemma RedeliveryNoOpIff(t: Tables, ref: string, text: string, endToEnd: string)
    requires RowsOk(t)
    ensures var u := Webhook(t, ref, text, endToEnd).0;
            Webhook(u, ref, text, endToEnd).0 == u <==>
              ref == "" || Classified(text) == None || UniqueAmongNewest(t, ref)
  {
    hide Selected, Classified, UniqueAmongNewest;
    var u := Webhook(t, ref, text, endToEnd).0;
    SelectedMembers(t.payments, t.newestFirst, Sent);
    var listed := ListByStatus(t, Sent, WEBHOOK_LIMIT);
    FindRefMember(t.payments, listed, ref);
    if ref != "" && Classified(text).Some? {
      match FindRef(t.payments, listed, ref) {
        case None => OnlyTheLast(t, ref);
        case Some(id) => RedeliveryAfterMove(t, ref, text, endToEnd, id);
      }
    } else {
      SilentDelivery(t, ref, text, endToEnd);
    }
  }

  lemma SilentDelivery(t: Tables, ref: string, text: string, endToEnd: string)
    requires ref == "" || Classified(text) == None
    ensures Webhook(t, ref, text, endToEnd).0 == t
  {
    hide FindRef, ListByStatus;
  }

  lemma OnlyTheLast(t: Tables, ref: string)
    requires forall id :: id in Take(AllSent(t), WEBHOOK_LIMIT) && id in t.payments ==> t.payments[id].bankRef != ref
    ensures UniqueAmongNewest(t, ref)
  {
    hide Selected;
    var all := AllSent(t);
    forall id | id in Take(all, WEBHOOK_LIMIT + 1) && id !in Take(all, WEBHOOK_LIMIT)
      ensures |all| > WEBHOOK_LIMIT && id == all[WEBHOOK_LIMIT]
    {
      var i :| 0 <= i < |Take(all, WEBHOOK_LIMIT + 1)| && Take(all, WEBHOOK_LIMIT + 1)[i] == id;
    }
  }

  /** After a move, the list of the second delivery is the newest 1001 without the moved payment. */
  lemma SecondDeliveryList(t: Tables, id: Id, to: Status, ref: string)
    requires RowsOk(t) && id in Take(AllSent(t), WEBHOOK_LIMIT) && id in t.payments && to != Sent
    ensures ListByStatus(Move(t, id, Sent, to, ref, Bank), Sent, WEBHOOK_LIMIT)
         == Without(Take(AllSent(t), WEBHOOK_LIMIT + 1), {id})
  {
    hide Selected;
    var u, all := Move(t, id, Sent, to, ref, Bank), AllSent(t);
    SelectedMembers(t.payments, t.newestFirst, Sent);
    SelectedWithout(t.payments, u.payments, t.newestFirst, {id});
    assert id in Take(all, WEBHOOK_LIMIT + 1) by {
      var i :| 0 <= i < |Take(all, WEBHOOK_LIMIT)| && Take(all, WEBHOOK_LIMIT)[i] == id;
      assert Take(all, WEBHOOK_LIMIT + 1)[i] == id;
    }
    var more, rest := Take(all, WEBHOOK_LIMIT + 1), all[|Take(all, WEBHOOK_LIMIT + 1)|..];
    assert all == more + rest;
    WithoutConcat(more, rest, {id});
    WithoutOne(more, id);
  }

  lemma RedeliveryAfterMove(t: Tables, ref: string, text: string, endToEnd: string, id: Id)
    requires RowsOk(t) && ref != "" && Classified(text).Some?
    requires FindRef(t.payments, ListByStatus(t, Sent, WEBHOOK_LIMIT), ref) == Some(id)
    ensures var u := Webhook(t, ref, text, endToEnd).0;
            Webhook(u, ref, text, endToEnd).0 == u <==> UniqueAmongNewest(t, ref)
  {
    hide Selected, FindRef, Without, UniqueAmongNewest;
    var (all, more) := (AllSent(t), Take(AllSent(t), WEBHOOK_LIMIT + 1));
    SelectedMembers(t.payments, t.newestFirst, Sent);
    FindRefMember(t.payments, ListByStatus(t, Sent, WEBHOOK_LIMIT), ref);
    ClassifiedIsFinal(text);
    var to := Classified(text).value;
    hide Classified;
    assert id in all;
    var u := Move(t, id, Sent, to, endToEnd, Bank);
    assert Webhook(t, ref, text, endToEnd).0 == u;
    SecondDeliveryList(t, id, to, endToEnd);
    WithoutMembers(more, {id});
    var again := ListByStatus(u, Sent, WEBHOOK_LIMIT);
    FindRefMember(u.payments, again, ref);
    UniqueIff(t, ref, id);
    forall q | Carries(t, q, ref) && q != id ensures q in again && q in u.payments && u.payments[q].bankRef == ref { }
    match FindRef(u.payments, again, ref) {
      case None =>
      case Some(q) =>
        assert Carries(t, q, ref) && q != id;
        assert |Webhook(u, ref, text, endToEnd).0.events| == |u.events| + 1;
    }
  }

  lemma ClassifiedIsFinal(text: string)
    requires Classified(text).Some?
    ensures Classified(text).value != Sent && CanTransition(Sent, Classified(text).value)
  {
  }

  lemma UniqueIff(t: Tables, ref: string, id: Id)
    requires id in Take(AllSent(t), WEBHOOK_LIMIT) && id in t.payments && t.payments[id].bankRef == ref
    ensures UniqueAmongNewest(t, ref) <==>
              forall q :: Carries(t, q, ref) ==> q == id
  {
    hide Selected;
    var all := AllSent(t);
    var i :| 0 <= i < |Take(all, WEBHOOK_LIMIT)| && Take(all, WEBHOOK_LIMIT)[i] == id;
    assert Take(all, WEBHOOK_LIMIT + 1)[i] == id;
    assert Carries(t, id, ref);
  }

  // ---- one webhook, delivered again later ----

  /**
   At any time, a delivery does nothing if and only if it says nothing final or no listed payment
   carries its reference.
   */
  lemma DeliveryNoOpIff(t: Tables, ref: string, text: string, endToEnd: string)
    ensures Webhook(t, ref, text, endToEnd).0 == t <==>
              || ref == "" || Classified(text) == None
              || forall id :: id in ListByStatus(t, Sent, 1000) && id in t.payments ==>
                   t.payments[id].bankRef != ref
  {
    var listed := ListByStatus(t, Sent, WEBHOOK_LIMIT);
    FindRefMember(t.payments, listed, ref);
    if Classified(text).Some? { ClassifiedIsFinal(text); }
    hide ListByStatus, Classified;
    if ref != "" && Classified(text).Some? && FindRef(t.payments, listed, ref).Some? {
      assert |Webhook(t, ref, text, endToEnd).0.events| == |t.events| + 1;
    }
  }

  /** What is sent afterwards was sent before, and its row is the same. */
  ghost predicate SentBefore(t: Tables, u: Tables) {
    RowsOk(u) && forall id :: IsSent(u, id) ==> IsSent(t, id) && u.payments[id] == t.payments[id]
  }

  lemma ReceiptSentBefore(t: Tables, n: Notice)
    requires RowsOk(t)
    ensures SentBefore(t, Receipt(t, n))
  {
    match n {
      case Delivery(ref, text, endToEnd) => WebhookSentBefore(t, ref, text, endToEnd);
      case Polling(answers) =>
        hide PolledRow, Sweep, RowsOk;
        var u := Sweep(t, answers);
        SweepExact(t, answers);
        SweptRowsOk(t, u, answers);
        forall id | IsSent(u, id) ensures IsSent(t, id) && u.payments[id] == t.payments[id] {
          assert id in t.payments.Keys;
          if t.payments[id].status == Sent { MovedLeaveSent(t.payments[id], answers); }
        }
    }
  }

  lemma WebhookSentBefore(t: Tables, ref: string, text: string, endToEnd: string)
    requires RowsOk(t)
    ensures SentBefore(t, Webhook(t, ref, text, endToEnd).0)
  {
    if Classified(text).Some? { ClassifiedIsFinal(text); }
    hide FindRef, ListByStatus, Classified;
  }

  lemma {:induction false} ReceiptsSentBefore(t: Tables, notices: seq<Notice>)
    requires RowsOk(t)
    ensures SentBefore(t, Receipts(t, notices))
    decreases notices
  {
    hide RowsOk, Receipt;
    if notices != [] {
      ReceiptSentBefore(t, notices[0]);
      ReceiptsSentBefore(Receipt(t, notices[0]), notices[1..]);
    }
  }

  /**
   With unique references, a delivery that moved its payment can be repeated at any later time, after
   any further deliveries and sweeps, without effect.
   */
  lemma LateRedeliveryNoOp(t: Tables, ref: string, text: string, endToEnd: string, notices: seq<Notice>)
    requires RowsOk(t) && Webhook(t, ref, text, endToEnd).0 != t
    requires forall p, q :: IsSent(t, p) && IsSent(t, q) && t.payments[p].bankRef == t.payments[q].bankRef ==> p == q
    ensures var v := Receipts(Webhook(t, ref, text, endToEnd).0, notices);
            Webhook(v, ref, text, endToEnd).0 == v
  {
    var u := Webhook(t, ref, text, endToEnd).0;
    var v := Receipts(u, notices);
    var listed := ListByStatus(t, Sent, WEBHOOK_LIMIT);
    FindRefMember(t.payments, listed, ref);
    ListedMembers(t, Sent, WEBHOOK_LIMIT);
    if Classified(text).Some? { ClassifiedIsFinal(text); }
    hide Classified, ListByStatus;
    var id := FindRef(t.payments, listed, ref).value;
    assert u == Move(t, id, Sent, Classified(text).value, endToEnd, Bank) && !IsSent(u, id);
    WebhookSentBefore(t, ref, text, endToEnd);
    ReceiptsSentBefore(u, notices);
    ListedMembers(v, Sent, WEBHOOK_LIMIT);
    forall q | q in ListByStatus(v, Sent, WEBHOOK_LIMIT) ensures v.payments[q].bankRef != ref {
      assert IsSent(v, q) && IsSent(u, q) && IsSent(t, q) && q != id;
    }
    hide Webhook;
    DeliveryNoOpIff(v, ref, text, endToEnd);
  }
}
