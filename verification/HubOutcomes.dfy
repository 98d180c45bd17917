/**
 What each single step does to the tables, spelt out field by field: when it succeeds, what it
 stores, which event it logs, and why it is refused.
 */
module HubOutcomes {
  import opened MachineInts
  import opened Collections
  import opened PaymentStatus
  import opened Hub
  import opened HubLists
  import opened HubInvariant
  import R = RunStatus

  /** The hub starts with nothing but its payer accounts. */
  lemma FreshExact(payers: set<Id>)
    ensures var (t, ledger) := (Fresh(payers).db, Fresh(payers).ledger);
            && t.payers == payers && ledger == [] && t.events == [] && t.newestFirst == []
            && |t.payments| == |t.runs| == |t.items| == |t.requests| == 0
  {
  }

  // ---- intake ----

  /** The requests that pass the input check. */
  predicate WellFormed(x: Input) {
    && x.key != "" && x.amount > 0 && x.payer != 0 && x.payeeFields > 0
    && (x.kind == Pix || x.kind == Ted) && (x.payeeMethod == PixKey || x.payeeMethod == BankAccount)
  }

  /** A new request stores its own data, in front of all payments, with one event and its hash. */
  lemma IntakeStores(t: Tables, x: Input, id: Id)
    requires Receive(t, x, id).1 == Done && x.key !in t.requests
    ensures var (u, _, answer) := Receive(t, x, id);
            && answer == Some(id) && id !in t.payments && id in u.payments
            && u.payments[id].kind == x.kind && u.payments[id].status == Received
            && u.payments[id].amount == x.amount && u.payments[id].payeeMethod == x.payeeMethod
            && u.payments[id].key == x.key && u.payments[id].bankRef == ""
            && (forall q :: q in u.payments <==> q == id || q in t.payments)
            && (forall q :: q in t.payments ==> u.payments[q] == t.payments[q])
            && u.newestFirst == [id] + t.newestFirst
            && u.events == t.events + [Event(id, None, Received, Caller(x.caller))]
            && u.requests == t.requests[x.key := x.hash]
            && u.runs == t.runs && u.items == t.items && u.payers == t.payers
  {
  }

  /** Which requests succeed, and why the others are refused. */
  lemma IntakeOutcome(t: Tables, x: Input, id: Id)
    requires RowsOk(t)
    ensures var o := Receive(t, x, id).1;
            if !WellFormed(x) || x.payer !in t.payers then o == InvalidInput
            else if x.key in t.requests then
              if t.requests[x.key] != x.hash then o == HashMismatch
              else if exists q :: q in t.payments && t.payments[q].key == x.key then o == Done
              else o == NotFound
            else if id in t.payments || exists q :: q in t.payments && t.payments[q].key == x.key then o == DuplicateRow
            else o == Done
    ensures Receive(t, x, id).1 != Done || x.key in t.requests ==> Receive(t, x, id).0 == t
  {
    FindKeyMember(t.payments, t.newestFirst, x.key);
    hide FindKey;
  }

  /** A forgotten key is the only thing that goes. */
  lemma ExpireExact(t: Tables, key: string)
    ensures var u := Expire(t, key);
            && (forall k :: k in u.requests <==> k in t.requests && k != key)
            && (forall k :: k in u.requests ==> u.requests[k] == t.requests[k])
            && u == t.(requests := u.requests)
  {
  }

  // ---- prevalidation ----

  /**
   An attempt of the prevalidation worker, on a payment in any status: a new payment is first marked
   as validated; then a PIX key is looked up, then the rules are asked, and either may fail, reject,
   or send to review; the verdict is written as if the payment were VALIDATED_LOCAL.
   */
  lemma PrevalidationVerdict(t: Tables, id: Id, dict: DictReply, rules: RulesReply)
    requires id in t.payments
    ensures var p := t.payments[id];
            var asks := p.kind == Pix && p.payeeMethod == PixKey;
            var fails := (asks && dict == DictError) || (!(asks && dict == DictReject) && rules == RulesError);
            var verdict :=
              if (asks && dict == DictReject) || rules == RulesReject then Rejected
              else if rules == RulesReview then UnderReview else Prevalidated;
            var first := if p.status == Received then [Event(id, Some(Received), ValidatedLocal, System)] else [];
            var start := if p.status == Received then ValidatedLocal else p.status;
            var (u, o) := Prevalidate(t, id, dict, rules);
            && o == (if fails then Retry else Done)
            && u.payments == t.payments[id := p.(status := if fails then start else verdict)]
            && u.events == t.events + first + (if fails then [] else [Event(id, Some(ValidatedLocal), verdict, System)])
            && u == t.(payments := u.payments, events := u.events)
  {
    var p := t.payments[id];
    assert p.status != Received ==> t.payments[id := p.(status := p.status)] == t.payments;
  }

  /** A job whose payment is missing does nothing; a submission is done exactly when the bank gave a usable answer. */
  lemma WorkerOutcome(w: World, id: Id, dict: DictReply, rules: RulesReply, call: BankCall)
    requires RowsOk(w.db)
    ensures id !in w.db.payments ==>
              Prevalidate(w.db, id, dict, rules) == (w.db, NotFound) && SubmitPix(w, id, call) == (w, NotFound)
    ensures id in w.db.payments ==>
              SubmitPix(w, id, call).1 == if call.Answered? && call.ref != "" then Done else Retry
  {
    if id in w.db.payments {
      assert RowOk(w.db.payments[id]);
      BankBooks(w.ledger, w.db.payments[id].key, w.db.payments[id].amount, call);
    }
    hide BankSend, Move;
  }

  /** Auto-grouping is refused only for a run that exists. */
  lemma AutoGroupOutcome(t: Tables, run: Id)
    requires RowsOk(t)
    ensures AutoGroup(t, run).1 ==
            if run in t.runs && exists id :: id in t.payments && t.payments[id].status == Prevalidated then DuplicateRow
            else Done
    ensures run in t.runs ==> AutoGroup(t, run).0 == t
  {
    var ids := ListByStatus(t, Prevalidated, GROUP_LIMIT);
    SelectedMembers(t.payments, t.newestFirst, Prevalidated);
    ListedMembers(t, Prevalidated, GROUP_LIMIT);
    assert |ids| > 0 ==> ids[0] in ids;
    hide AttachAll, Selected;
    if id :| id in t.payments && t.payments[id].status == Prevalidated {
      assert id in Selected(t.payments, t.newestFirst, Prevalidated);
      assert ids != [];
    }
  }

  // ---- runs and items ----

  lemma CreateRunExact(t: Tables, run: Id)
    ensures CreateRun(t, run) ==
            if run in t.runs then (t, DuplicateRow)
            else (t.(runs := t.runs[run := Run(R.Open, "", 0, 0, 0, 0)]), Done)
  {
  }

  /**
   Attaching succeeds exactly for an open run and a prevalidated payment that is attached nowhere,
   and puts it on the CNAB channel if and only if it is a TED.
   */
  lemma AttachExact(t: Tables, run: Id, id: Id)
    ensures var (u, o) := Attach(t, run, id);
            && (o == Done <==>
                  && run in t.runs && t.runs[run].status == R.Open
                  && id in t.payments && t.payments[id].status == Prevalidated && id !in t.items)
            && (o == Done ==>
                  var channel := if t.payments[id].kind == Ted then R.CnabTed else R.PixRest;
                  u == t.(items := t.items[id := Item(run, channel)]))
            && (o != Done ==> u == t)
            && (o == NotFound <==> run !in t.runs || (t.runs[run].status == R.Open && id !in t.payments))
            && (o == DuplicateRow ==> id in t.items)
  {
  }

  /** Detaching succeeds exactly for an open run, and removes the payment from it and from no other. */
  lemma DetachExact(t: Tables, run: Id, id: Id)
    ensures var (u, o) := Detach(t, run, id);
            && (o == Done <==> run in t.runs && t.runs[run].status == R.Open)
            && (forall q :: q in u.items <==> q in t.items && !(o == Done && q == id && t.items[q].run == run))
            && (forall q :: q in u.items ==> u.items[q] == t.items[q])
            && u == t.(items := u.items)
            && (o == NotFound <==> run !in t.runs) && (o == Done || o == NotFound || o == Conflict)
  {
  }

  /** The sum of a list adds the amounts of its payments, each as often as it is listed. */
  lemma {:induction false} AmountSumConcat(payments: map<Id, Payment>, a: seq<Id>, b: seq<Id>)
    ensures AmountSum(payments, a + b) == AmountSum(payments, a) + AmountSum(payments, b)
  {
    if b == [] {
      assert a + b == a;
    } else {
      assert (a + b)[..|a + b| - 1] == a + b[..|b| - 1];
      AmountSumConcat(payments, a, b[..|b| - 1]);
    }
  }

  lemma AmountSumOne(payments: map<Id, Payment>, id: Id)
    requires id in payments
    ensures AmountSum(payments, [id]) == payments[id].amount && AmountSum(payments, []) == 0
  {
    assert [id][..0] == [];
  }

  // ---- operator actions ----

  /** The tables after an operator has moved one payment. */
  ghost predicate OperatorMoved(t: Tables, u: Tables, id: Id, to: Status, user: string)
    requires id in t.payments
  {
    && u.payments == t.payments[id := t.payments[id].(status := to)]
    && u.events == t.events + [Event(id, Some(t.payments[id].status), to, User(user))]
    && u == t.(payments := u.payments, events := u.events)
  }

  /** Holding takes an approved payment to ON_HOLD, releasing takes it back; nothing else is held or released. */
  lemma HoldExact(t: Tables, id: Id, user: string)
    ensures var (u, o) := Hold(t, id, user);
            && (o == Done <==> id in t.payments && t.payments[id].status == Approved)
            && (if o == Done then OperatorMoved(t, u, id, OnHold, user) else u == t)
            && (o == NotFound <==> id !in t.payments) && (o == Done || o == NotFound || o == Conflict)
    ensures var (u, o) := Unhold(t, id, user);
            && (o == Done <==> id in t.payments && t.payments[id].status == OnHold)
            && (if o == Done then OperatorMoved(t, u, id, Approved, user) else u == t)
            && (o == NotFound <==> id !in t.payments) && (o == Done || o == NotFound || o == Conflict)
  {
  }

  const NOT_APPROVED: set<Status> := {Received, ValidatedLocal, UnderReview, Prevalidated}

  const NOT_SUBMITTED: set<Status> := NOT_APPROVED + {Approved, OnHold}

  /** Cancelable is what was not handed to the bank and has not ended; rejectable, what was not approved either. */
  lemma CancelExact(t: Tables, id: Id, user: string)
    ensures var (u, o) := Cancel(t, id, user);
            && (o == Done <==> id in t.payments && t.payments[id].status in NOT_SUBMITTED)
            && (if o == Done then OperatorMoved(t, u, id, Canceled, user) else u == t)
            && (o == NotFound <==> id !in t.payments) && (o == Done || o == NotFound || o == IllegalTransition)
    ensures var (u, o) := Reject(t, id, user);
            && (o == Done <==> id in t.payments && t.payments[id].status in NOT_APPROVED)
            && (if o == Done then OperatorMoved(t, u, id, Rejected, user) else u == t)
            && (o == NotFound <==> id !in t.payments) && (o == Done || o == NotFound || o == IllegalTransition)
  {
  }

  // ---- submission of a run ----

  lemma {:induction false} SelfLinksAt(payments: map<Id, Payment>, ids: seq<Id>, user: string)
    requires forall id :: id in ids ==> id in payments
    ensures |SelfLinks(payments, ids, user)| == |ids|
    ensures forall i :: 0 <= i < |ids| ==>
              SelfLinks(payments, ids, user)[i]
              == Event(ids[i], Some(payments[ids[i]].status), payments[ids[i]].status, User(user))
  {
    if ids != [] {
      assert ids[0] in ids && forall id :: id in ids[1..] ==> id in ids;
      SelfLinksAt(payments, ids[1..], user);
    }
  }

  /**
   Submitting succeeds exactly for an approved run. It then executes, with all else in its row as
   before, and the log has one more event for each attached payment in the order of their ids, from
   its status to its status.
   */
  lemma SubmitToBankExact(t: Tables, run: Id, user: string)
    requires ItemsOk(t)
    ensures var (u, o) := SubmitToBank(t, run, user);
            && (o == Done <==> run in t.runs && t.runs[run].status == R.Approved)
            && (o != Done ==> o == Conflict && u == t)
            && (o == Done ==>
                  var (ids, n) := (ItemIds(t.items, run), |t.events|);
                  && u.runs == t.runs[run := t.runs[run].(status := R.Executing)]
                  && |u.events| == n + |ids| && t.events <= u.events
                  && (forall id :: id in ids ==> id in t.payments)
                  && (forall i :: 0 <= i < |ids| ==>
                        u.events[n + i]
                        == Event(ids[i], Some(t.payments[ids[i]].status), t.payments[ids[i]].status, User(user)))
                  && u == t.(runs := u.runs, events := u.events))
  {
    hide SelfLinks, ItemIds;
    if SubmitToBank(t, run, user).1 == Done { SelfLinksLogged(t, run, user); }
  }

  lemma SelfLinksLogged(t: Tables, run: Id, user: string)
    requires ItemsOk(t)
    ensures var (ids, n) := (ItemIds(t.items, run), |t.events|);
            var events := t.events + SelfLinks(t.payments, ids, user);
            && |events| == n + |ids| && t.events <= events && (forall id :: id in ids ==> id in t.payments)
            && (forall i :: 0 <= i < |ids| ==>
                  events[n + i]
                  == Event(ids[i], Some(t.payments[ids[i]].status), t.payments[ids[i]].status, User(user)))
  {
    var ids := ItemIds(t.items, run);
    ItemIdsMembers(t.items, run);
    hide ItemIds;
    assert forall id :: id in ids ==> id in t.payments;
    SelfLinksAt(t.payments, ids, user);
    hide SelfLinks;
  }

  /** The list of a run's payments is complete, without repetition, and ascending. */
  lemma ItemIdsAscending(items: map<Id, Item>, run: Id)
    ensures forall id :: id in ItemIds(items, run) <==> id in items && items[id].run == run
    ensures forall i, j :: 0 <= i < j < |ItemIds(items, run)| ==> ItemIds(items, run)[i] < ItemIds(items, run)[j]
  {
    SortedAscending(set id | id in items && items[id].run == run);
  }

  // ---- lists ----

  /** A list by status keeps the order newest first. */
  lemma {:induction false} SelectedInOrder(payments: map<Id, Payment>, ids: seq<Id>, status: Status, i: nat, j: nat)
    returns (p: nat, q: nat)
    requires i < j < |Selected(payments, ids, status)|
    ensures p < q < |ids| && ids[p] == Selected(payments, ids, status)[i]
    ensures ids[q] == Selected(payments, ids, status)[j]
    decreases ids
  {
    var rest := Selected(payments, ids[1..], status);
    if ids[0] in payments && payments[ids[0]].status == status {
      if i == 0 {
        SelectedMembers(payments, ids[1..], status);
        assert rest[j - 1] in ids[1..];
        p := 0;
        q :| 0 < q < |ids| && ids[q] == rest[j - 1];
      } else {
        p, q := SelectedInOrder(payments, ids[1..], status, i - 1, j - 1);
        p, q := p + 1, q + 1;
      }
    } else {
      p, q := SelectedInOrder(payments, ids[1..], status, i, j);
      p, q := p + 1, q + 1;
    }
  }

  /** Payment q stands before payment id in the order newest first. */
  ghost predicate Newer(t: Tables, q: Id, id: Id) {
    exists i, j :: 0 <= i < j < |t.newestFirst| && t.newestFirst[i] == q && t.newestFirst[j] == id
  }

  /** The list of at most `limit` payments with a status leaves a payment out only for newer ones. */
  lemma ListIsNewest(t: Tables, status: Status, limit: nat, id: Id)
    requires RowsOk(t) && id in t.payments && t.payments[id].status == status && id !in ListByStatus(t, status, limit)
    ensures |ListByStatus(t, status, limit)| == limit
    ensures forall q :: q in ListByStatus(t, status, limit) ==> Newer(t, q, id)
  {
    var all, listed := Selected(t.payments, t.newestFirst, status), ListByStatus(t, status, limit);
    SelectedMembers(t.payments, t.newestFirst, status);
    hide Selected;
    assert id in all && all != listed;
    var n :| 0 <= n < |all| && all[n] == id;
    assert forall k :: 0 <= k < |listed| ==> listed[k] == all[k];
    forall q | q in listed ensures Newer(t, q, id) {
      var m :| 0 <= m < |listed| && listed[m] == q;
      var a, b := SelectedInOrder(t.payments, t.newestFirst, status, m, n);
    }
  }

  // ---- bank notifications ----

  /** The payment at position i of the list is the first one there that carries the reference. */
  predicate FirstCarrier(t: Tables, ref: string, i: nat) {
    var listed := ListByStatus(t, Sent, 1000);
    && i < |listed| && listed[i] in t.payments && t.payments[listed[i]].bankRef == ref
    && forall j :: 0 <= j < i && listed[j] in t.payments ==> t.payments[listed[j]].bankRef != ref
  }

  lemma {:induction false} FindRefFirst(payments: map<Id, Payment>, ids: seq<Id>, ref: string, i: nat)
    requires i < |ids| && ids[i] in payments && payments[ids[i]].bankRef == ref
    requires forall j :: 0 <= j < i && ids[j] in payments ==> payments[ids[j]].bankRef != ref
    ensures FindRef(payments, ids, ref) == Some(ids[i])
  {
    if i > 0 {
      assert forall j :: 0 <= j < i - 1 ==> ids[1..][j] == ids[j + 1];
      FindRefFirst(payments, ids[1..], ref, i - 1);
    }
  }

  /** The tables after a notification has moved a sent payment. */
  ghost predicate Notified(t: Tables, u: Tables, id: Id, to: Status, endToEnd: string)
    requires id in t.payments
  {
    var p := t.payments[id];
    && u.payments == t.payments[id := p.(status := to, bankRef := if endToEnd == "" then p.bankRef else endToEnd)]
    && u.events == t.events + [Event(id, Some(Sent), to, Bank)]
    && u == t.(payments := u.payments, events := u.events)
  }

  /**
   One delivery: the first listed sent payment that carries the reference becomes SETTLED or FAILED
   as the text says, takes the end-to-end id as its reference if there is one, and gets one event of
   the bank. Any other text, a missing or an unknown reference changes nothing.
   */
  lemma WebhookExact(t: Tables, ref: string, text: string, endToEnd: string, i: nat)
    requires FirstCarrier(t, ref, i) && ref != ""
    ensures var (id, u) := (ListByStatus(t, Sent, 1000)[i], Webhook(t, ref, text, endToEnd).0);
            var good := text == "FINALIZADO" || text == "APROVADO" || text == "SETTLED" || text == "LIQUIDADO";
            var bad := text == "REJEITADO" || text == "FALHOU" || text == "FAILED";
            && (good ==> Notified(t, u, id, Settled, endToEnd))
            && (bad ==> Notified(t, u, id, Failed, endToEnd))
            && (!good && !bad ==> u == t)
  {
    FindRefFirst(t.payments, ListByStatus(t, Sent, 1000), ref, i);
    hide FindRef, ListByStatus;
  }

  lemma WebhookUnknown(t: Tables, ref: string, text: string, endToEnd: string)
    requires ref == "" || forall id :: id in ListByStatus(t, Sent, 1000) && id in t.payments ==>
                            t.payments[id].bankRef != ref
    ensures Webhook(t, ref, text, endToEnd) == (t, if ref == "" then InvalidInput else Done)
  {
    FindRefMember(t.payments, ListByStatus(t, Sent, 1000), ref);
    hide FindRef, ListByStatus;
  }
}
