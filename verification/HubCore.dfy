/**
 What holds after every sequence of steps whatsoever, jobs that run again after they are done
 included: the core, and what never goes back.
 */
module HubCore {
  import opened MachineInts
  import opened Collections
  import opened PaymentStatus
  import opened Hub
  import opened AuditLog
  import opened HubLists
  import opened HubInvariant
  import opened HubWrites
  import R = RunStatus

  // ---- the core, write by write ----

  lemma RecallAppend(events: seq<Event>, e: Event, id: Id)
    ensures Recall(events + [e], id) == if e.payment == id then Remember(Recall(events, id), e) else Recall(events, id)
  {
    assert (events + [e])[..|events|] == events;
  }

  /** What a status write must not do to the core. */
  ghost predicate Fair(w: World, id: Id, from: Status, to: Status, actor: Actor)
    requires id in w.db.payments
  {
    && (InForce(to) ==> InForce(w.db.payments[id].status) || (from == Prevalidated && to == Approved && actor.User?))
    && (Delivered(to) ==> Debited(w.ledger, w.db.payments[id].key))
  }

  lemma MoveRemembers(w: World, id: Id, from: Status, to: Status, ref: string, actor: Actor)
    requires MemoryOk(w.db) && id in w.db.payments && Fair(w, id, from, to, actor)
    ensures MemoryOk(Move(w.db, id, from, to, ref, actor))
  {
    var t, u := w.db, Move(w.db, id, from, to, ref, actor);
    assert MemoryAt(t, id);
    forall q ensures MemoryAt(u, q) {
      assert MemoryAt(t, q);
      RecallAppend(t.events, Event(id, Some(from), to, actor), q);
    }
  }

  /** Payments are added at most as new rows, and the debits of the delivered ones are known. */
  lemma BookFrame(w: World, u: Tables)
    requires BookOk(w)
    requires forall id :: id in w.db.payments ==>
      && id in u.payments && u.payments[id].key == w.db.payments[id].key
      && u.payments[id].amount == w.db.payments[id].amount
    requires forall id :: id in u.payments && Delivered(u.payments[id].status) ==> Debited(w.ledger, u.payments[id].key)
    ensures BookOk(w.(db := u))
  {
    forall d | d in w.ledger ensures exists id :: Pays(u, id, d) {
      var id :| Pays(w.db, id, d);
      assert Pays(u, id, d);
    }
  }

  lemma ShiftCore(w: World, id: Id, from: Status, to: Status, ref: string, actor: Actor)
    requires Core(w) && id in w.db.payments && Fair(w, id, from, to, actor)
    ensures Core(w.(db := Move(w.db, id, from, to, ref, actor)))
  {
    hide KeysOk, RowsOk, ItemsOk, TotalsOk, MemoryOk, InForce, Debited;
    var t, u := w.db, Move(w.db, id, from, to, ref, actor);
    MoveKeepsRows(t, id, from, to, ref, actor);
    MoveKeepsTotals(t, u);
    MoveRemembers(w, id, from, to, ref, actor);
    BookFrame(w, u);
  }

  lemma MemoryFrame(t: Tables, u: Tables)
    requires MemoryOk(t) && u.payments == t.payments && u.events == t.events
    ensures MemoryOk(u)
  {
    forall id ensures MemoryAt(u, id) { assert MemoryAt(t, id); }
  }

  lemma ItemsCore(w: World, items: map<Id, Item>)
    requires Core(w) && LockedItemsKept(w.db, items) && ItemsOk(w.db.(items := items))
    ensures Core(w.(db := w.db.(items := items)))
  {
    hide KeysOk, RowsOk, ItemsOk, TotalsOk, MemoryOk, Debited, LockedItemsKept;
    var t, u := w.db, w.db.(items := items);
    RowsFrame(t, u);
    ItemsKeepTotals(t, items);
    MemoryFrame(t, u);
    BookFrame(w, u);
  }

  lemma RunCore(w: World, run: Id, r: Run)
    requires Core(w)
    requires R.Locked(r.status) ==> r == WithTotals(r, w.db.payments, ItemIds(w.db.items, run))
    ensures Core(w.(db := w.db.(runs := w.db.runs[run := r])))
  {
    hide KeysOk, RowsOk, MemoryOk, Debited, ItemIds, AmountSum, CountPix, Wrap32, Wrap64;
    var t, u := w.db, w.db.(runs := w.db.runs[run := r]);
    RowsFrame(t, u);
    MemoryFrame(t, u);
    BookFrame(w, u);
    forall q | IsLocked(u, q) ensures u.runs[q] == WithTotals(u.runs[q], u.payments, ItemIds(u.items, q)) {
      assert q != run ==> IsLocked(t, q);
    }
  }

  lemma InsertRemembers(t: Tables, id: Id, x: Input)
    requires MemoryOk(t) && id !in t.payments
    ensures MemoryOk(Inserted(t, id, x))
  {
    var u := Inserted(t, id, x);
    assert MemoryAt(t, id);
    forall q ensures MemoryAt(u, q) {
      assert MemoryAt(t, q);
      RecallAppend(t.events, Event(id, None, Received, Caller(x.caller)), q);
    }
  }

  lemma EnterCore(w: World, id: Id, x: Input)
    requires Core(w) && ValidInput(x) && CanInsert(w.db, id, x.key)
    ensures Core(w.(db := Inserted(w.db, id, x)))
  {
    hide KeysOk, RowsOk, ItemsOk, TotalsOk, MemoryOk, ValidInput, Debited;
    var t, u := w.db, Inserted(w.db, id, x);
    InsertKeepsTotals(t, id, NewPayment(x));
    SameTotals(InsertPayment(t, id, NewPayment(x)), u);
    InsertKeepsKeys(t, id, x);
    InsertKeepsRows(t, id, x);
    InsertRemembers(t, id, x);
    BookFrame(w, u);
  }

  lemma SameTotals(a: Tables, b: Tables)
    requires TotalsOk(a) && a.payments == b.payments && a.runs == b.runs && a.items == b.items
    ensures TotalsOk(b)
  {
    assert forall run :: IsLocked(b, run) ==> IsLocked(a, run);
  }

  lemma ForgetCore(w: World, key: string)
    requires Core(w)
    ensures Core(w.(db := Expire(w.db, key)))
  {
    hide RowsOk, MemoryOk, Debited, TotalsOk;
    var t, u := w.db, Expire(w.db, key);
    RowsFrame2(t, u);
    MemoryFrame(t, u);
    BookFrame(w, u);
    SameTotals(t, u);
  }

  lemma BookCore(w: World, id: Id, ref: string)
    requires Core(w) && id in w.db.payments && !Debited(w.ledger, w.db.payments[id].key)
    ensures Core(w.(ledger := w.ledger + [Debit(w.db.payments[id].key, w.db.payments[id].amount, ref)]))
  {
    hide KeysOk, RowsOk, ItemsOk, TotalsOk, MemoryOk;
    var d := Debit(w.db.payments[id].key, w.db.payments[id].amount, ref);
    var after := w.ledger + [d];
    assert Pays(w.db, id, d);
    forall i | 0 <= i < |w.ledger| ensures w.ledger[i].key != d.key { assert w.ledger[i] in w.ledger; }
    forall q | q in w.db.payments && Delivered(w.db.payments[q].status) ensures Debited(after, w.db.payments[q].key) {
      var c :| c in w.ledger && c.key == w.db.payments[q].key;
      assert c in after;
    }
  }

  lemma CheckedFair(w: World, id: Id, from: Status, to: Status, actor: Actor)
    requires BookOk(w) && id in w.db.payments && CheckedShift(w.db, id, from, to, actor)
    ensures Fair(w, id, from, to, actor)
  {
    hide Debited;
  }

  lemma PutCore(w: World, run: Id, id: Id)
    requires Core(w) && run in w.db.runs && w.db.runs[run].status == R.Open && id in w.db.payments && id !in w.db.items
    ensures Core(w.(db := w.db.(items := w.db.items[id := Item(run, ChannelFor(w.db.payments[id].kind))])))
  {
    hide KeysOk, RowsOk, TotalsOk, MemoryOk, BookOk;
    ItemsCore(w, w.db.items[id := Item(run, ChannelFor(w.db.payments[id].kind))]);
  }

  lemma DropCore(w: World, id: Id)
    requires Core(w) && !InLockedRun(w.db, id)
    ensures Core(w.(db := w.db.(items := w.db.items - {id})))
  {
    hide KeysOk, RowsOk, TotalsOk, MemoryOk, BookOk;
    ItemsCore(w, w.db.items - {id});
  }

  lemma WriteCore(w: World, x: Write)
    requires Core(w) && (Checked(w, x) || Blind(w, x))
    ensures Core(Written(w, x))
  {
    hide Core, Move, ValidInput, CanInsert, ItemIds, WithTotals, Debited;
    match x {
      case Enter(id, input) => EnterCore(w, id, input);
      case Forget(key) => ForgetCore(w, key);
      case Shift(id, from, to, ref, actor) =>
        if Checked(w, x) {
          CoreBook(w);
          CheckedFair(w, id, from, to, actor);
        }
        ShiftCore(w, id, from, to, ref, actor);
      case Open(run) => RunCore(w, run, NewRun());
      case Row(run, r) => RunCore(w, run, r);
      case Put(run, id) => PutCore(w, run, id);
      case Drop(id) => DropCore(w, id);
      case Book(id, ref) => BookCore(w, id, ref);
    }
  }

  lemma CoreBook(w: World)
    requires Core(w)
    ensures BookOk(w)
  {
  }

  lemma {:induction false} WritesCore(w: World, xs: seq<Write>)
    requires Core(w) && AllFit(w, xs)
    ensures Core(WriteAll(w, xs))
    decreases xs
  {
    hide Core, Checked, Blind, Written;
    if xs != [] {
      WriteCore(w, xs[0]);
      WritesCore(Written(w, xs[0]), xs[1..]);
    }
  }

  /** No step breaks the core, whether it was due or not. */
  lemma StepCore(w: World, a: Action)
    requires Core(w)
    ensures Core(Apply(w, a))
  {
    hide Core, Apply, AllFit, WriteAll;
    var xs := StepWrites(w, a);
    WritesCore(w, xs);
  }

  lemma {:induction false} PlayCore(w: World, actions: seq<Action>)
    requires Core(w)
    ensures Core(Play(w, actions))
    decreases actions
  {
    hide Core, Apply;
    if actions != [] {
      StepCore(w, actions[0]);
      PlayCore(Apply(w, actions[0]), actions[1..]);
    }
  }

  /** A state that some sequence of steps leads to from an empty hub, due or not. */
  ghost predicate Attainable(w: World) {
    exists payers: set<Id>, actions: seq<Action> :: w == Play(Fresh(payers), actions)
  }

  lemma FreshCore(payers: set<Id>)
    ensures Core(Fresh(payers))
  {
    assert forall id :: MemoryAt(Fresh(payers).db, id);
  }

  /** Every attainable state satisfies the core. */
  lemma AttainableCore(w: World)
    requires Attainable(w)
    ensures Core(w)
  {
    hide Core;
    var payers: set<Id>, actions: seq<Action> :| w == Play(Fresh(payers), actions);
    FreshCore(payers);
    PlayCore(Fresh(payers), actions);
  }

  // ---- what never goes back ----

  /** No payment disappears or changes its key, amount or type; the log only grows; no run goes back. */
  ghost predicate Later(t: Tables, u: Tables) {
    && (forall id :: id in t.payments ==>
          && id in u.payments && u.payments[id].key == t.payments[id].key
          && u.payments[id].amount == t.payments[id].amount && u.payments[id].kind == t.payments[id].kind)
    && t.events <= u.events
    && (forall run :: run in t.runs ==>
          run in u.runs && R.Rank(t.runs[run].status) <= R.Rank(u.runs[run].status))
  }

  lemma WriteLater(w: World, x: Write)
    requires Checked(w, x) || Blind(w, x)
    ensures Later(w.db, Written(w, x).db)
  {
    hide ValidInput, ItemIds, WithTotals, Debited, CheckedShift, AllApproved;
  }

  lemma {:induction false} WritesLater(w: World, xs: seq<Write>)
    requires AllFit(w, xs)
    ensures Later(w.db, WriteAll(w, xs).db)
    decreases xs
  {
    hide Checked, Blind, Written;
    if xs != [] {
      WriteLater(w, xs[0]);
      WritesLater(Written(w, xs[0]), xs[1..]);
    }
  }

  lemma LaterMove(t: Tables, u: Tables, id: Id, from: Status, to: Status, ref: string, actor: Actor)
    requires Later(t, u) && id in u.payments
    ensures Later(t, Move(u, id, from, to, ref, actor))
  {
  }

  lemma {:induction false} ReconcileAllLater(
    t: Tables, u: Tables, listed: map<Id, Payment>, ids: seq<Id>, answers: map<string, Poll>)
    requires Later(t, u)
    ensures Later(t, ReconcileAll(u, listed, ids, answers))
    decreases ids
  {
    hide Later, Move;
    if ids != [] {
      if ids[0] in listed {
        var p := listed[ids[0]];
        if p.bankRef in answers && ids[0] in u.payments {
          LaterMove(t, u, ids[0], p.status, answers[p.bankRef].status, answers[p.bankRef].ref, System);
        }
        ReconcileAllLater(t, Reconcile(u, ids[0], p, answers), listed, ids[1..], answers);
      } else {
        ReconcileAllLater(t, u, listed, ids[1..], answers);
      }
    }
  }

  lemma RelyingLater(w: World, a: Action)
    requires Relying(a)
    ensures Later(w.db, Apply(w, a).db)
  {
    hide ItemIds, SelfLinks, ReconcileAll, ListByStatus;
    var t := w.db;
    match a {
      case DoSweep(answers) =>
        ReconcileAllLater(t, t, t.payments, ListByStatus(t, Sent, SWEEP_LIMIT), answers);
      case DoReschedule(id, user) =>
        if id in t.payments {
          LaterMove(t, t.(items := t.items - {id}), id, t.payments[id].status, Prevalidated, "", User(user));
        }
      case _ =>
    }
  }

  lemma SubmitPixLater(w: World, id: Id, call: BankCall)
    ensures Later(w.db, Apply(w, DoSubmitPix(id, call)).db)
  {
    hide BankSend, Later, Move;
    LaterSame(w.db);
    if id in w.db.payments {
      var v := FirstWrite(w, id, Approved, Submitting);
      LaterMove(w.db, w.db, id, Approved, Submitting, "", System);
      MovedStored(w.db, id, Approved, Submitting, "", System);
      match BankSend(w.ledger, w.db.payments[id].key, w.db.payments[id].amount, call).1 {
        case BankError =>
        case BankOk(ref, settled) =>
          LaterMove(w.db, v.db, id, Submitting, if settled then Settled else Sent, ref, System);
      }
    }
  }

  lemma PrevalidateLater(w: World, id: Id, dict: DictReply, rules: RulesReply)
    ensures Later(w.db, Apply(w, DoPrevalidate(id, dict, rules)).db)
  {
    hide Later, Move, Apply;
    LaterSame(w.db);
    if id in w.db.payments {
      var v := FirstWrite(w, id, Received, ValidatedLocal);
      LaterMove(w.db, w.db, id, Received, ValidatedLocal, "", System);
      MovedStored(w.db, id, Received, ValidatedLocal, "", System);
      PrevalidateWrites(w, id, dict, rules);
      LaterMove(w.db, v.db, id, ValidatedLocal, Verdict(w.db.payments[id], dict, rules), "", System);
    } else {
      MissingUntouched(w, DoPrevalidate(id, dict, rules));
    }
  }

  lemma LaterSame(t: Tables)
    ensures Later(t, t)
  {
  }

  /** No step takes anything of this back, on any tables. */
  lemma StepLater(w: World, a: Action)
    ensures Later(w.db, Apply(w, a).db)
  {
    hide Apply, AllChecked, WriteAll, AllFit, Later;
    if a.DoPrevalidate? {
      PrevalidateLater(w, a.id, a.dict, a.rules);
    } else if a.DoSubmitPix? {
      SubmitPixLater(w, a.id, a.call);
    } else if Relying(a) {
      RelyingLater(w, a);
    } else {
      var xs := PlainWrites(w, a);
      CheckedFit(w, xs);
      WritesLater(w, xs);
    }
  }

  /** Over any sequence of steps, due or not, nothing of this goes back. */
  lemma {:induction false} PlayLater(w: World, actions: seq<Action>)
    ensures Later(w.db, Play(w, actions).db)
    decreases actions
  {
    hide Apply;
    if actions != [] {
      StepLater(w, actions[0]);
      PlayLater(Apply(w, actions[0]), actions[1..]);
    }
  }

  // ---- reading the memory back ----

  lemma {:induction false} RecallPrefix(events: seq<Event>, id: Id, n: nat)
    requires n <= |events| && Recall(events, id) != Torn
    ensures Recall(events[..n], id) != Torn
    decreases |events|
  {
    if n == |events| {
      assert events[..n] == events;
    } else {
      var init := events[..|events| - 1];
      assert init[..n] == events[..n];
      RecallPrefix(init, id, n);
    }
  }

  lemma RecallAt(events: seq<Event>, id: Id, n: nat)
    requires n < |events| && events[n].payment == id && Recall(events, id) != Torn
    ensures Recall(events[..n + 1], id) == Remember(Recall(events[..n], id), events[n]) != Torn
  {
    RecallPrefix(events, id, n + 1);
    assert events[..n + 1] == events[..n] + [events[n]];
    RecallAppend(events[..n], events[n], id);
  }

  lemma {:induction false} RecallNothing(events: seq<Event>, id: Id)
    ensures Recall(events, id) == Nothing <==> forall e :: e in events ==> e.payment != id
  {
    if events != [] {
      RecallNothing(events[..|events| - 1], id);
      assert events == events[..|events| - 1] + [events[|events| - 1]];
    }
  }

  lemma {:induction false} RecalledApproval(events: seq<Event>, id: Id) returns (j: nat)
    requires Recall(events, id).Begun? && Recall(events, id).approved
    ensures ApprovedAt(events, id, j)
    decreases |events|
  {
    var n := |events| - 1;
    if events[n].payment == id && IsApproval(events[n]) {
      j := n;
    } else {
      j := RecalledApproval(events[..n], id);
    }
  }
}
