/**
 The audit trail of one payment: exactly which sequences of steps keep it, and what it says when
 they do.
 */
module HubTrail {
  import opened Collections
  import opened PaymentStatus
  import opened Hub
  import opened AuditLog
  import opened HubLists
  import opened HubInvariant
  import opened HubWrites
  import opened HubCore

  // ---- single writes ----

  lemma ShiftTrail(t: Tables, q: Id, from: Status, to: Status, ref: string, actor: Actor, id: Id)
    requires q in t.payments && TrailOk(t, id)
    requires q == id ==> from == t.payments[id].status && Link(from, to, actor)
    requires q == id && NeedsApproval(to) ==>
      NeedsApproval(from) || (from == Prevalidated && to == Approved && actor.User?)
    ensures TrailOk(Move(t, q, from, to, ref, actor), id)
  {
    ReplayAppend(t.events, Event(q, Some(from), to, actor), id);
  }

  /** A checked write keeps every trail. */
  lemma CheckedTrail(w: World, x: Write, id: Id)
    requires Checked(w, x) && TrailOk(w.db, id)
    ensures TrailOk(Written(w, x).db, id)
  {
    hide ItemIds, WithTotals, ValidInput, AllApproved, Move;
    match x {
      case Shift(q, from, to, ref, actor) => ShiftTrail(w.db, q, from, to, ref, actor, id);
      case Enter(q, input) => ReplayAppend(w.db.events, Event(q, None, Received, Caller(input.caller)), id);
      case _ =>
    }
  }

  lemma {:induction false} CheckedTrails(w: World, xs: seq<Write>, id: Id)
    requires AllChecked(w, xs) && TrailOk(w.db, id)
    ensures TrailOk(WriteAll(w, xs).db, id)
    decreases xs
  {
    hide Checked, Written, TrailOk;
    if xs != [] {
      CheckedTrail(w, xs[0], id);
      CheckedTrails(Written(w, xs[0]), xs[1..], id);
    }
  }

  /** A status write that names another origin than the stored status breaks the trail for good. */
  lemma WrongOriginBreaks(t: Tables, id: Id, from: Status, to: Status, ref: string, actor: Actor)
    requires TrailOk(t, id) && id in t.payments && from != t.payments[id].status
    ensures Replay(Move(t, id, from, to, ref, actor).events, id) == Broken
  {
    ReplayAppend(t.events, Event(id, Some(from), to, actor), id);
  }

  // ---- the two workers ----

  /** The worker's payment is in a status the job was made for, or the attempt writes no verdict. */
  predicate PrevalidateDue(t: Tables, id: Id, dict: DictReply, rules: RulesReply) {
    id in t.payments ==>
      || t.payments[id].status == Received
      || t.payments[id].status == ValidatedLocal
      || NoVerdict(t.payments[id], dict, rules)
  }

  /** The worker's payment is waiting to be sent, or the attempt writes nothing. */
  predicate AnswerDue(t: Tables, id: Id, call: BankCall) {
    id in t.payments ==>
      t.payments[id].status == Approved || t.payments[id].status == Submitting || !AnswersOk(call)
  }

  /** The step does not write to this payment from a status it does not have. */
  predicate TrailDue(w: World, a: Action, id: Id) {
    match a
    case DoPrevalidate(q, dict, rules) => q == id ==> PrevalidateDue(w.db, q, dict, rules)
    case DoSubmitPix(q, call) => q == id ==> AnswerDue(w.db, q, call)
    case _ => true
  }

  lemma FirstTrail(w: World, q: Id, from: Status, to: Status, id: Id)
    requires q in w.db.payments && TrailOk(w.db, id)
    requires (from == Received && to == ValidatedLocal) || (from == Approved && to == Submitting)
    ensures var v := FirstWrite(w, q, from, to);
            && q in v.db.payments && TrailOk(v.db, id)
            && v.db.payments[q].status == if w.db.payments[q].status == from then to else w.db.payments[q].status
  {
    hide TrailOk, Checked, Move;
    FirstWriteChecked(w, q);
    MovedStored(w.db, q, from, to, "", System);
    if w.db.payments[q].status == from { CheckedTrail(w, Shift(q, from, to, "", System), id); }
  }

  lemma PrevalidateTrail(w: World, q: Id, dict: DictReply, rules: RulesReply, id: Id)
    requires TrailOk(w.db, id)
    ensures var t := Apply(w, DoPrevalidate(q, dict, rules)).db;
            if TrailDue(w, DoPrevalidate(q, dict, rules), id) then TrailOk(t, id) else Replay(t.events, id) == Broken
  {
    hide TrailOk, Apply, FirstWrite, Move;
    if q !in w.db.payments {
      MissingUntouched(w, DoPrevalidate(q, dict, rules));
    } else {
      var p, v := w.db.payments[q], FirstWrite(w, q, Received, ValidatedLocal);
      PrevalidateWrites(w, q, dict, rules);
      FirstTrail(w, q, Received, ValidatedLocal, id);
      if !NoVerdict(p, dict, rules) {
        var to := Verdict(p, dict, rules);
        if q == id && v.db.payments[id].status != ValidatedLocal {
          WrongOriginBreaks(v.db, id, ValidatedLocal, to, "", System);
        } else {
          ShiftTrail(v.db, q, ValidatedLocal, to, "", System, id);
        }
      }
    }
  }

  lemma SubmitPixTrail(w: World, q: Id, call: BankCall, id: Id)
    requires RowsOk(w.db) && TrailOk(w.db, id)
    ensures var t := Apply(w, DoSubmitPix(q, call)).db;
            if TrailDue(w, DoSubmitPix(q, call), id) then TrailOk(t, id) else Replay(t.events, id) == Broken
  {
    hide TrailOk, Apply, FirstWrite, Move, Booked;
    if q !in w.db.payments {
      MissingUntouched(w, DoSubmitPix(q, call));
    } else {
      assert RowOk(w.db.payments[q]);
      var v := FirstWrite(w, q, Approved, Submitting);
      SubmitPixWrites(w, q, call);
      FirstTrail(w, q, Approved, Submitting, id);
      BookedSame(v, q, call);
      if AnswersOk(call) {
        var to := if call.settled then Settled else Sent;
        if q == id && v.db.payments[id].status != Submitting {
          WrongOriginBreaks(v.db, id, Submitting, to, call.ref, System);
        } else {
          ShiftTrail(v.db, q, Submitting, to, call.ref, System, id);
        }
      }
    }
  }

  lemma BookedSame(v: World, id: Id, call: BankCall)
    requires id in v.db.payments
    ensures Booked(v, id, call).db == v.db
  {
  }

  // ---- every step ----

  /** A step keeps the trail of a payment if it is due for it; otherwise it breaks the trail for good. */
  lemma StepTrail(w: World, a: Action, id: Id)
    requires Core(w) && TrailOk(w.db, id)
    ensures if TrailDue(w, a, id) then TrailOk(Apply(w, a).db, id) else Replay(Apply(w, a).db.events, id) == Broken
  {
    hide TrailOk, Apply, AllChecked, WriteAll;
    if a.DoPrevalidate? {
      PrevalidateTrail(w, a.id, a.dict, a.rules, id);
    } else if a.DoSubmitPix? {
      SubmitPixTrail(w, a.id, a.call, id);
    } else {
      var xs := CheckedWrites(w, a);
      CheckedTrails(w, xs, id);
    }
  }

  predicate AllTrailDue(w: World, actions: seq<Action>, id: Id)
    decreases actions
  {
    actions == [] || (TrailDue(w, actions[0], id) && AllTrailDue(Apply(w, actions[0]), actions[1..], id))
  }

  lemma BrokenStays(t: Tables, u: Tables, id: Id)
    requires t.events <= u.events && Replay(t.events, id) == Broken
    ensures !TrailOk(u, id)
  {
    assert u.events[..|t.events|] == t.events;
    if Replay(u.events, id) != Broken {
      ReplayPrefix(u.events, id, |t.events|);
    }
  }

  lemma {:induction false} PlayTrailIff(w: World, actions: seq<Action>, id: Id)
    requires Core(w) && TrailOk(w.db, id)
    ensures TrailOk(Play(w, actions).db, id) <==> AllTrailDue(w, actions, id)
    decreases actions
  {
    hide Core, TrailOk, Apply, TrailDue;
    if actions != [] {
      var v := Apply(w, actions[0]);
      StepTrail(w, actions[0], id);
      StepCore(w, actions[0]);
      if TrailDue(w, actions[0], id) {
        PlayTrailIff(v, actions[1..], id);
      } else {
        PlayLater(v, actions[1..]);
        BrokenStays(v.db, Play(v, actions[1..]).db, id);
      }
    }
  }

  /**
   After any steps, the trail of a payment is accepted and ends in the stored status if and only if
   no step wrote to the payment from a status it did not have: a prevalidation verdict needs RECEIVED
   or VALIDATED_LOCAL, a usable answer of the bank APPROVED or SUBMITTING.
   */
  lemma TrailIff(payers: set<Id>, actions: seq<Action>, id: Id)
    ensures TrailOk(Play(Fresh(payers), actions).db, id) <==> AllTrailDue(Fresh(payers), actions, id)
  {
    FreshCore(payers);
    PlayTrailIff(Fresh(payers), actions, id);
  }

  /** All trails are intact if and only if the steps were due for every payment. */
  lemma LogIff(payers: set<Id>, actions: seq<Action>)
    ensures LogOk(Play(Fresh(payers), actions).db) <==> forall id :: AllTrailDue(Fresh(payers), actions, id)
  {
    hide TrailOk, AllTrailDue, Play;
    var (w, t) := (Fresh(payers), Play(Fresh(payers), actions).db);
    forall id ensures TrailOk(t, id) <==> AllTrailDue(w, actions, id) { TrailIff(payers, actions, id); }
    if LogOk(t) {
      forall id ensures AllTrailDue(w, actions, id) { assert TrailOk(t, id); }
    } else {
      var id :| !TrailOk(t, id);
      assert !AllTrailDue(w, actions, id);
    }
  }

  // ---- what an intact trail says ----

  /** A state that steps due for this payment lead to from an empty hub. */
  ghost predicate Traced(w: World, id: Id) {
    exists payers: set<Id>, actions: seq<Action> ::
      AllTrailDue(Fresh(payers), actions, id) && w == Play(Fresh(payers), actions)
  }

  lemma TracedTrail(w: World, id: Id)
    requires Traced(w, id)
    ensures TrailOk(w.db, id) && Core(w)
  {
    hide TrailOk, Core, AllTrailDue;
    var payers: set<Id>, actions: seq<Action> :|
      AllTrailDue(Fresh(payers), actions, id) && w == Play(Fresh(payers), actions);
    TrailIff(payers, actions, id);
    FreshCore(payers);
    PlayCore(Fresh(payers), actions);
  }

  /**
   The payment's events form one chain from RECEIVED over permitted links, it ends in the stored
   status, and a payment that is not stored has no events.
   */
  lemma TrailAgreesWithStatus(w: World, id: Id)
    requires Traced(w, id)
    ensures Chained(w.db.events, id)
    ensures id !in w.db.payments ==> forall e :: e in w.db.events ==> e.payment != id
    ensures id in w.db.payments ==>
              exists i :: 0 <= i < |w.db.events| && w.db.events[i].payment == id
                          && Quiet(w.db.events, id, i, |w.db.events|)
                          && w.db.events[i].to == w.db.payments[id].status
  {
    hide Core, Traced;
    TracedTrail(w, id);
    AcceptedChain(w.db.events, id);
    NoEvents(w.db.events, id);
    if id in w.db.payments { var i := LastEvent(w.db.events, id); }
  }

  /**
   Before any event into a status that only an approved payment has, SENT, SETTLED and FAILED
   included, lies a user's approval with no event into PREVALIDATED in between; for an event into
   APPROVED it may be that event.
   */
  lemma ApprovedBeforeDelivery(w: World, n: nat) returns (j: nat)
    requires n < |w.db.events| && NeedsApproval(w.db.events[n].to) && Traced(w, w.db.events[n].payment)
    ensures j <= n && w.db.events[j].payment == w.db.events[n].payment && IsApproval(w.db.events[j])
    ensures forall k :: j < k < n && w.db.events[k].payment == w.db.events[n].payment ==>
              w.db.events[k].to != Prevalidated
  {
    hide Core, Traced;
    var id := w.db.events[n].payment;
    TracedTrail(w, id);
    j := AcceptedApproval(w.db.events, id, n);
    var upTo := w.db.events[..n + 1];
    assert upTo[j] == w.db.events[j] && upTo[n] == w.db.events[n];
    forall k | j < k < n && w.db.events[k].payment == id ensures w.db.events[k].to != Prevalidated {
      assert upTo[k] == w.db.events[k];
    }
  }

  lemma {:induction false} ReplayFromTerminal(before: seq<Event>, after: seq<Event>, id: Id)
    requires before <= after && Replay(before, id).Standing? && Replay(before, id).status.IsTerminal()
    requires Replay(after, id) != Broken
    ensures Replay(after, id).Standing? && Replay(after, id).status == Replay(before, id).status
    decreases |after|
  {
    if before != after {
      var init := after[..|after| - 1];
      assert before <= init;
      ReplayPrefix(after, id, |after| - 1);
      ReplayFromTerminal(before, init, id);
    }
  }

  /**
   A settled, rejected, canceled or expired payment keeps its status through all later steps that
   are due for it, whatever happens to other payments.
   */
  lemma TerminalForever(w: World, actions: seq<Action>, id: Id)
    requires Traced(w, id) && AllTrailDue(w, actions, id)
    requires id in w.db.payments && w.db.payments[id].status.IsTerminal()
    ensures id in Play(w, actions).db.payments
    ensures Play(w, actions).db.payments[id].status == w.db.payments[id].status
  {
    hide Core, Traced;
    var u := Play(w, actions);
    TracedTrail(w, id);
    PlayTrailIff(w, actions, id);
    PlayLater(w, actions);
    ReplayFromTerminal(w.db.events, u.db.events, id);
  }
}
