/**
 Which links of the audit trail leave the lifecycle table: exactly those of a submission that the
 bank answered as settled.
 */
module HubLinks {
  import opened Collections
  import opened PaymentStatus
  import opened Hub
  import opened HubLists
  import opened HubInvariant
  import opened HubWrites
  import opened HubCore
  import opened HubTrail
  import opened HubLaws

  /** An intake, an edge of the table, a reschedule, or the self link of a run's submission. */
  predicate Regular(e: Event) {
    if e.from == None then e.to == Received
    else
      || CanTransition(e.from.value, e.to)
      || (e.to == Prevalidated && Reschedulable(e.from.value) && e.actor.User?)
      || (e.from.value == e.to && e.actor.User?)
  }

  /** The events from position n on are regular. */
  predicate RegularFrom(events: seq<Event>, n: nat) { forall i :: n <= i < |events| ==> Regular(events[i]) }

  /** The step adds regular events only. */
  ghost predicate AddsRegular(t: Tables, u: Tables) { t.events <= u.events && RegularFrom(u.events, |t.events|) }

  /** A submission of a stored payment that the bank answers as settled. */
  predicate SettledAnswer(w: World, a: Action) {
    a.DoSubmitPix? && a.id in w.db.payments && AnswersOk(a.call) && a.call.settled
  }

  lemma MoveAdds(t: Tables, u: Tables, id: Id, from: Status, to: Status, ref: string, actor: Actor)
    requires AddsRegular(t, u) && id in u.payments && Regular(Event(id, Some(from), to, actor))
    ensures AddsRegular(t, Move(u, id, from, to, ref, actor))
  {
  }

  lemma AddsRefl(t: Tables, u: Tables)
    requires u.events == t.events
    ensures AddsRegular(t, u)
  {
  }

  lemma AddsTrans(t: Tables, u: Tables, v: Tables)
    requires AddsRegular(t, u) && AddsRegular(u, v)
    ensures AddsRegular(t, v)
  {
    forall i | |t.events| <= i < |v.events| ensures Regular(v.events[i]) {
      if i < |u.events| { assert v.events[i] == u.events[i]; }
    }
  }

  lemma CheckedAdds(w: World, x: Write)
    requires Checked(w, x)
    ensures AddsRegular(w.db, Written(w, x).db)
  {
    hide ItemIds, WithTotals, ValidInput, AllApproved, Move, InLockedRun;
    match x {
      case Shift(id, from, to, ref, actor) =>
        AddsRefl(w.db, w.db);
        MoveAdds(w.db, w.db, id, from, to, ref, actor);
      case _ =>
    }
  }

  lemma {:induction false} CheckedAllAdd(w: World, xs: seq<Write>)
    requires AllChecked(w, xs)
    ensures AddsRegular(w.db, WriteAll(w, xs).db)
    decreases xs
  {
    hide Checked, Written, AddsRegular;
    AddsRefl(w.db, w.db);
    if xs != [] {
      CheckedAdds(w, xs[0]);
      CheckedAllAdd(Written(w, xs[0]), xs[1..]);
      AddsTrans(w.db, Written(w, xs[0]).db, WriteAll(w, xs).db);
    }
  }

  lemma FirstAdds(w: World, id: Id, from: Status, to: Status)
    requires id in w.db.payments
    requires (from == Received && to == ValidatedLocal) || (from == Approved && to == Submitting)
    ensures var v := FirstWrite(w, id, from, to); id in v.db.payments && AddsRegular(w.db, v.db)
  {
    hide AddsRegular, Move, Checked;
    AddsRefl(w.db, w.db);
    FirstWriteChecked(w, id);
    MovedStored(w.db, id, from, to, "", System);
    if w.db.payments[id].status == from { CheckedAdds(w, Shift(id, from, to, "", System)); }
  }

  lemma PrevalidateAdds(w: World, id: Id, dict: DictReply, rules: RulesReply)
    requires id in w.db.payments
    ensures AddsRegular(w.db, Apply(w, DoPrevalidate(id, dict, rules)).db)
  {
    hide AddsRegular, Move, FirstWrite, Apply;
    var v := FirstWrite(w, id, Received, ValidatedLocal);
    PrevalidateWrites(w, id, dict, rules);
    FirstAdds(w, id, Received, ValidatedLocal);
    MoveAdds(w.db, v.db, id, ValidatedLocal, Verdict(w.db.payments[id], dict, rules), "", System);
  }

  lemma SettledLink(t: Tables, t1: Tables, id: Id, ref: string)
    requires AddsRegular(t, t1) && id in t1.payments
    ensures var u := Move(t1, id, Submitting, Settled, ref, System);
            !AddsRegular(t, u) && u.events != []
            && u.events[|u.events| - 1] == Event(id, Some(Submitting), Settled, System)
  {
    var u := Move(t1, id, Submitting, Settled, ref, System);
    assert !Regular(u.events[|t1.events|]);
  }

  /**
   One submission attempt adds regular events exactly when the bank does not answer it as settled,
   whatever the status of the payment. If it does, the last event is SUBMITTING -> SETTLED, which
   the table refuses.
   */
  lemma SubmitPixRegularIff(w: World, id: Id, call: BankCall)
    requires id in w.db.payments && w.db.payments[id].key != ""
    ensures var t, u := w.db, SubmitPix(w, id, call).0.db;
            && (AddsRegular(t, u) <==> !(AnswersOk(call) && call.settled))
            && (AnswersOk(call) && call.settled ==>
                  u.events != [] && u.events[|u.events| - 1] == Event(id, Some(Submitting), Settled, System))
            && !CanTransition(Submitting, Settled)
  {
    hide AddsRegular, Move, FirstWrite, SubmitPix, Booked;
    var v := FirstWrite(w, id, Approved, Submitting);
    SubmitPixWrites(w, id, call);
    FirstAdds(w, id, Approved, Submitting);
    BookedSame(v, id, call);
    if AnswersOk(call) {
      if call.settled {
        SettledLink(w.db, v.db, id, call.ref);
      } else {
        MoveAdds(w.db, v.db, id, Submitting, Sent, call.ref, System);
      }
    }
  }

  /** A step adds regular events only, unless it is a submission answered as settled. */
  lemma StepRegularIff(w: World, a: Action)
    requires Core(w)
    ensures AddsRegular(w.db, Apply(w, a).db) <==> !SettledAnswer(w, a)
  {
    hide Core, AddsRegular, Apply, SubmitPix, AllChecked, WriteAll;
    if Worker(a) && a.id !in w.db.payments {
      MissingUntouched(w, a);
      AddsRefl(w.db, w.db);
    } else if a.DoPrevalidate? {
      PrevalidateAdds(w, a.id, a.dict, a.rules);
    } else if a.DoSubmitPix? {
      CoreRow(w, a.id);
      SubmitPixRegularIff(w, a.id, a.call);
      SubmitPixStep(w, a.id, a.call);
    } else {
      var xs := CheckedWrites(w, a);
      CheckedAllAdd(w, xs);
    }
  }

  lemma SubmitPixStep(w: World, id: Id, call: BankCall)
    ensures Apply(w, DoSubmitPix(id, call)) == SubmitPix(w, id, call).0
  {
  }

  // ---- runs ----

  /** Somewhere in the run a submission is answered as settled. */
  predicate SomeSettledAnswer(w: World, actions: seq<Action>)
    decreases actions
  {
    actions != [] && (SettledAnswer(w, actions[0]) || SomeSettledAnswer(Apply(w, actions[0]), actions[1..]))
  }

  lemma RegularPrefix(t: Tables, u: Tables)
    requires t.events <= u.events
    ensures RegularFrom(u.events, 0) <==> RegularFrom(t.events, 0) && RegularFrom(u.events, |t.events|)
  {
    assert forall i :: 0 <= i < |t.events| ==> u.events[i] == t.events[i];
  }

  lemma {:induction false} PlayRegularIff(w: World, actions: seq<Action>)
    requires Core(w)
    ensures RegularFrom(Play(w, actions).db.events, 0) <==>
              RegularFrom(w.db.events, 0) && !SomeSettledAnswer(w, actions)
    decreases actions
  {
    hide Core, Apply, RegularFrom, SettledAnswer;
    if actions != [] {
      var v := Apply(w, actions[0]);
      StepCore(w, actions[0]);
      StepRegularIff(w, actions[0]);
      StepLater(w, actions[0]);
      RegularPrefix(w.db, v.db);
      PlayRegularIff(v, actions[1..]);
    }
  }

  /**
   After any steps whatsoever, every link of every trail is a table edge, a reschedule or a self
   link if and only if no submission on the way was answered as settled.
   */
  lemma TrailsOnTableIff(payers: set<Id>, actions: seq<Action>)
    ensures (forall e :: e in Play(Fresh(payers), actions).db.events ==> Regular(e)) <==>
              !SomeSettledAnswer(Fresh(payers), actions)
  {
    hide Regular, SomeSettledAnswer, Play;
    var events := Play(Fresh(payers), actions).db.events;
    FreshCore(payers);
    PlayRegularIff(Fresh(payers), actions);
    if RegularFrom(events, 0) {
      forall e | e in events ensures Regular(e) {
        var i :| 0 <= i < |events| && events[i] == e;
      }
    } else {
      var i :| 0 <= i < |events| && !Regular(events[i]);
      assert events[i] in events;
    }
  }
}
