/** What happens once, what can be undone, and what can be tried again. */
module HubHistory {
  import opened MachineInts
  import opened Collections
  import opened PaymentStatus
  import opened Hub
  import opened HubLists
  import opened HubInvariant
  import opened HubWrites
  import opened HubCore
  import R = RunStatus

  // ---- once ----

  /** A run is handed to the bank at most once, whatever happens afterwards. */
  lemma SubmittedOnce(w: World, run: Id, user: string, later: seq<Action>, again: string)
    requires SubmitToBank(w.db, run, user).1 == Done
    ensures SubmitToBank(Play(Apply(w, DoSubmitToBank(run, user)), later).db, run, again).1 == Conflict
  {
    hide ItemIds, SelfLinks, Play;
    PlayLater(Apply(w, DoSubmitToBank(run, user)), later);
  }

  /** A run is approved at most once, whatever happens afterwards. */
  lemma ApprovedOnce(w: World, run: Id, user: string, later: seq<Action>, again: string)
    requires Approve(w.db, run, user).1 == Done
    ensures Approve(Play(Apply(w, DoApprove(run, user)), later).db, run, again).1 == IllegalTransition
  {
    hide ApproveItems, ItemIds, AmountSum, CountPix, Wrap32, Wrap64, Play;
    PlayLater(Apply(w, DoApprove(run, user)), later);
  }

  // ---- undoing ----

  /** Detaching undoes a successful attach completely. */
  lemma DetachUndoesAttach(t: Tables, run: Id, id: Id)
    requires Attach(t, run, id).1 == Done
    ensures Detach(Attach(t, run, id).0, run, id) == (t, Done)
  {
    assert t.items[id := Item(run, ChannelFor(t.payments[id].kind))] - {id} == t.items;
  }

  /** Releasing a hold restores every table but the log, which keeps both moves. */
  lemma UnholdUndoesHold(t: Tables, id: Id, user: string, other: string)
    requires Hold(t, id, user).1 == Done
    ensures Unhold(Hold(t, id, user).0, id, other) ==
            (t.(events := t.events + [Event(id, Some(Approved), OnHold, User(user)),
                                      Event(id, Some(OnHold), Approved, User(other))]), Done)
  {
    var u := Unhold(Hold(t, id, user).0, id, other).0;
    assert u.payments == t.payments;
    var e, f := Event(id, Some(Approved), OnHold, User(user)), Event(id, Some(OnHold), Approved, User(other));
    assert u.events == t.events + [e] + [f] == t.events + [e, f];
    assert Unhold(Hold(t, id, user).0, id, other).1 == Done;
    assert u == t.(events := u.events);
  }

  /**
   Rescheduling succeeds exactly for a payment in one of five statuses outside locked runs. It then
   stands at PREVALIDATED, whatever it was, is attached to no run, and its trail says who did it;
   nothing else changes. A refusal changes nothing.
   */
  lemma RescheduleExact(t: Tables, id: Id, user: string)
    requires ItemsOk(t)
    ensures var (u, o) := Reschedule(t, id, user);
            && (o == Done <==>
                  id in t.payments && t.payments[id].status !in NOT_RESCHEDULED
                  && !(id in t.items && t.runs[t.items[id].run].status in IN_FORCE))
            && (o == Done ==>
                  && u.payments == t.payments[id := t.payments[id].(status := Prevalidated)]
                  && (forall q :: q in u.items <==> q in t.items && q != id)
                  && (forall q :: q in u.items ==> u.items[q] == t.items[q])
                  && u == t.(payments := u.payments, items := u.items, events := u.events)
                  && u.events == t.events + [Event(id, Some(t.payments[id].status), Prevalidated, User(user))])
            && (o != Done ==> u == t && o == if id in t.payments then Conflict else NotFound)
  {
    assert id in t.items ==> t.items[id].run in t.runs;
    assert forall run :: id in t.items && t.items[id].run == run ==>
      (IsLocked(t, run) <==> R.Locked(t.runs[run].status));
    if id in t.items && !IsLocked(t, t.items[id].run) {
      assert forall run :: IsLocked(t, run) ==> !(id in t.items && t.items[id].run == run);
    }
  }

  const IN_FORCE: set<R.Status> := {R.Approved, R.Executing, R.PartiallySettled}

  const NOT_RESCHEDULED: set<Status> := {Approved, Submitting, Sent, Settled, Failed, Rejected, Canceled, Expired}

  // ---- trying again ----

  /** A prevalidation attempt that ended in an error leaves nothing that the next attempt would not do. */
  lemma PrevalidationResumes(
    t: Tables, id: Id, dict: DictReply, rules: RulesReply, dict2: DictReply, rules2: RulesReply)
    requires Prevalidate(t, id, dict, rules).1 == Retry
    ensures Prevalidate(Prevalidate(t, id, dict, rules).0, id, dict2, rules2) == Prevalidate(t, id, dict2, rules2)
  {
  }

  function Attempts(w: World, id: Id, calls: seq<BankCall>): World
    decreases calls
  {
    if calls == [] then w else Attempts(SubmitPix(w, id, calls[0]).0, id, calls[1..])
  }

  /** Every attempt in the list fails. */
  predicate AllFail(calls: seq<BankCall>) { forall c :: c in calls ==> !AnswersOk(c) }

  /**
   However often a submission is tried in vain before, with the reply lost or the bank out of reach,
   the attempt that is answered leaves the same tables as if it had been the only one.
   */
  lemma {:induction false} FailedAttemptsLeaveNoTrace(w: World, id: Id, calls: seq<BankCall>, last: BankCall)
    requires AllFail(calls) && id in w.db.payments && w.db.payments[id].key != ""
    ensures SubmitPix(Attempts(w, id, calls), id, last).0.db == SubmitPix(w, id, last).0.db
    decreases calls
  {
    if calls != [] {
      assert calls[0] in calls;
      var w1 := SubmitPix(w, id, calls[0]).0;
      OneFailedAttempt(w, id, calls[0], last);
      FailedAttemptsLeaveNoTrace(w1, id, calls[1..], last);
    }
  }

  lemma OneFailedAttempt(w: World, id: Id, call: BankCall, last: BankCall)
    requires !AnswersOk(call) && id in w.db.payments && w.db.payments[id].key != ""
    ensures var w1 := SubmitPix(w, id, call).0;
            && id in w1.db.payments && w1.db.payments[id].key == w.db.payments[id].key
            && SubmitPix(w1, id, last).0.db == SubmitPix(w, id, last).0.db
  {
    hide FindDebit;
  }
}
