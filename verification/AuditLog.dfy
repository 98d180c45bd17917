/**
 The audit trail: replaying a payment's events is a small automaton that also remembers whether a
 user has approved the payment since it was last prevalidated. A trail that the automaton accepts
 is a chain, and it ends in the stored status.
 */
module AuditLog {
  import opened Collections
  import opened PaymentStatus
  import opened Hub

  /**
   The links a trail may have: a table edge, a reschedule, the self link of a submission, or a
   settlement reported with the submission itself, which the table does not list.
   */
  predicate Link(from: Status, to: Status, actor: Actor) {
    || CanTransition(from, to)
    || (to == Prevalidated && Reschedulable(from) && actor.User?)
    || (from == to && actor.User?)
    || (from == Submitting && to == Settled && actor == System)
  }

  predicate IsApproval(e: Event) { e.from == Some(Prevalidated) && e.to == Approved && e.actor.User? }

  /** The statuses a payment may only have after a user approved it. */
  predicate NeedsApproval(s: Status) {
    s == Approved || s == OnHold || s == Submitting || s == Sent || s == Settled || s == Failed
  }

  datatype Trail = Absent | Broken | Standing(status: Status, approved: bool)

  function StillApproved(before: bool, e: Event): bool {
    if e.to == Prevalidated then false else before || IsApproval(e)
  }

  function Next(tr: Trail, e: Event): Trail {
    match tr
    case Broken => Broken
    case Absent => if e.from == None && e.to == Received then Standing(Received, false) else Broken
    case Standing(s, approved) =>
      if e.from == Some(s) && Link(s, e.to, e.actor) && (NeedsApproval(e.to) ==> StillApproved(approved, e))
      then Standing(e.to, StillApproved(approved, e))
      else Broken
  }

  function Replay(events: seq<Event>, id: Id): Trail {
    if events == [] then Absent
    else
      var init, e := events[..|events| - 1], events[|events| - 1];
      if e.payment == id then Next(Replay(init, id), e) else Replay(init, id)
  }

  lemma ReplayAppend(events: seq<Event>, e: Event, id: Id)
    ensures Replay(events + [e], id) == if e.payment == id then Next(Replay(events, id), e) else Replay(events, id)
  {
    assert (events + [e])[..|events|] == events;
  }

  // ---- what an accepted trail says, event by event ----

  /** No event of the payment lies strictly between positions i and j. */
  ghost predicate Quiet(events: seq<Event>, id: Id, i: int, j: int) {
    forall k :: i < k < j && 0 <= k < |events| ==> events[k].payment != id
  }

  /** Every prefix of an accepted trail is accepted. */
  lemma {:induction false} ReplayPrefix(events: seq<Event>, id: Id, n: nat)
    requires n <= |events| && Replay(events, id) != Broken
    ensures Replay(events[..n], id) != Broken
    decreases |events|
  {
    if n == |events| {
      assert events[..n] == events;
    } else {
      var init := events[..|events| - 1];
      assert init[..n] == events[..n];
      ReplayPrefix(init, id, n);
    }
  }

  /** The event at position n is accepted after the prefix before it. */
  lemma ReplayAt(events: seq<Event>, id: Id, n: nat)
    requires n < |events| && events[n].payment == id && Replay(events, id) != Broken
    ensures Replay(events[..n], id) != Broken
    ensures Replay(events[..n + 1], id) == Next(Replay(events[..n], id), events[n]) != Broken
  {
    ReplayPrefix(events, id, n);
    ReplayPrefix(events, id, n + 1);
    assert events[..n + 1] == events[..n] + [events[n]];
    ReplayAppend(events[..n], events[n], id);
  }

  /** A standing trail stands at the destination of its last event. */
  lemma {:induction false} LastEvent(events: seq<Event>, id: Id) returns (i: nat)
    requires Replay(events, id).Standing?
    ensures i < |events| && events[i].payment == id && Quiet(events, id, i, |events|)
    ensures events[i].to == Replay(events, id).status
    decreases |events|
  {
    var n := |events| - 1;
    if events[n].payment == id {
      i := n;
    } else {
      i := LastEvent(events[..n], id);
    }
  }

  lemma {:induction false} NoEvents(events: seq<Event>, id: Id)
    ensures Replay(events, id) == Absent <==> forall e :: e in events ==> e.payment != id
  {
    if events != [] {
      NoEvents(events[..|events| - 1], id);
      assert events == events[..|events| - 1] + [events[|events| - 1]];
    }
  }

  /** An approval that no later event into PREVALIDATED has undone. */
  ghost predicate ApprovedAt(events: seq<Event>, id: Id, j: nat) {
    j < |events| && events[j].payment == id && IsApproval(events[j])
    && forall k :: j < k < |events| && events[k].payment == id ==> events[k].to != Prevalidated
  }

  lemma {:induction false} ApprovalWitness(events: seq<Event>, id: Id) returns (j: nat)
    requires Replay(events, id).Standing? && Replay(events, id).approved
    ensures ApprovedAt(events, id, j)
    decreases |events|
  {
    var n := |events| - 1;
    var init := events[..n];
    if events[n].payment == id && IsApproval(events[n]) {
      j := n;
    } else {
      j := ApprovalWitness(init, id);
    }
  }

  /** The trail of one payment, spelt out over its events. */
  ghost predicate Chained(events: seq<Event>, id: Id) {
    forall n :: 0 <= n < |events| && events[n].payment == id ==> ChainedAt(events, id, n)
  }

  /**
   Event n starts the trail at RECEIVED, or continues from the payment's previous event over a
   permitted link.
   */
  ghost predicate ChainedAt(events: seq<Event>, id: Id, n: nat)
    requires n < |events|
  {
    if events[n].from == None then events[n].to == Received && Quiet(events, id, -1, n)
    else Link(events[n].from.value, events[n].to, events[n].actor)
         && exists m :: Follows(events, id, m, n)
  }

  ghost predicate Follows(events: seq<Event>, id: Id, m: nat, n: nat)
    requires n < |events|
  {
    m < n && events[m].payment == id && Quiet(events, id, m, n) && events[n].from == Some(events[m].to)
  }

  lemma AcceptedChain(events: seq<Event>, id: Id)
    requires Replay(events, id) != Broken
    ensures Chained(events, id)
  {
    forall n | 0 <= n < |events| && events[n].payment == id ensures ChainedAt(events, id, n) {
      AcceptedLink(events, id, n);
    }
  }

  lemma AcceptedLink(events: seq<Event>, id: Id, n: nat)
    requires n < |events| && events[n].payment == id && Replay(events, id) != Broken
    ensures ChainedAt(events, id, n)
  {
    ReplayAt(events, id, n);
    var before := events[..n];
    if Replay(before, id) == Absent {
      NoEvents(before, id);
      forall k | 0 <= k < n ensures events[k].payment != id {
        assert before[k] in before;
      }
    } else {
      var m := LastEvent(before, id);
      assert forall k :: m < k < n ==> events[k] == before[k];
      assert Follows(events, id, m, n);
    }
  }

  /** Whatever enters a status that needs an approval has one that is still in force. */
  lemma AcceptedApproval(events: seq<Event>, id: Id, n: nat) returns (j: nat)
    requires n < |events| && events[n].payment == id && Replay(events, id) != Broken
    requires NeedsApproval(events[n].to)
    ensures j <= n && ApprovedAt(events[..n + 1], id, j)
  {
    ReplayAt(events, id, n);
    j := ApprovalWitness(events[..n + 1], id);
  }
}
