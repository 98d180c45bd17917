/** Exact outcomes of the steps that touch many payments: approving a run, and auto-grouping. */
module HubExact {
  import opened MachineInts
  import opened Collections
  import opened PaymentStatus
  import opened Hub
  import opened HubLists
  import opened HubInvariant
  import R = RunStatus

  // ---- approval ----

  function StampedPayments(payments: map<Id, Payment>, ids: seq<Id>): map<Id, Payment> {
    map id | id in payments :: if id in ids then payments[id].(status := Approved) else payments[id]
  }

  /** Every listed payment approved at once, with one event each in list order. */
  function Stamped(t: Tables, ids: seq<Id>, user: string): Tables {
    var approvals :=
      seq(|ids|, i requires 0 <= i < |ids| => Event(ids[i], Some(Prevalidated), Approved, User(user)));
    t.(payments := StampedPayments(t.payments, ids), events := t.events + approvals)
  }

  /** The loop can pass position k: an existing prevalidated payment that was not listed before. */
  predicate Approvable(t: Tables, ids: seq<Id>, k: nat)
    requires k < |ids|
  {
    ids[k] in t.payments && t.payments[ids[k]].status == Prevalidated && ids[k] !in ids[..k]
  }

  /** How far the loop gets. */
  function Passed(t: Tables, ids: seq<Id>, k: nat): (n: nat)
    requires k <= |ids|
    ensures k <= n <= |ids|
    ensures forall i :: k <= i < n ==> Approvable(t, ids, i)
    ensures n < |ids| ==> !Approvable(t, ids, n)
    decreases |ids| - k
  {
    if k == |ids| || !Approvable(t, ids, k) then k else Passed(t, ids, k + 1)
  }

  lemma StampOne(t: Tables, ids: seq<Id>, k: nat, user: string)
    requires k < |ids| && Approvable(t, ids, k)
    ensures Move(Stamped(t, ids[..k], user), ids[k], Prevalidated, Approved, "", User(user))
         == Stamped(t, ids[..k + 1], user)
  {
    var a := Move(Stamped(t, ids[..k], user), ids[k], Prevalidated, Approved, "", User(user));
    var b := Stamped(t, ids[..k + 1], user);
    assert ids[..k + 1] == ids[..k] + [ids[k]];
    assert a.payments == b.payments;
    assert a.events == b.events;
  }

  /** How the loop ends when it got as far as position n. */
  function StopAt(t: Tables, ids: seq<Id>, n: nat): Outcome
    requires n <= |ids|
  {
    if n == |ids| then Done else if ids[n] in t.payments then Conflict else NotFound
  }

  /** From any point on, the loop stamps a prefix and stops at the first payment it cannot approve. */
  lemma {:induction false} ApproveItemsFrom(t: Tables, ids: seq<Id>, k: nat, user: string)
    requires k <= |ids| && forall i :: 0 <= i < k ==> Approvable(t, ids, i)
    ensures ApproveItems(Stamped(t, ids[..k], user), ids[k..], user)
         == (Stamped(t, ids[..Passed(t, ids, k)], user), StopAt(t, ids, Passed(t, ids, k)))
    decreases |ids| - k
  {
    hide Stamped, Move;
    if k < |ids| {
      StampedStatus(t, ids, k, user);
      if Approvable(t, ids, k) {
        StampOne(t, ids, k, user);
        ApproveItemsFrom(t, ids, k + 1, user);
        assert ids[k..][1..] == ids[k + 1..];
      }
    }
  }

  lemma StampedStatus(t: Tables, ids: seq<Id>, k: nat, user: string)
    requires k < |ids|
    ensures var u := Stamped(t, ids[..k], user);
            && (ids[k] in u.payments <==> ids[k] in t.payments)
            && (Approvable(t, ids, k) <==> ids[k] in u.payments && u.payments[ids[k]].status == Prevalidated)
  {
  }

  lemma StampNothing(t: Tables, user: string)
    ensures Stamped(t, [], user) == t
  {
    assert StampedPayments(t.payments, []) == t.payments;
  }

  /**
   The approval loop over any list of ids: the longest approvable prefix is approved, each payment
   once with one user event, in order; it succeeds exactly when the listed ids are distinct
   existing prevalidated payments.
   */
  lemma ApproveItemsExact(t: Tables, ids: seq<Id>, user: string)
    ensures ApproveItems(t, ids, user)
         == (Stamped(t, ids[..Passed(t, ids, 0)], user), StopAt(t, ids, Passed(t, ids, 0)))
    ensures ApproveItems(t, ids, user).1 == Done <==>
              NoDup(ids) && forall id :: id in ids ==> id in t.payments && t.payments[id].status == Prevalidated
  {
    hide Stamped;
    StampNothing(t, user);
    assert ids[..0] == [] && ids[0..] == ids;
    ApproveItemsFrom(t, ids, 0, user);
    AllPassedIff(t, ids);
  }

  lemma AllPassedIff(t: Tables, ids: seq<Id>)
    ensures Passed(t, ids, 0) == |ids| <==>
              NoDup(ids) && forall id :: id in ids ==> id in t.payments && t.payments[id].status == Prevalidated
  {
    var n := Passed(t, ids, 0);
    if n == |ids| {
      forall i, j | 0 <= i < j < |ids| ensures ids[i] != ids[j] {
        assert Approvable(t, ids, j) && ids[i] in ids[..j];
      }
      forall id | id in ids ensures id in t.payments && t.payments[id].status == Prevalidated {
        var i :| 0 <= i < |ids| && ids[i] == id;
        assert Approvable(t, ids, i);
      }
    }
  }

  /** The run can be approved as it stands. */
  predicate ApprovableRun(t: Tables, run: Id) {
    run in t.runs && t.runs[run].status == R.Open
    && forall id :: id in t.items && t.items[id].run == run ==>
         id in t.payments && t.payments[id].status == Prevalidated
  }

  /** The run's row after its approval. */
  function ApprovedRow(t: Tables, run: Id, user: string): Run
    requires run in t.runs
  {
    WithTotals(t.runs[run], t.payments, ItemIds(t.items, run)).(status := R.Approved, approvedBy := user)
  }

  /**
   ApproveRun succeeds exactly for an open run all of whose payments are prevalidated. Then all of
   them are approved, with one event each in list order, and the run carries the aggregate; nothing
   else changes. Otherwise the run stays as it is and exactly a prefix of its list was approved.
   */
  lemma ApproveExact(t: Tables, run: Id, user: string)
    ensures Approve(t, run, user).1 == Done <==> ApprovableRun(t, run)
    ensures ApprovableRun(t, run) ==>
              Approve(t, run, user).0 ==
              Stamped(t, ItemIds(t.items, run), user).(runs := t.runs[run := ApprovedRow(t, run, user)])
    ensures !ApprovableRun(t, run) && run in t.runs && t.runs[run].status == R.Open ==>
              var ids := ItemIds(t.items, run);
              && Passed(t, ids, 0) < |ids| && Approve(t, run, user).0 == Stamped(t, ids[..Passed(t, ids, 0)], user)
              && Approve(t, run, user).1 == if ids[Passed(t, ids, 0)] in t.payments then Conflict else NotFound
    ensures !(run in t.runs && t.runs[run].status == R.Open) ==>
              Approve(t, run, user) == (t, if run in t.runs then IllegalTransition else NotFound)
  {
    hide Stamped, WithTotals, Approve, ApprovableRun, ItemIds;
    if run in t.runs && t.runs[run].status == R.Open {
      ApprovableIff(t, run);
      ApproveOpen(t, run, user);
      assert ItemIds(t.items, run)[..|ItemIds(t.items, run)|] == ItemIds(t.items, run);
    } else {
      ApproveRefused(t, run, user);
    }
  }

  lemma ApprovableIff(t: Tables, run: Id)
    requires run in t.runs && t.runs[run].status == R.Open
    ensures ApprovableRun(t, run) <==> Passed(t, ItemIds(t.items, run), 0) == |ItemIds(t.items, run)|
  {
    ItemIdsMembers(t.items, run);
    AllPassedIff(t, ItemIds(t.items, run));
  }

  lemma ApproveRefused(t: Tables, run: Id, user: string)
    requires !(run in t.runs && t.runs[run].status == R.Open)
    ensures Approve(t, run, user) == (t, if run in t.runs then IllegalTransition else NotFound)
    ensures !ApprovableRun(t, run)
  {
  }

  lemma ApproveOpen(t: Tables, run: Id, user: string)
    requires run in t.runs && t.runs[run].status == R.Open
    ensures var ids := ItemIds(t.items, run);
            var n := Passed(t, ids, 0);
            var u := Stamped(t, ids[..n], user);
            Approve(t, run, user) ==
            if n < |ids| then (u, StopAt(t, ids, n))
            else (u.(runs := t.runs[run := ApprovedRow(t, run, user)]), Done)
  {
    hide Stamped, WithTotals, ItemIds;
    assert R.CanTransition(R.Open, R.Approved);
    ApproveItemsExact(t, ItemIds(t.items, run), user);
    StampedFrame(t, ItemIds(t.items, run)[..Passed(t, ItemIds(t.items, run), 0)], user);
  }

  lemma StampedFrame(t: Tables, ids: seq<Id>, user: string)
    ensures Stamped(t, ids, user).runs == t.runs && Stamped(t, ids, user).items == t.items
  {
  }

  /** The counters add up exactly when they fit 32 bits, and the total is the true sum exactly when it fits 64. */
  lemma ApprovedTotals(t: Tables, run: Id, user: string)
    requires ApprovableRun(t, run) && forall id :: id in t.payments ==> t.payments[id].amount > 0
    ensures run in Approve(t, run, user).0.runs
    ensures var (r, ids) := (Approve(t, run, user).0.runs[run], ItemIds(t.items, run));
            && (r.totalItems == r.pixCount + r.tedCount == |ids| <==> |ids| <= 0x7FFF_FFFF)
            && (r.totalAmount == AmountSum(t.payments, ids) <==> AmountSum(t.payments, ids) <= MAX64)
  {
    hide Stamped, Approve;
    ApproveExact(t, run, user);
    PositiveSum(t.payments, ItemIds(t.items, run));
    PixAtMost(t.payments, ItemIds(t.items, run));
  }

  lemma {:induction false} PositiveSum(payments: map<Id, Payment>, ids: seq<Id>)
    requires forall id :: id in payments ==> payments[id].amount > 0
    ensures AmountSum(payments, ids) >= 0
  {
    if ids != [] { PositiveSum(payments, ids[..|ids| - 1]); }
  }

  lemma {:induction false} PixAtMost(payments: map<Id, Payment>, ids: seq<Id>)
    ensures CountPix(payments, ids) <= |ids|
  {
    if ids != [] { PixAtMost(payments, ids[..|ids| - 1]); }
  }

  /** A partly approved run cannot be approved by trying again, whatever the second user. */
  lemma RetryOfPartialApprovalFails(t: Tables, run: Id, user: string, again: string)
    requires run in t.runs && t.runs[run].status == R.Open && !ApprovableRun(t, run)
    requires Approve(t, run, user).0 != t
    ensures Approve(Approve(t, run, user).0, run, again) == (Approve(t, run, user).0, Conflict)
  {
    ApproveExact(t, run, user);
    var ids, u := ItemIds(t.items, run), Approve(t, run, user).0;
    var n := Passed(t, ids, 0);
    StampNothing(t, user);
    assert Approvable(t, ids, 0);
    assert ids[0] in ids[..n];
    assert ItemIds(u.items, run) == ids;
    assert u.payments[ids[0]].status == Approved;
  }

  // ---- auto-grouping ----

  /** Attaching a list to a run: what was attached stays, every other listed payment joins the run. */
  lemma {:induction false} AttachAllExact(t: Tables, run: Id, ids: seq<Id>)
    requires forall id :: id in ids ==> id in t.payments
    ensures var u := AttachAll(t, run, ids);
            && u == t.(items := u.items)
            && (forall id :: id in u.items <==> id in t.items || id in ids)
            && (forall id :: id in t.items ==> u.items[id] == t.items[id])
            && (forall id :: id in ids && id !in t.items ==> u.items[id] == Item(run, ChannelFor(t.payments[id].kind)))
    decreases ids
  {
    if ids != [] {
      assert ids == [ids[0]] + ids[1..];
      var t1 := InsertItem(t, run, ids[0], ChannelFor(t.payments[ids[0]].kind)).0;
      assert t1.payments == t.payments;
      AttachAllExact(t1, run, ids[1..]);
    }
  }

  /**
   Auto-grouping, for any number of rows: the newest 1000 prevalidated payments end attached; the new
   run holds exactly those of them that were attached nowhere, on the channel of their type; every
   other attachment and all other tables are as before. A run is created as soon as anything is
   prevalidated, whether or not it gets a payment.
   */
  lemma AutoGroupExact(t: Tables, run: Id)
    requires RowsOk(t) && ItemsOk(t) && run !in t.runs
    ensures var (u, listed) := (AutoGroup(t, run).0, ListByStatus(t, Prevalidated, 1000));
            && (forall id :: id in listed ==> id in u.items)
            && (forall id :: id in t.items ==> id in u.items && u.items[id] == t.items[id])
            && (forall id :: id in u.items && u.items[id].run == run <==> id in listed && id !in t.items)
            && (forall id :: id in u.items && id !in t.items ==>
                  id in t.payments && u.items[id] == Item(run, ChannelFor(t.payments[id].kind)))
            && u == t.(items := u.items, runs := u.runs)
            && u.runs == (if exists id :: id in t.payments && t.payments[id].status == Prevalidated
                          then t.runs[run := NewRun()] else t.runs)
  {
    SelectedMembers(t.payments, t.newestFirst, Prevalidated);
    var all, ids := Selected(t.payments, t.newestFirst, Prevalidated), ListByStatus(t, Prevalidated, GROUP_LIMIT);
    assert forall id :: id in ids ==> id in all;
    AttachAllExact(t.(runs := t.runs[run := NewRun()]), run, ids);
    if id :| id in t.payments && t.payments[id].status == Prevalidated { assert id in all; }
    if ids != [] { assert ids[0] in ids; }
  }

  /** With at most 1000 prevalidated payments, none of them is left unattached. */
  lemma AutoGroupLeavesNone(t: Tables, run: Id, id: Id)
    requires RowsOk(t) && ItemsOk(t) && run !in t.runs
    requires |Selected(t.payments, t.newestFirst, Prevalidated)| <= 1000
    requires id in t.payments && t.payments[id].status == Prevalidated
    ensures id in AutoGroup(t, run).0.items
  {
    SelectedMembers(t.payments, t.newestFirst, Prevalidated);
    AutoGroupExact(t, run);
  }

  /**
   Grouping again adds nothing but another empty run: the same newest 1000 payments are listed, and
   all of them are attached. Older unattached ones wait until some of these have left PREVALIDATED.
   */
  lemma GroupingAgainIsEmpty(t: Tables, run: Id, again: Id)
    requires RowsOk(t) && ItemsOk(t) && run !in t.runs && again !in AutoGroup(t, run).0.runs
    requires exists id :: id in t.payments && t.payments[id].status == Prevalidated
    ensures var u := AutoGroup(t, run).0;
            AutoGroup(u, again).0 == u.(runs := u.runs[again := NewRun()])
  {
    hide AutoGroup, Selected;
    var u := AutoGroup(t, run).0;
    AutoGroupExact(t, run);
    assert RowsOk(u) && ItemsOk(u) by { GroupedRowsOk(t, u, run); }
    AutoGroupExact(u, again);
    var v := AutoGroup(u, again).0;
    assert ListByStatus(u, Prevalidated, GROUP_LIMIT) == ListByStatus(t, Prevalidated, GROUP_LIMIT);
    assert forall id :: id in v.items ==> id in u.items;
    assert v.items == u.items;
  }

  lemma GroupedRowsOk(t: Tables, u: Tables, run: Id)
    requires RowsOk(t) && ItemsOk(t) && u == t.(items := u.items, runs := u.runs)
    requires forall id :: id in t.items ==> id in u.items && u.items[id] == t.items[id]
    requires forall id :: id in u.items && id !in t.items ==>
      id in t.payments && u.items[id] == Item(run, ChannelFor(t.payments[id].kind))
    requires run in u.runs && forall r :: r in t.runs ==> r in u.runs
    ensures RowsOk(u) && ItemsOk(u)
  {
    forall id | id in u.items
      ensures id in u.payments && u.items[id].run in u.runs && u.items[id].channel == ChannelFor(u.payments[id].kind)
    {
      assert id in t.items ==> u.items[id] == t.items[id];
    }
  }
}
