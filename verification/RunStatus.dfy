/** The lifecycle table of a payment run, and the execution channels of its items. */
module RunStatus {

  datatype Status = Open | Approved | Executing | PartiallySettled | Closed | Failed

  datatype Channel = PixRest | CnabTed

  function Destinations(from: Status): set<Status> {
    match from
    case Open => {Approved, Closed}
    case Approved => {Executing, Failed}
    case Executing => {PartiallySettled, Closed, Failed}
    case PartiallySettled => {Closed, Failed}
    case _ => {}
  }

  predicate CanTransition(from: Status, to: Status) { to in Destinations(from) }

  /** A run whose counters were fixed by an approval and that has not ended. */
  predicate Locked(s: Status) { s == Approved || s == Executing || s == PartiallySettled }

  /** The table read backwards: where a run in each status may come from. */
  lemma Origins(s: Status)
    ensures !CanTransition(s, Open)
    ensures CanTransition(s, Approved) <==> s == Open
    ensures CanTransition(s, Executing) <==> s == Approved
    ensures CanTransition(s, PartiallySettled) <==> s == Executing
    ensures CanTransition(s, Closed) <==> s == Open || s == Executing || s == PartiallySettled
    ensures CanTransition(s, Failed) <==> s == Approved || s == Executing || s == PartiallySettled
  {
  }

  /** The aggregate's own copy of its status. */
  class Run {
    var status: Status

    constructor ()
      ensures status == Open
    {
      status := Open;
    }

    method ApplyTransition(to: Status) returns (ok: bool)
      modifies this
      ensures ok <==> CanTransition(old(status), to)
      ensures status == if ok then to else old(status)
    {
      if !CanTransition(status, to) { return false; }
      status := to;
      ok := true;
    }
  }

  /** How far a run has come; a transition always goes further. */
  function Rank(s: Status): (r: nat)
    ensures r == 4 <==> s == Closed || s == Failed
  {
    match s
    case Open => 0
    case Approved => 1
    case Executing => 2
    case PartiallySettled => 3
    case Closed | Failed => 4
  }

  predicate Legal(h: seq<Status>) {
    h != [] && h[0] == Open && forall i :: 0 < i < |h| ==> CanTransition(h[i - 1], h[i])
  }

  /** A run's history has at most four transitions, never repeats a status, and ends once it is closed or failed. */
  lemma {:induction false} RunHistoryBound(h: seq<Status>)
    requires Legal(h)
    ensures |h| - 1 <= Rank(h[|h| - 1]) <= 4
    ensures forall i, j :: 0 <= i < j < |h| ==> Rank(h[i]) < Rank(h[j])
  {
    if |h| > 1 {
      var init := h[..|h| - 1];
      RunHistoryBound(init);
      assert CanTransition(h[|h| - 2], h[|h| - 1]);
      assert forall i :: 0 <= i < |h| - 1 ==> h[i] == init[i] && Rank(h[i]) <= Rank(init[|init| - 1]);
    }
  }
}
