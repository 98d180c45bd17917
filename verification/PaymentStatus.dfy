/** The payment lifecycle table, and how long a payment's history can get. */
module PaymentStatus {

  datatype Status =
    | Received | ValidatedLocal | UnderReview | Prevalidated | Approved | OnHold | Submitting
    | Sent | Settled | Failed | Rejected | Canceled | Expired
  {
    predicate IsTerminal() { Settled? || Rejected? || Canceled? || Expired? }
  }

  function Destinations(from: Status): set<Status> {
    match from
    case Received => {ValidatedLocal, Rejected, Canceled}
    case ValidatedLocal => {UnderReview, Prevalidated, Rejected, Canceled}
    case UnderReview => {ValidatedLocal, Rejected, Canceled}
    case Prevalidated => {Approved, Rejected, Canceled, Expired}
    case Approved => {Submitting, OnHold, Canceled, Expired}
    case OnHold => {Approved, Canceled}
    case Submitting => {Submitting, Sent, Failed}
    case Sent => {Settled, Failed}
    case Failed => {Submitting}
    case _ => {}
  }

  predicate CanTransition(from: Status, to: Status) { to in Destinations(from) }

  /** The table read backwards: where a payment in each status may come from. */
  lemma Origins(s: Status)
    ensures !CanTransition(s, Received)
    ensures CanTransition(s, ValidatedLocal) <==> s == Received || s == UnderReview
    ensures CanTransition(s, UnderReview) <==> s == ValidatedLocal
    ensures CanTransition(s, Prevalidated) <==> s == ValidatedLocal
    ensures CanTransition(s, Approved) <==> s == Prevalidated || s == OnHold
    ensures CanTransition(s, OnHold) <==> s == Approved
    ensures CanTransition(s, Submitting) <==> s == Approved || s == Submitting || s == Failed
    ensures CanTransition(s, Sent) <==> s == Submitting
    ensures CanTransition(s, Settled) <==> s == Sent
    ensures CanTransition(s, Failed) <==> s == Submitting || s == Sent
    ensures CanTransition(s, Rejected) <==>
              s == Received || s == ValidatedLocal || s == UnderReview || s == Prevalidated
    ensures CanTransition(s, Canceled) <==>
              || s == Received || s == ValidatedLocal || s == UnderReview || s == Prevalidated || s == Approved
              || s == OnHold
    ensures CanTransition(s, Expired) <==> s == Prevalidated || s == Approved
  {
  }

  /** The statuses called terminal are exactly those the table leaves no way out of. */
  lemma TerminalIffNoWayOut(s: Status)
    ensures s.IsTerminal() <==> forall t: Status :: !CanTransition(s, t)
  {
    assert s.IsTerminal() || CanTransition(s, Rejected) || CanTransition(s, Canceled) || CanTransition(s, Failed)
           || CanTransition(s, Submitting);
  }

  // ---- histories ----

  /** A history that starts at RECEIVED and follows the table. */
  predicate Legal(h: seq<Status>) {
    h != [] && h[0] == Received && forall i :: 0 < i < |h| ==> CanTransition(h[i - 1], h[i])
  }

  /** How often a history goes back: review returns, unholds, resubmissions, retries of a failure. */
  datatype Returns = Returns(reviews: nat, unholds: nat, resubmits: nat, retries: nat) {
    function Add(from: Status, to: Status): Returns {
      match (from, to)
      case (UnderReview, ValidatedLocal) => this.(reviews := reviews + 1)
      case (OnHold, Approved) => this.(unholds := unholds + 1)
      case (Submitting, Submitting) => this.(resubmits := resubmits + 1)
      case (Failed, Submitting) => this.(retries := retries + 1)
      case _ => this
    }

    function Bound(): nat { 6 + 2 * reviews + 2 * unholds + resubmits + 3 * retries }
  }

  function ReturnsOf(h: seq<Status>): Returns {
    if |h| < 2 then Returns(0, 0, 0, 0) else ReturnsOf(h[..|h| - 1]).Add(h[|h| - 2], h[|h| - 1])
  }

  /** Forward steps still possible without going back. */
  function Rank(s: Status): nat {
    match s
    case Received => 6
    case ValidatedLocal => 5
    case UnderReview | Prevalidated => 4
    case Approved => 3
    case OnHold | Submitting => 2
    case Sent => 1
    case _ => 0
  }

  /** One step costs one rank, except a return, which the tally pays for. */
  lemma RankStep(r: Returns, s: Status, t: Status)
    requires CanTransition(s, t)
    ensures r.Bound() + 1 + Rank(t) <= r.Add(s, t).Bound() + Rank(s)
  {
  }

  lemma {:induction false} RankedLength(h: seq<Status>)
    requires Legal(h)
    ensures |h| - 1 + Rank(h[|h| - 1]) <= ReturnsOf(h).Bound()
  {
    if |h| > 1 {
      var init := h[..|h| - 1];
      RankedLength(init);
      RankStep(ReturnsOf(init), h[|h| - 2], h[|h| - 1]);
    }
  }

  /** A legal history is bounded by how often it goes back, and nothing follows a terminal status. */
  lemma HistoryBound(h: seq<Status>)
    requires Legal(h)
    ensures |h| - 1 <= ReturnsOf(h).Bound()
    ensures forall i :: 0 <= i < |h| - 1 ==> !h[i].IsTerminal()
  {
    RankedLength(h);
    forall i | 0 <= i < |h| - 1 ensures !h[i].IsTerminal() {
      assert CanTransition(h[i + 1 - 1], h[i + 1]);
      TerminalIffNoWayOut(h[i]);
    }
  }

  // ---- the bound is reached ----

  lemma Extend(h: seq<Status>, s: Status)
    requires Legal(h) && CanTransition(h[|h| - 1], s)
    ensures Legal(h + [s]) && ReturnsOf(h + [s]) == ReturnsOf(h).Add(h[|h| - 1], s)
  {
    assert (h + [s])[..|h|] == h;
  }

  ghost predicate At(h: seq<Status>, s: Status, r: Returns, n: nat) {
    Legal(h) && h[|h| - 1] == s && ReturnsOf(h) == r && |h| - 1 == n
  }

  lemma Go(h: seq<Status>, s: Status, r: Returns, n: nat, t: Status)
    requires At(h, s, r, n) && CanTransition(s, t)
    ensures At(h + [t], t, r.Add(s, t), n + 1)
  {
    Extend(h, t);
  }

  lemma {:induction false} ReviewTour(a: nat) returns (h: seq<Status>)
    ensures At(h, ValidatedLocal, Returns(a, 0, 0, 0), 1 + 2 * a)
  {
    if a == 0 {
      Go([Received], Received, Returns(0, 0, 0, 0), 0, ValidatedLocal);
      h := [Received] + [ValidatedLocal];
    } else {
      h := ReviewTour(a - 1);
      Go(h, ValidatedLocal, Returns(a - 1, 0, 0, 0), 2 * a - 1, UnderReview);
      h := h + [UnderReview];
      Go(h, UnderReview, Returns(a - 1, 0, 0, 0), 2 * a, ValidatedLocal);
      h := h + [ValidatedLocal];
    }
  }

  lemma {:induction false} HoldTour(a: nat, b: nat) returns (h: seq<Status>)
    ensures At(h, Approved, Returns(a, b, 0, 0), 3 + 2 * a + 2 * b)
    decreases b
  {
    if b == 0 {
      h := ReviewTour(a);
      Go(h, ValidatedLocal, Returns(a, 0, 0, 0), 1 + 2 * a, Prevalidated);
      h := h + [Prevalidated];
      Go(h, Prevalidated, Returns(a, 0, 0, 0), 2 + 2 * a, Approved);
      h := h + [Approved];
    } else {
      h := HoldTour(a, b - 1);
      Go(h, Approved, Returns(a, b - 1, 0, 0), 1 + 2 * a + 2 * b, OnHold);
      h := h + [OnHold];
      Go(h, OnHold, Returns(a, b - 1, 0, 0), 2 + 2 * a + 2 * b, Approved);
      h := h + [Approved];
    }
  }

  lemma {:induction false} SubmitTour(a: nat, b: nat, c: nat) returns (h: seq<Status>)
    ensures At(h, Submitting, Returns(a, b, c, 0), 4 + 2 * a + 2 * b + c)
    decreases c
  {
    if c == 0 {
      h := HoldTour(a, b);
      Go(h, Approved, Returns(a, b, 0, 0), 3 + 2 * a + 2 * b, Submitting);
    } else {
      h := SubmitTour(a, b, c - 1);
      Go(h, Submitting, Returns(a, b, c - 1, 0), 3 + 2 * a + 2 * b + c, Submitting);
    }
    h := h + [Submitting];
  }

  lemma {:induction false} RetryTour(a: nat, b: nat, c: nat, d: nat) returns (h: seq<Status>)
    ensures At(h, Submitting, Returns(a, b, c, d), 4 + 2 * a + 2 * b + c + 3 * d)
    decreases d
  {
    if d == 0 {
      h := SubmitTour(a, b, c);
    } else {
      h := RetryTour(a, b, c, d - 1);
      var n, r := 1 + 2 * a + 2 * b + c + 3 * d, Returns(a, b, c, d - 1);
      Go(h, Submitting, r, n, Sent);
      h := h + [Sent];
      Go(h, Sent, r, n + 1, Failed);
      h := h + [Failed];
      Go(h, Failed, r, n + 2, Submitting);
      h := h + [Submitting];
    }
  }

  /** The bound is exact: for every tally of returns some legal history has exactly that length. */
  lemma BoundReached(r: Returns) returns (h: seq<Status>)
    ensures Legal(h) && ReturnsOf(h) == r && |h| - 1 == r.Bound()
  {
    h := RetryTour(r.reviews, r.unholds, r.resubmits, r.retries);
    Go(h, Submitting, r, r.Bound() - 2, Sent);
    h := h + [Sent];
    Go(h, Sent, r, r.Bound() - 1, Settled);
    h := h + [Settled];
  }
}
