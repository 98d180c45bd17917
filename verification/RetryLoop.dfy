/**
 The retry loop of the bank client over a script of what each attempt would meet. Durations are
 int64 nanoseconds; a wait that has wrapped to a negative duration is over at once.
 */
module RetryLoop {
  import opened MachineInts
  import opened Collections

  datatype RetryError = Unreachable | ServerError(status: int) | RateLimited

  datatype Reply = NoReply | Status(code: int)

  /** `draw` is the raw random number; `canceled` says whether the caller gives up during the wait. */
  datatype Attempt = Attempt(draw: nat, canceled: bool, tokenFails: bool, requestInvalid: bool, reply: Reply)

  type Script = nat -> Attempt

  datatype Result =
    | Success(code: int)
    | Rejected(code: int)
    | GaveUp(error: RetryError)
    | Exhausted
    | Canceled
    | TokenFailed
    | RequestInvalid
    | Panicked

  datatype Report = Report(result: Result, sent: nat, waited: nat)

  datatype Answer = Stop(result: Result, requests: nat) | Again(error: RetryError)

  /** What one attempt leads to once its wait is over. */
  function Try(a: Attempt): Answer {
    if a.tokenFails then Stop(TokenFailed, 0)
    else if a.requestInvalid then Stop(RequestInvalid, 0)
    else
      match a.reply
      case NoReply => Again(Unreachable)
      case Status(code) =>
        if 200 <= code < 300 then Stop(Success(code), 1)
        else if code == 429 then Again(RateLimited)
        else if code >= 500 then Again(ServerError(code))
        else Stop(Rejected(code), 1)
  }

  /** Backoff plus a jitter below half of it. */
  function Wait(backoff: int64, draw: nat): nat
    requires backoff >= 2
  {
    var d := Wrap64(backoff + draw % (backoff / 2));
    if d < 0 then 0 else d
  }

  function Doubled(backoff: int64): int64 { Wrap64(backoff * 2) }

  /** The loop from attempt i on; drawing a jitter below zero or one panics. */
  function From(s: Script, n: int, i: nat, backoff: int64, last: Option<RetryError>): Report
    decreases n - i
  {
    if i >= n then Report(if last == None then Exhausted else GaveUp(last.value), 0, 0)
    else if i > 0 && backoff < 2 then Report(Panicked, 0, 0)
    else if i > 0 && s(i).canceled then Report(Canceled, 0, 0)
    else
      var wait := if i > 0 then Wait(backoff, s(i).draw) else 0;
      var next := if i > 0 then Doubled(backoff) else backoff;
      match Try(s(i))
      case Stop(result, requests) => Report(result, requests, wait)
      case Again(e) =>
        var r := From(s, n, i + 1, next, Some(e));
        Report(r.result, 1 + r.sent, wait + r.waited)
  }

  function Request(s: Script, n: int, b: int64): Report { From(s, n, 0, b, None) }

  function Ahead(sent: nat, waited: nat, r: Report): Report { Report(r.result, sent + r.sent, waited + r.waited) }

  method DoWithRetry(s: Script, n: int, b: int64) returns (r: Report)
    ensures r == Request(s, n, b)
  {
    var last: Option<RetryError> := None;
    var backoff := b;
    var attempt, sent, waited := 0, 0, 0;
    while attempt < n
      invariant 0 <= attempt && 0 <= sent && 0 <= waited
      invariant Request(s, n, b) == Ahead(sent, waited, From(s, n, attempt, backoff, last))
    {
      var a := s(attempt);
      if attempt > 0 {
        if backoff < 2 { return Report(Panicked, sent, waited); }
        if a.canceled { return Report(Canceled, sent, waited); }
        waited := waited + Wait(backoff, a.draw);
        backoff := Doubled(backoff);
      }
      if a.tokenFails { return Report(TokenFailed, sent, waited); }
      if a.requestInvalid { return Report(RequestInvalid, sent, waited); }
      sent := sent + 1;
      if a.reply == NoReply {
        last := Some(Unreachable);
      } else {
        var code := a.reply.code;
        if 200 <= code < 300 { return Report(Success(code), sent, waited); }
        if code == 429 { last := Some(RateLimited); }
        else if code >= 500 { last := Some(ServerError(code)); }
        else { return Report(Rejected(code), sent, waited); }
      }
      attempt := attempt + 1;
    }
    r := Report(if last == None then Exhausted else GaveUp(last.value), sent, waited);
  }

  // ---- which attempt decides ----

  function Pow2(k: nat): (p: nat)
    ensures p >= 1
  {
    if k == 0 then 1 else 2 * Pow2(k - 1)
  }

  /** With `left` more waits ahead starting at this backoff, the doubling stays within int64. */
  predicate DoublingFits(backoff: int64, left: nat) {
    left == 0 || (backoff >= 2 && backoff * Pow2(left - 1) <= MAX64)
  }

  /** The attempt whose turn has come ends the loop, whether or not it sends its request. */
  predicate Decisive(s: Script, k: nat) { (k > 0 && s(k).canceled) || Try(s(k)).Stop? }

  function Decision(s: Script, k: nat): Result
    requires Decisive(s, k)
  {
    if k > 0 && s(k).canceled then Canceled else Try(s(k)).result
  }

  function RequestsAt(s: Script, k: nat): nat {
    if k > 0 && s(k).canceled then 0 else if Try(s(k)).Stop? then Try(s(k)).requests else 1
  }

  ghost predicate NoneDecisive(s: Script, i: nat, k: int) { forall j: nat :: i <= j < k ==> !Decisive(s, j) }

  lemma OneDoubling(backoff: int, left: nat)
    requires left > 1
    ensures backoff * Pow2(left - 1) == (backoff * 2) * Pow2(left - 2)
    ensures backoff >= 0 ==> backoff * Pow2(left - 1) >= backoff * 2
  {
    var q := Pow2(left - 2);
    assert Pow2(left - 1) == 2 * q;
    Regroup(backoff, q);
    if backoff >= 0 { assert (backoff * 2) * (q - 1) >= 0; }
  }

  lemma Regroup(b: int, q: int)
    ensures b * (2 * q) == (b * 2) * q == (b * 2) * (q - 1) + b * 2
  {
  }

  lemma DoublingStep(backoff: int64, left: nat)
    requires left > 0 && DoublingFits(backoff, left)
    ensures left > 1 ==>
      backoff * 2 <= MAX64 && Wrap64(backoff * 2) == backoff * 2 && DoublingFits(backoff * 2, left - 1)
  {
    if left > 1 {
      OneDoubling(backoff, left);
      hide Pow2;
    }
  }

  /** An attempt that is reached only past the doubling's end is never reached: the loop panics before. */
  lemma {:induction false} FromPanics(s: Script, n: nat, i: nat, backoff: int64, last: Option<RetryError>, k: nat)
    requires 0 < i <= k < n && !DoublingFits(backoff, k + 1 - i) && NoneDecisive(s, i, k)
    ensures From(s, n, i, backoff, last).result == Panicked
    decreases n - i
  {
    if backoff >= 2 {
      assert k + 1 - i > 1;
      OneDoubling(backoff, k + 1 - i);
      assert !Decisive(s, i);
      FromPanics(s, n, i + 1, Wrap64(backoff * 2), Some(Try(s(i)).error), k);
    }
  }

  lemma {:induction false} FromDecided(s: Script, n: nat, i: nat, backoff: int64, last: Option<RetryError>, k: nat)
    requires 0 < i <= k < n && DoublingFits(backoff, k + 1 - i) && NoneDecisive(s, i, k) && Decisive(s, k)
    ensures var r := From(s, n, i, backoff, last);
            r.result == Decision(s, k) && r.sent == k - i + RequestsAt(s, k)
    decreases n - i
  {
    if i < k {
      assert !Decisive(s, i);
      DoublingStep(backoff, k + 1 - i);
      FromDecided(s, n, i + 1, backoff * 2, Some(Try(s(i)).error), k);
    }
  }

  lemma {:induction false} FromExhausted(s: Script, n: nat, i: nat, backoff: int64, last: Option<RetryError>)
    requires 0 < i <= n && DoublingFits(backoff, n - i) && NoneDecisive(s, i, n)
    ensures var r := From(s, n, i, backoff, last);
            && r.sent == n - i
            && (i < n ==> !Decisive(s, n - 1) && r.result == GaveUp(Try(s(n - 1)).error))
            && (i == n && last != None ==> r.result == GaveUp(last.value))
    decreases n - i
  {
    if i < n {
      assert !Decisive(s, i);
      DoublingStep(backoff, n - i);
      FromExhausted(s, n, i + 1, Wrap64(backoff * 2), Some(Try(s(i)).error));
    }
  }

  /** Backoffs for which the loop can never ask for a jitter out of range, for this many attempts. */
  predicate Sound(n: nat, b: int64) { n <= 1 || DoublingFits(b, n - 1) }

  lemma DecisionIsNoPanic(s: Script, k: nat)
    requires Decisive(s, k)
    ensures Decision(s, k) != Panicked
  {
  }

  /**
   The first decisive attempt among the first n decides, and nothing is sent after it, exactly when
   the backoff can be doubled as often as that attempt needs; otherwise the loop panics before it.
   */
  lemma FirstDecisiveDecides(s: Script, n: nat, b: int64, k: nat)
    requires k < n && NoneDecisive(s, 0, k) && Decisive(s, k)
    ensures Request(s, n, b).result == Decision(s, k) <==> Sound(k + 1, b)
    ensures Sound(k + 1, b) ==> Request(s, n, b).sent == k + RequestsAt(s, k)
    ensures !Sound(k + 1, b) ==> Request(s, n, b).result == Panicked
  {
    DecisionIsNoPanic(s, k);
    if k > 0 {
      assert !Decisive(s, 0);
      if Sound(k + 1, b) {
        FromDecided(s, n, 1, b, Some(Try(s(0)).error), k);
      } else {
        FromPanics(s, n, 1, b, Some(Try(s(0)).error), k);
      }
    }
  }

  /**
   With no decisive attempt, all n requests are sent and the last retryable error is the answer,
   exactly when the backoff can be doubled as often as n attempts need; otherwise the loop panics.
   */
  lemma LastErrorDecides(s: Script, n: nat, b: int64)
    requires n > 0 && NoneDecisive(s, 0, n)
    ensures !Decisive(s, n - 1)
    ensures Request(s, n, b).result == GaveUp(Try(s(n - 1)).error) <==> Sound(n, b)
    ensures Sound(n, b) ==> Request(s, n, b).sent == n
    ensures !Sound(n, b) ==> Request(s, n, b).result == Panicked
  {
    assert !Decisive(s, 0);
    if Sound(n, b) {
      FromExhausted(s, n, 1, b, Some(Try(s(0)).error));
    } else {
      FromPanics(s, n, 1, b, Some(Try(s(0)).error), n - 1);
    }
  }

  // ---- the same in terms of the replies ----

  /** The attempt sends its request: no one gives up during its wait, the token is there, the request is valid. */
  predicate Sends(s: Script, k: nat) { (k > 0 ==> !s(k).canceled) && !s(k).tokenFails && !s(k).requestInvalid }

  /** No answer, too many requests, or a failure of the server. */
  predicate Transient(r: Reply) { r == NoReply || r.code == 429 || r.code >= 500 }

  ghost predicate AllTransient(s: Script, k: nat) { forall j: nat :: j < k ==> Sends(s, j) && Transient(s(j).reply) }

  lemma TransientNotDecisive(s: Script, k: nat)
    requires Sends(s, k)
    ensures Decisive(s, k) <==> !Transient(s(k).reply)
  {
  }

  lemma AllTransientNoneDecisive(s: Script, k: nat)
    requires AllTransient(s, k)
    ensures NoneDecisive(s, 0, k)
  {
    forall j: nat | j < k ensures !Decisive(s, j) { TransientNotDecisive(s, j); }
  }

  /**
   After k transient replies, attempt k decides unless its reply is transient too: giving up, a
   missing token or an invalid request end the loop before anything more is sent; a 2xx reply is the
   answer; any other reply that is neither 429 nor 5xx is a rejection.
   */
  lemma ReplyDecides(s: Script, n: nat, b: int64, k: nat)
    requires k < n && AllTransient(s, k) && Sound(k + 1, b)
    ensures var (r, a) := (Request(s, n, b), s(k));
            && (k > 0 && a.canceled ==> r.result == Canceled && r.sent == k)
            && (!(k > 0 && a.canceled) && a.tokenFails ==> r.result == TokenFailed && r.sent == k)
            && (!(k > 0 && a.canceled) && !a.tokenFails && a.requestInvalid ==>
                  r.result == RequestInvalid && r.sent == k)
            && (Sends(s, k) && a.reply.Status? && 200 <= a.reply.code < 300 ==>
                  r.result == Success(a.reply.code) && r.sent == k + 1)
            && (Sends(s, k) && a.reply.Status? && (a.reply.code < 200 || 300 <= a.reply.code < 429
                                                   || 429 < a.reply.code < 500) ==>
                  r.result == Rejected(a.reply.code) && r.sent == k + 1)
  {
    AllTransientNoneDecisive(s, k);
    if Decisive(s, k) { FirstDecisiveDecides(s, n, b, k); }
    hide Request, Sound;
  }

  /** When all n replies are transient, the error of the last one is the answer. */
  lemma TransientExhaust(s: Script, n: nat, b: int64)
    requires n > 0 && AllTransient(s, n) && Sound(n, b)
    ensures Request(s, n, b).sent == n
    ensures Request(s, n, b).result ==
            match s(n - 1).reply
            case NoReply => GaveUp(Unreachable)
            case Status(c) => GaveUp(if c == 429 then RateLimited else ServerError(c))
  {
    AllTransientNoneDecisive(s, n);
    LastErrorDecides(s, n, b);
    TransientNotDecisive(s, n - 1);
    assert Sends(s, n - 1) && Transient(s(n - 1).reply);
    hide Request, Sound;
  }

  lemma {:induction false} AtMostRequests(s: Script, n: int, i: nat, backoff: int64, last: Option<RetryError>)
    ensures var r := From(s, n, i, backoff, last);
            && r.sent <= (if i < n then n - i else 0)
            && (r.result == Exhausted <==> i >= n && last == None)
    decreases n - i
  {
    if i < n && Try(s(i)).Again? {
      AtMostRequests(s, n, i + 1, if i > 0 then Wrap64(backoff * 2) else backoff, Some(Try(s(i)).error));
    }
  }

  /** At most n requests are sent, and the fallback without an error is reached exactly when n <= 0. */
  lemma RequestBounds(s: Script, n: int, b: int64)
    ensures Request(s, n, b).sent <= if n > 0 then n else 0
    ensures Request(s, n, b).result == Exhausted <==> n <= 0
  {
    AtMostRequests(s, n, 0, b, None);
  }

  // ---- when the jitter can be drawn ----

  /** A bank that never answers. */
  function Down(): Script { i => Attempt(0, false, false, false, NoReply) }

  lemma {:induction false} FromNeverPanics(s: Script, n: nat, i: nat, backoff: int64, last: Option<RetryError>)
    requires 0 < i <= n && DoublingFits(backoff, n - i)
    ensures From(s, n, i, backoff, last).result != Panicked
    decreases n - i
  {
    if i < n && Try(s(i)).Again? {
      DoublingStep(backoff, n - i);
      FromNeverPanics(s, n, i + 1, Wrap64(backoff * 2), Some(Try(s(i)).error));
    }
  }

  /** The loop cannot panic, whatever the bank does, exactly when b >= 2 and b doubled n - 2 times fits. */
  lemma NeverPanicsIff(n: nat, b: int64)
    ensures (forall s: Script :: Request(s, n, b).result != Panicked) <==> Sound(n, b)
  {
    if Sound(n, b) {
      forall s: Script ensures Request(s, n, b).result != Panicked {
        if n > 0 && Try(s(0)).Again? { FromNeverPanics(s, n, 1, b, Some(Try(s(0)).error)); }
      }
    } else {
      FromPanics(Down(), n, 1, b, Some(Unreachable), n - 1);
      assert Request(Down(), n, b).result == Panicked;
    }
  }

  // ---- how long it waits ----

  /** Even with the largest jitter the wait does not wrap. */
  predicate JitterFits(backoff: int) { backoff >= 2 && backoff + backoff / 2 - 1 <= MAX64 }

  lemma WaitRange(backoff: int64, draw: nat)
    requires JitterFits(backoff)
    ensures backoff <= Wait(backoff, draw) && 2 * Wait(backoff, draw) < 3 * backoff
  {
    var half := backoff / 2;
    assert 0 <= draw % half < half;
  }

  /** The last of `left` waits, the longest, can carry its jitter. */
  predicate WaitsFit(backoff: int64, left: nat) {
    left == 0 || (backoff >= 2 && JitterFits(backoff * Pow2(left - 1)))
  }

  lemma WaitsFitStep(backoff: int64, left: nat)
    requires left > 0 && WaitsFit(backoff, left)
    ensures JitterFits(backoff)
    ensures left > 1 ==> 2 * backoff <= MAX64 && WaitsFit(2 * backoff, left - 1)
  {
    if left > 1 {
      OneDoubling(backoff, left);
      hide Pow2;
    }
  }

  /** What `left` waits starting at this backoff add up to, jitter aside. */
  function Doublings(backoff: int, left: nat): int { backoff * (Pow2(left) - 1) }

  lemma DoublingsStep(backoff: int, left: nat)
    requires left > 0
    ensures Doublings(backoff, left) == backoff + Doublings(2 * backoff, left - 1)
    ensures Doublings(backoff, 0) == 0
  {
    var q := Pow2(left - 1);
    assert backoff * (2 * q - 1) == 2 * (backoff * q) - backoff;
    assert (2 * backoff) * (q - 1) == 2 * (backoff * q) - 2 * backoff;
  }

  lemma {:induction false} FromWaits(s: Script, n: nat, i: nat, backoff: int64, last: Option<RetryError>)
    requires 0 < i < n && WaitsFit(backoff, n - i) && NoneDecisive(s, i, n)
    ensures var w, total := From(s, n, i, backoff, last).waited, Doublings(backoff, n - i);
            total <= w && 2 * w < 3 * total
    decreases n - i
  {
    assert !Decisive(s, i);
    WaitsFitStep(backoff, n - i);
    WaitRange(backoff, s(i).draw);
    DoublingsStep(backoff, n - i);
    hide Doublings, Wait, Pow2;
    if i + 1 < n {
      assert Doubled(backoff) == 2 * backoff;
      FromWaits(s, n, i + 1, 2 * backoff, Some(Try(s(i)).error));
    } else {
      DoublingsStep(2 * backoff, 1);
    }
  }

  /** What n attempts wait: at least b (2^(n-1) - 1), and less than one and a half times that. */
  predicate WaitWithin(waited: nat, n: nat, b: int64)
    requires n >= 2
  {
    Doublings(b, n - 1) <= waited && 2 * waited < 3 * Doublings(b, n - 1)
  }

  /** A bank that never answers, and one draw d before the last attempt, zero before the others. */
  function Late(n: nat, d: nat): Script { i => Attempt(if i == n - 1 then d else 0, false, false, false, NoReply) }

  lemma ZeroDraw(backoff: int64)
    requires backoff >= 2
    ensures Wait(backoff, 0) == backoff
  {
  }

  /** Without jitter the waits are the doublings, up to the last attempt or to a panic. */
  lemma {:induction false} LateWaits(n: nat, d: nat, i: nat, backoff: int64, last: Option<RetryError>)
    requires 0 < i < n
    ensures var w := From(Late(n, d), n, i, backoff, last).waited;
            if DoublingFits(backoff, n - i) then
              backoff * Pow2(n - 1 - i) <= MAX64
              && w == Doublings(backoff, n - 1 - i) + Wait(backoff * Pow2(n - 1 - i), d)
            else if backoff < 2 then w == 0
            else w < Doublings(backoff, n - i)
    decreases n - i
  {
    hide Wait, Doublings;
    var left := n - i;
    if backoff >= 2 {
      DoublingsStep(backoff, left);
      if left == 1 {
        assert Pow2(0) == 1;
        assert From(Late(n, d), n, n, Wrap64(backoff * 2), Some(Unreachable)).waited == 0;
      } else {
        ZeroDraw(backoff);
        OneDoubling(backoff, left);
        DoublingsStep(backoff, left - 1);
        LateWaits(n, d, i + 1, Wrap64(backoff * 2), Some(Unreachable));
        if backoff * 2 <= MAX64 {
          assert DoublingFits(backoff, left) <==> DoublingFits(backoff * 2, left - 1);
          PowStep(backoff, left - 1);
        } else {
          assert Wrap64(backoff * 2) < 2;
          DoublingsPositive(2 * backoff, left - 1);
        }
      }
    }
  }

  lemma PowStep(backoff: int, k: nat)
    requires k > 0
    ensures backoff * Pow2(k) == (2 * backoff) * Pow2(k - 1)
  {
  }

  lemma DoublingsPositive(backoff: int, left: nat)
    requires backoff > 0 && left > 0
    ensures Doublings(backoff, left) > 0
  {
    assert backoff * (Pow2(left) - 1) >= backoff;
  }

  lemma LargestRemainder(m: nat)
    requires m > 0
    ensures (m - 1) % m == m - 1
  {
  }

  lemma WrapsNegative(x: int)
    requires MAX64 < x < TWO64
    ensures Wrap64(x) < 0
  {
    ModShift(x - MIN64, 1);
    assert 0 <= x - MIN64 - TWO64 < TWO64;
  }

  /** The largest jitter, when it does not fit, turns the wait into none at all. */
  lemma WrappedWait(backoff: int64)
    requires backoff >= 2 && !JitterFits(backoff)
    ensures Wait(backoff, backoff / 2 - 1) == 0
  {
    hide Wrap64;
    var half := backoff / 2;
    LargestRemainder(half);
    WrapsNegative(backoff + (half - 1));
  }

  /**
   Every script that uses up n >= 2 attempts waits within these bounds, if and only if b is at least
   two and the last backoff, b doubled n - 2 times, can carry its largest jitter.
   */
  lemma WaitBounds(n: nat, b: int64)
    requires n >= 2
    ensures (forall s: Script | NoneDecisive(s, 0, n) :: WaitWithin(Request(s, n, b).waited, n, b)) <==>
              WaitsFit(b, n - 1)
  {
    hide WaitsFit, Doublings, Wait;
    if WaitsFit(b, n - 1) {
      forall s: Script | NoneDecisive(s, 0, n) ensures WaitWithin(Request(s, n, b).waited, n, b) {
        assert !Decisive(s, 0);
        FromWaits(s, n, 1, b, Some(Try(s(0)).error));
      }
    } else {
      var d := WorstDraw(n, b);
      var s := Late(n, d);
      assert NoneDecisive(s, 0, n);
      assert Request(s, n, b).waited == From(s, n, 1, b, Some(Unreachable)).waited;
      LateBreaks(n, b, d);
      assert !WaitWithin(Request(s, n, b).waited, n, b);
    }
  }

  /** The largest jitter before the last attempt. */
  function WorstDraw(n: nat, b: int64): nat
    requires n >= 2
  {
    var last := b * Pow2(n - 2);
    if last >= 2 then last / 2 - 1 else 0
  }

  lemma DoublingsLast(b: int, k: nat)
    ensures Doublings(b, k + 1) == Doublings(b, k) + b * Pow2(k)
  {
    var p := Pow2(k);
    assert b * (2 * p - 1) == b * (p - 1) + b * p;
  }

  lemma AtLeastItself(b: int, k: nat)
    requires b >= 2
    ensures b * Pow2(k) >= b
  {
    assert b * (Pow2(k) - 1) >= 0;
  }

  lemma LateBreaks(n: nat, b: int64, d: nat)
    requires n >= 2 && !WaitsFit(b, n - 1) && d == WorstDraw(n, b)
    ensures !WaitWithin(From(Late(n, d), n, 1, b, Some(Unreachable)).waited, n, b)
  {
    hide Doublings, Wait, Pow2, From;
    LateWaits(n, d, 1, b, Some(Unreachable));
    if b >= 2 && DoublingFits(b, n - 1) {
      var last := b * Pow2(n - 2);
      AtLeastItself(b, n - 2);
      WrappedWait(last);
      DoublingsLast(b, n - 2);
    }
  }

  /** The smallest case: one retry after the longest backoff, with the largest jitter, does not wait at all. */
  lemma LongestBackoffWaitsNothing()
    ensures var s := Late(2, MAX64 / 2 - 1);
            Sound(2, MAX64) && NoneDecisive(s, 0, 2) && Request(s, 2, MAX64).waited == 0
  {
    var d := MAX64 / 2 - 1;
    assert Pow2(0) == 1;
    LateWaits(2, d, 1, MAX64, Some(Unreachable));
    WrappedWait(MAX64);
    assert Doublings(MAX64, 0) == 0;
  }
}
