/**
 A spending limit under concurrency: for one client and one window, the current day or the current
 month, workers read the window's total and write their verdict later, without a lock, while
 payments arrive and are canceled.
 */
module WindowLimit {
  import opened MachineInts
  import opened Collections
  import opened PreAnalysis

  type Id = nat

  /** A payment of the window: its amount, whether it is REJECTED, CANCELED or EXPIRED, whether a read ever passed. */
  datatype Entry = Entry(amount: int64, dead: bool, passed: bool)

  type Window = map<Id, Entry>

  datatype Step =
    | Insert(id: Id, amount: int64)
    | Read(id: Id)
    | Write(id: Id, reject: bool)
    | Kill(id: Id)

  function Sum(win: Window, ids: set<Id>): int
    decreases |ids|
  {
    if ids == {} then 0
    else
      var m := Min(ids);
      (if m in win then win[m].amount else 0) + Sum(win, ids - {m})
  }

  function Live(win: Window): set<Id> { set id | id in win && !win[id].dead }

  /** The payments the window's check let through and that are not dead. */
  function Admitted(win: Window): set<Id> { set id | id in win && !win[id].dead && win[id].passed }

  /** The total the query returns: every live payment of the window counts, the evaluated one included. */
  function Total(win: Window): int { Sum(win, Live(win)) }

  /** What a worker's read decides; a sum beyond bigint is a failed query. */
  predicate ReadPasses(win: Window, id: Id, limit: int64)
    requires id in win
  {
    0 <= Total(win) <= MAX64 && !Exceeds(Total(win), win[id].amount, limit)
  }

  /** The verdict write does not look at the status: it revives a dead payment unless it rejects. */
  function Apply(win: Window, s: Step, limit: int64): Window {
    match s
    case Insert(id, amount) => if id in win || amount <= 0 then win else win[id := Entry(amount, false, false)]
    case Read(id) =>
      if id !in win then win
      else win[id := win[id].(passed := win[id].passed || ReadPasses(win, id, limit))]
    case Write(id, reject) => if id !in win then win else win[id := win[id].(dead := reject)]
    case Kill(id) => if id !in win then win else win[id := win[id].(dead := true)]
  }

  function AdmittedSum(win: Window): int { Sum(win, Admitted(win)) }

  /**
   The step admits nothing beyond the limit. A read that overflows int64 passes whatever it reads, and
   a late verdict brings back what had passed; either is harmless as long as there is room left.
   */
  predicate Due(win: Window, s: Step, limit: int64) {
    match s
    case Read(id) =>
      id in win && !win[id].dead && !win[id].passed && Total(win) <= MAX64 < Total(win) + win[id].amount ==>
        AdmittedSum(win) + win[id].amount <= limit
    case Write(id, reject) =>
      id in win && win[id].dead && win[id].passed && !reject ==> AdmittedSum(win) + win[id].amount <= limit
    case _ => true
  }

  function Play(win: Window, steps: seq<Step>, limit: int64): Window
    decreases steps
  {
    if steps == [] then win else Play(Apply(win, steps[0], limit), steps[1..], limit)
  }

  predicate AllDue(win: Window, steps: seq<Step>, limit: int64)
    decreases steps
  {
    steps == [] || (Due(win, steps[0], limit) && AllDue(Apply(win, steps[0], limit), steps[1..], limit))
  }

  ghost predicate Positive(win: Window) { forall id :: id in win ==> win[id].amount > 0 }

  ghost predicate Within(win: Window, limit: int64) { Positive(win) && AdmittedSum(win) <= limit }

  // ---- sums ----

  lemma {:induction false} SumFrame(a: Window, b: Window, ids: set<Id>)
    requires forall id :: id in ids ==> id in a && id in b && a[id].amount == b[id].amount
    ensures Sum(a, ids) == Sum(b, ids)
    decreases |ids|
  {
    if ids != {} { SumFrame(a, b, ids - {Min(ids)}); }
  }

  lemma {:induction false} SumMonotone(win: Window, part: set<Id>, ids: set<Id>)
    requires Positive(win) && part <= ids && ids <= win.Keys
    ensures 0 <= Sum(win, part) <= Sum(win, ids)
    decreases |ids|
  {
    if ids != {} {
      var m := Min(ids);
      SumMonotone(win, part - {m}, ids - {m});
      if m in part {
        assert Min(part) == m;
      } else {
        assert part - {m} == part;
      }
    }
  }

  lemma {:induction false} SumAdd(win: Window, ids: set<Id>, x: Id)
    requires x in win && x !in ids
    ensures Sum(win, ids + {x}) == Sum(win, ids) + win[x].amount
    decreases |ids|
  {
    var all := ids + {x};
    var m := Min(all);
    if m == x {
      assert all - {x} == ids;
    } else {
      assert Min(ids) == m;
      assert all - {m} == (ids - {m}) + {x};
      SumAdd(win, ids - {m}, x);
    }
  }

  // ---- the limit ----

  /** A step that neither admits anything nor changes an amount. */
  lemma ShrinkKeeps(win: Window, next: Window, limit: int64)
    requires Within(win, limit) && Positive(next) && Admitted(next) <= Admitted(win)
    requires forall id :: id in Admitted(win) ==> id in next && next[id].amount == win[id].amount
    ensures Within(next, limit)
  {
    SumMonotone(win, Admitted(next), Admitted(win));
    SumFrame(win, next, Admitted(next));
  }

  /** A step that admits one more payment adds its amount. */
  lemma AdmitAdds(win: Window, next: Window, id: Id)
    requires id in win && id !in Admitted(win) && Admitted(next) == Admitted(win) + {id}
    requires forall q :: q in win ==> q in next && next[q].amount == win[q].amount
    ensures AdmittedSum(next) == AdmittedSum(win) + win[id].amount
  {
    SumAdd(win, Admitted(win), id);
    SumFrame(win, next, Admitted(next));
  }

  /** A total that does not overflow covers what is admitted and the payment that is read. */
  lemma TotalCovers(win: Window, id: Id)
    requires Positive(win) && id in win && !win[id].dead && !win[id].passed
    ensures 0 <= AdmittedSum(win) && AdmittedSum(win) + win[id].amount <= Total(win)
  {
    assert Admitted(win) + {id} <= Live(win);
    SumAdd(win, Admitted(win), id);
    SumMonotone(win, Admitted(win), Live(win));
    SumMonotone(win, Admitted(win) + {id}, Live(win));
  }

  lemma ReadIff(win: Window, id: Id, limit: int64)
    requires Within(win, limit) && 0 < limit
    ensures Within(Apply(win, Read(id), limit), limit) <==> Due(win, Read(id), limit)
  {
    var next := Apply(win, Read(id), limit);
    if id in win && !win[id].dead && !win[id].passed && ReadPasses(win, id, limit) {
      WindowPassesIff(Total(win), win[id].amount, limit);
      TotalCovers(win, id);
      assert Admitted(next) == Admitted(win) + {id};
      AdmitAdds(win, next, id);
    } else {
      if id in win && !win[id].dead && !win[id].passed { FailedRead(win, id, limit); }
      ShrinkKeeps(win, next, limit);
    }
  }

  lemma FailedRead(win: Window, id: Id, limit: int64)
    requires Positive(win) && id in win && 0 < limit && !ReadPasses(win, id, limit)
    ensures !(Total(win) <= MAX64 < Total(win) + win[id].amount)
  {
    SumMonotone(win, {}, Live(win));
    if Total(win) <= MAX64 { WindowPassesIff(Total(win), win[id].amount, limit); }
  }

  lemma WriteIff(win: Window, id: Id, reject: bool, limit: int64)
    requires Within(win, limit)
    ensures Within(Apply(win, Write(id, reject), limit), limit) <==> Due(win, Write(id, reject), limit)
  {
    var next := Apply(win, Write(id, reject), limit);
    if id in win && win[id].dead && win[id].passed && !reject {
      assert Admitted(next) == Admitted(win) + {id};
      AdmitAdds(win, next, id);
    } else {
      ShrinkKeeps(win, next, limit);
    }
  }

  /** From a window within the limit, a step leads to one within the limit if and only if it is due. */
  lemma StepIff(win: Window, s: Step, limit: int64)
    requires Within(win, limit) && 0 < limit
    ensures Within(Apply(win, s, limit), limit) <==> Due(win, s, limit)
  {
    match s {
      case Read(id) => ReadIff(win, id, limit);
      case Write(id, reject) => WriteIff(win, id, reject, limit);
      case Insert(_, _) => ShrinkKeeps(win, Apply(win, s, limit), limit);
      case Kill(_) => ShrinkKeeps(win, Apply(win, s, limit), limit);
    }
  }

  /** At every point of the run the admitted payments are within the limit. */
  ghost predicate WithinThroughout(win: Window, steps: seq<Step>, limit: int64)
    decreases steps
  {
    Within(win, limit) && (steps == [] || WithinThroughout(Apply(win, steps[0], limit), steps[1..], limit))
  }

  lemma {:induction false} PlayIff(win: Window, steps: seq<Step>, limit: int64)
    requires Within(win, limit) && 0 < limit
    ensures WithinThroughout(win, steps, limit) <==> AllDue(win, steps, limit)
    decreases steps
  {
    hide Within, Apply, Due;
    if steps != [] {
      StepIff(win, steps[0], limit);
      if Due(win, steps[0], limit) { PlayIff(Apply(win, steps[0], limit), steps[1..], limit); }
    }
  }

  /**
   In every interleaving of intake, unlocked reads, verdict writes and cancellations, the admitted
   payments stay within the limit at every point if and only if every step is due.
   */
  lemma LimitHoldsIff(steps: seq<Step>, limit: int64)
    requires 0 < limit
    ensures WithinThroughout(map[], steps, limit) <==> AllDue(map[], steps, limit)
  {
    assert Admitted(map[]) == {};
    PlayIff(map[], steps, limit);
  }

  /** The usual case: no read of a live payment overflows, and no admitted payment comes back from the dead. */
  predicate Ordinary(win: Window, s: Step) {
    match s
    case Read(id) => id in win && !win[id].dead ==> Total(win) + win[id].amount <= MAX64
    case Write(id, reject) => id in win && win[id].dead && win[id].passed ==> reject
    case _ => true
  }

  predicate AllOrdinary(win: Window, steps: seq<Step>, limit: int64)
    decreases steps
  {
    steps == [] || (Ordinary(win, steps[0]) && AllOrdinary(Apply(win, steps[0], limit), steps[1..], limit))
  }

  lemma {:induction false} OrdinaryDue(win: Window, steps: seq<Step>, limit: int64)
    requires AllOrdinary(win, steps, limit)
    ensures AllDue(win, steps, limit)
    decreases steps
  {
    hide Apply, Total, AdmittedSum;
    if steps != [] { OrdinaryDue(Apply(win, steps[0], limit), steps[1..], limit); }
  }

  lemma {:induction false} WithinAtEnd(win: Window, steps: seq<Step>, limit: int64)
    requires WithinThroughout(win, steps, limit)
    ensures Within(Play(win, steps, limit), limit)
    decreases steps
  {
    hide Apply, Within;
    if steps != [] { WithinAtEnd(Apply(win, steps[0], limit), steps[1..], limit); }
  }

  /** In the usual case the admitted payments never exceed the limit. */
  lemma LimitHolds(steps: seq<Step>, limit: int64)
    requires 0 < limit && AllOrdinary(map[], steps, limit)
    ensures AdmittedSum(Play(map[], steps, limit)) <= limit
  {
    OrdinaryDue(map[], steps, limit);
    LimitHoldsIff(steps, limit);
    WithinAtEnd(map[], steps, limit);
  }

  // ---- what the check really enforces ----

  lemma SumOne(win: Window, id: Id)
    requires id in win
    ensures Sum(win, {id}) == win[id].amount
  {
    assert {id} - {id} == {};
    assert Min({id}) == id;
  }

  /**
   The total already contains the payment that is read, and the check adds it again. So a read agrees
   with the limit on the total except in two cases: within it, but not with the payment counted
   twice; and beyond it, but passing because the sum wraps.
   */
  lemma ReadAgreesIff(win: Window, id: Id, limit: int64)
    requires Positive(win) && id in win && !win[id].dead && 0 < limit
    ensures var (total, amount) := (Total(win), win[id].amount);
            (ReadPasses(win, id, limit) <==> total <= limit) <==>
              !(total <= limit < total + amount <= MAX64) && !(limit < total <= MAX64 < total + amount)
  {
    SumMonotone(win, {}, Live(win));
    if Total(win) <= MAX64 { WindowPassesIff(Total(win), win[id].amount, limit); }
  }

  /** Alone in its window, a payment passes up to half the limit, or when twice its amount wraps. */
  lemma AlonePassesIff(id: Id, amount: int64, limit: int64)
    requires 0 < amount && 0 < limit
    ensures ReadPasses(map[id := Entry(amount, false, false)], id, limit) <==> 2 * amount <= limit || 2 * amount > MAX64
  {
    var win: Window := map[id := Entry(amount, false, false)];
    assert Live(win) == {id};
    SumOne(win, id);
    WindowPassesIff(Total(win), amount, limit);
  }

  /** Every amount above half of int64 passes every smaller limit: the doubled amount wraps around. */
  lemma HugePaymentPasses(amount: int64, limit: int64)
    requires 0 < limit < amount && 2 * amount > MAX64
    ensures AdmittedSum(Play(map[], [Insert(1, amount), Read(1)], limit)) > limit
  {
    var d0: Window := map[];
    var d1 := Apply(d0, Insert(1, amount), limit);
    assert d1 == map[1 := Entry(amount, false, false)];
    AlonePassesIff(1, amount, limit);
    var d2 := Apply(d1, Read(1), limit);
    assert Admitted(d2) == {1};
    SumOne(d2, 1);
    PlayCons(d0, Insert(1, amount), [Read(1)], limit);
    PlayOne(d1, Read(1), limit);
    assert [Insert(1, amount)] + [Read(1)] == [Insert(1, amount), Read(1)];
  }

  lemma PlayCons(win: Window, s: Step, rest: seq<Step>, limit: int64)
    ensures Play(win, [s] + rest, limit) == Play(Apply(win, s, limit), rest, limit)
  {
    assert ([s] + rest)[1..] == rest;
  }

  /** A payment that passes alone and is canceled before its verdict is written. */
  function Passing(id: Id, amount: int64): seq<Step> { [Insert(id, amount)] + [Read(id)] + [Kill(id)] }

  /**
   Without the guard on dead payments the limit fails: three payments that each pass alone and are
   canceled come back to life when their late verdicts are written.
   */
  lemma LateVerdictsBreakLimit(amount: int64, limit: int64)
    requires 0 < amount && 2 * amount <= limit < 3 * amount
    ensures AdmittedSum(Play(Revived(amount), [Write(1, false), Write(2, false), Write(3, false)], limit)) > limit
    ensures Revived(amount) == Play(map[], Passing(1, amount) + Passing(2, amount) + Passing(3, amount), limit)
  {
    OnePassing(map[], 1, amount, limit);
    OnePassing(map[1 := Entry(amount, true, true)], 2, amount, limit);
    OnePassing(map[1 := Entry(amount, true, true), 2 := Entry(amount, true, true)], 3, amount, limit);
    PlayConcat(map[], Passing(1, amount), Passing(2, amount), limit);
    PlayConcat(map[], Passing(1, amount) + Passing(2, amount), Passing(3, amount), limit);
    LateWrites(amount, limit);
  }

  function Revived(amount: int64): Window {
    map[1 := Entry(amount, true, true), 2 := Entry(amount, true, true), 3 := Entry(amount, true, true)]
  }

  lemma OnePassing(win: Window, id: Id, amount: int64, limit: int64)
    requires Live(win) == {} && id !in win && 0 < amount && 2 * amount <= limit
    ensures Play(win, Passing(id, amount), limit) == win[id := Entry(amount, true, true)]
  {
    var d1 := Apply(win, Insert(id, amount), limit);
    assert Live(d1) == {id};
    SumOne(d1, id);
    WindowPassesIff(Total(d1), amount, limit);
    var d2 := Apply(d1, Read(id), limit);
    PlayConcat(win, [Insert(id, amount)] + [Read(id)], [Kill(id)], limit);
    PlayConcat(win, [Insert(id, amount)], [Read(id)], limit);
    PlayOne(win, Insert(id, amount), limit);
    PlayOne(d1, Read(id), limit);
    PlayOne(d2, Kill(id), limit);
  }

  lemma PlayOne(win: Window, s: Step, limit: int64)
    ensures Play(win, [s], limit) == Apply(win, s, limit)
  {
    PlayCons(win, s, [], limit);
    assert [s] + [] == [s];
  }

  lemma {:induction false} PlayConcat(win: Window, a: seq<Step>, b: seq<Step>, limit: int64)
    ensures Play(win, a + b, limit) == Play(Play(win, a, limit), b, limit)
    decreases a
  {
    if a == [] {
      assert [] + b == b;
    } else {
      assert (a + b)[1..] == a[1..] + b;
      PlayConcat(Apply(win, a[0], limit), a[1..], b, limit);
    }
  }

  lemma LateWrites(amount: int64, limit: int64)
    requires 0 < amount && 2 * amount <= limit < 3 * amount
    ensures AdmittedSum(Play(Revived(amount), [Write(1, false), Write(2, false), Write(3, false)], limit)) == 3 * amount
  {
    var d0 := Revived(amount);
    var d1 := Apply(d0, Write(1, false), limit);
    var d2 := Apply(d1, Write(2, false), limit);
    var d3 := Apply(d2, Write(3, false), limit);
    PlayConcat(d0, [Write(1, false)] + [Write(2, false)], [Write(3, false)], limit);
    PlayConcat(d0, [Write(1, false)], [Write(2, false)], limit);
    PlayOne(d0, Write(1, false), limit);
    PlayOne(d1, Write(2, false), limit);
    PlayOne(d2, Write(3, false), limit);
    assert [Write(1, false)] + [Write(2, false)] + [Write(3, false)]
        == [Write(1, false), Write(2, false), Write(3, false)];
    assert Admitted(d3) == {1, 2, 3};
    assert Min({1, 2, 3}) == 1 && {1, 2, 3} - {1} == {2, 3};
    assert Min({2, 3}) == 2 && {2, 3} - {2} == {3};
    SumOne(d3, 3);
  }
}
