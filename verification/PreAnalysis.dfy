/**
 The pre-analysis rules engine: five checks in a fixed order, the first one that hits decides.
 Database lookups arrive as facts; a lookup that fails makes the evaluation fail.
 */
module PreAnalysis {
  import opened MachineInts
  import opened Collections

  datatype Action = Allow | Review | Reject

  datatype Rule = NoClient | Blacklist | MaxSingle | ApprovalThreshold | Daily | Monthly | Duplicate | AllPassed

  datatype Limits = Limits(daily: int64, monthly: int64, single: int64, approvalAbove: int64)

  datatype Facts = Facts(
    hasClient: bool, amount: int64, snapshotDocument: string, payeeDocument: string,
    blacklist: Option<set<string>>, limits: Option<Limits>, dayTotal: Option<int64>, monthTotal: Option<int64>,
    duplicateRule: Option<Action>, hasBeneficiary: bool, duplicates: Option<nat>)

  datatype Check = Pass | Hit(action: Action, rule: Rule) | LookupFailed

  function CheckBlacklist(f: Facts): Check {
    var doc := if f.snapshotDocument != "" then f.snapshotDocument else f.payeeDocument;
    if doc == "" then Pass
    else if f.blacklist == None then LookupFailed
    else if doc in f.blacklist.value then Hit(Reject, Blacklist)
    else Pass
  }

  function CheckSingleLimit(f: Facts): Check {
    if f.limits == None then Pass
    else if f.limits.value.single > 0 && f.amount > f.limits.value.single then Hit(Review, MaxSingle)
    else if f.limits.value.approvalAbove > 0 && f.amount > f.limits.value.approvalAbove
    then Hit(Review, ApprovalThreshold)
    else Pass
  }

  /** The comparison of a window total with its limit, in int64 arithmetic. */
  predicate Exceeds(total: int64, amount: int64, limit: int64) { Wrap64(total + amount) > limit }

  function CheckWindow(limit: int64, total: Option<int64>, amount: int64, rule: Rule): Check {
    if limit <= 0 then Pass
    else if total == None then LookupFailed
    else if Exceeds(total.value, amount, limit) then Hit(Review, rule)
    else Pass
  }

  function CheckDailyLimit(f: Facts): Check {
    if f.limits == None then Pass else CheckWindow(f.limits.value.daily, f.dayTotal, f.amount, Daily)
  }

  function CheckMonthlyLimit(f: Facts): Check {
    if f.limits == None then Pass else CheckWindow(f.limits.value.monthly, f.monthTotal, f.amount, Monthly)
  }

  function CheckDuplicate(f: Facts): Check {
    if f.duplicateRule == None || !f.hasBeneficiary then Pass
    else if f.duplicates == None then LookupFailed
    else if f.duplicates.value > 0 then Hit(f.duplicateRule.value, Duplicate)
    else Pass
  }

  function FirstHit(checks: seq<Check>): Check {
    if checks == [] then Hit(Allow, AllPassed)
    else if checks[0] == Pass then FirstHit(checks[1..])
    else checks[0]
  }

  function Checks(f: Facts): seq<Check> {
    [CheckBlacklist(f), CheckSingleLimit(f), CheckDailyLimit(f), CheckMonthlyLimit(f), CheckDuplicate(f)]
  }

  function Evaluate(f: Facts): Check {
    if !f.hasClient then Hit(Allow, NoClient) else FirstHit(Checks(f))
  }

  // ---- the documented verdict ----

  function Severity(a: Action): nat { match a case Allow => 0 case Review => 1 case Reject => 2 }

  /** An action as severe as the severest check that hits, and reached by one, or ALLOW if none hits. */
  ghost predicate MostRestrictive(f: Facts, a: Action) {
    && (forall c :: c in Checks(f) && c.Hit? ==> Severity(c.action) <= Severity(a))
    && (a == Allow || exists c :: c in Checks(f) && c.Hit? && c.action == a)
  }

  predicate SomeLimitHits(f: Facts) {
    CheckSingleLimit(f).Hit? || CheckDailyLimit(f).Hit? || CheckMonthlyLimit(f).Hit?
  }

  /**
   The documentation promises the most restrictive verdict; the code keeps the promise exactly
   when it is not the case that, with no blacklist entry, a limit hits and so does a duplicate
   rule that rejects. Then the payment is only sent to review. Lookups behind the deciding check
   are not made, so it does not matter whether they would have failed.
   */
  lemma MostRestrictiveIff(f: Facts)
    requires f.hasClient && Evaluate(f).Hit?
    ensures MostRestrictive(f, Evaluate(f).action) <==>
              !(CheckBlacklist(f) == Pass && SomeLimitHits(f) && CheckDuplicate(f) == Hit(Reject, Duplicate))
  {
    var a, b, c, d, e :=
      CheckBlacklist(f), CheckSingleLimit(f), CheckDailyLimit(f), CheckMonthlyLimit(f), CheckDuplicate(f);
    FirstOfFive(a, b, c, d, e);
    FiveMembers(a, b, c, d, e);
  }

  lemma FirstOfFive(a: Check, b: Check, c: Check, d: Check, e: Check)
    ensures FirstHit([a, b, c, d, e]) ==
            if a != Pass then a else if b != Pass then b else if c != Pass then c else if d != Pass then d
            else if e != Pass then e else Hit(Allow, AllPassed)
  {
    FirstCons(a, [b, c, d, e]);
    FirstCons(b, [c, d, e]);
    FirstCons(c, [d, e]);
    FirstCons(d, [e]);
    FirstCons(e, []);
    assert [a] + [b, c, d, e] == [a, b, c, d, e];
    assert [b] + [c, d, e] == [b, c, d, e];
    assert [c] + [d, e] == [c, d, e];
    assert [d] + [e] == [d, e];
    assert [e] + [] == [e];
  }

  lemma FirstCons(c: Check, rest: seq<Check>)
    ensures FirstHit([c] + rest) == if c == Pass then FirstHit(rest) else c
  {
    assert ([c] + rest)[1..] == rest;
  }

  lemma FiveMembers(a: Check, b: Check, c: Check, d: Check, e: Check)
    ensures forall x :: x in [a, b, c, d, e] <==> x == a || x == b || x == c || x == d || x == e
  {
  }

  /** A payment over its single limit that is also a duplicate to be rejected is only reviewed. */
  lemma LimitHidesDuplicate()
    ensures var limits := Some(Limits(0, 0, 100, 0));
            var f := Facts(true, 500, "", "", None, limits, None, None, Some(Reject), true, Some(1));
            Evaluate(f) == Hit(Review, MaxSingle) && CheckDuplicate(f) == Hit(Reject, Duplicate)
  {
  }

  /** A window check lets a payment pass exactly when the sum is within the limit, or beyond int64. */
  lemma WindowPassesIff(total: int64, amount: int64, limit: int64)
    requires 0 <= total && 0 < amount && 0 < limit
    ensures !Exceeds(total, amount, limit) <==> total + amount <= limit || total + amount > MAX64
  {
  }

  // ---- the verdict from the facts ----

  /** The document the blacklist is searched for: the one recorded with the beneficiary, else the payee's. */
  function Searched(f: Facts): string { if f.snapshotDocument == "" then f.payeeDocument else f.snapshotDocument }

  predicate OnBlacklist(f: Facts) { Searched(f) != "" && f.blacklist.Some? && Searched(f) in f.blacklist.value }

  predicate BlacklistUnread(f: Facts) { Searched(f) != "" && f.blacklist == None }

  predicate AboveSingle(f: Facts) { f.limits.Some? && 0 < f.limits.value.single < f.amount }

  predicate AboveApproval(f: Facts) { f.limits.Some? && 0 < f.limits.value.approvalAbove < f.amount }

  /** The window total with the payment added, as int64 has it, is above an enabled limit. */
  predicate AboveWindow(limit: int64, total: Option<int64>, amount: int64) {
    limit > 0 && total.Some? && Wrap64(total.value + amount) > limit
  }

  predicate AboveDaily(f: Facts) { f.limits.Some? && AboveWindow(f.limits.value.daily, f.dayTotal, f.amount) }

  predicate AboveMonthly(f: Facts) { f.limits.Some? && AboveWindow(f.limits.value.monthly, f.monthTotal, f.amount) }

  predicate DailyUnread(f: Facts) { f.limits.Some? && f.limits.value.daily > 0 && f.dayTotal == None }

  predicate MonthlyUnread(f: Facts) { f.limits.Some? && f.limits.value.monthly > 0 && f.monthTotal == None }

  predicate IsDuplicate(f: Facts) {
    f.duplicateRule.Some? && f.hasBeneficiary && f.duplicates.Some? && f.duplicates.value > 0
  }

  predicate DuplicatesUnread(f: Facts) { f.duplicateRule.Some? && f.hasBeneficiary && f.duplicates == None }

  /**
   The evaluation from the facts: no client allows; then, in this order, a blacklisted document
   rejects, the single limit, the approval threshold, the daily and the monthly limit review, and
   the duplicate rule does what it says; a lookup that fails on the way fails the evaluation.
   */
  lemma EvaluateExact(f: Facts)
    ensures Evaluate(f) ==
            if !f.hasClient then Hit(Allow, NoClient)
            else if BlacklistUnread(f) then LookupFailed
            else if OnBlacklist(f) then Hit(Reject, Blacklist)
            else if AboveSingle(f) then Hit(Review, MaxSingle)
            else if AboveApproval(f) then Hit(Review, ApprovalThreshold)
            else if DailyUnread(f) then LookupFailed
            else if AboveDaily(f) then Hit(Review, Daily)
            else if MonthlyUnread(f) then LookupFailed
            else if AboveMonthly(f) then Hit(Review, Monthly)
            else if DuplicatesUnread(f) then LookupFailed
            else if IsDuplicate(f) then Hit(f.duplicateRule.value, Duplicate)
            else Hit(Allow, AllPassed)
  {
    hide Wrap64;
    FirstOfFive(CheckBlacklist(f), CheckSingleLimit(f), CheckDailyLimit(f), CheckMonthlyLimit(f), CheckDuplicate(f));
  }
}
