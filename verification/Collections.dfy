/** Option, and the small facts about lists of row ids that the tables need. */
module Collections {

  datatype Option<+T> = None | Some(value: T)

  predicate NoDup<T(==)>(s: seq<T>) { forall i, j :: 0 <= i < j < |s| ==> s[i] != s[j] }

  function Take<T>(s: seq<T>, n: nat): seq<T> { if |s| <= n then s else s[..n] }

  ghost predicate IsLeast(m: nat, s: set<nat>) { m in s && forall x :: x in s ==> m <= x }

  lemma {:induction false} MinExists(s: set<nat>)
    requires s != {}
    ensures exists m :: IsLeast(m, s)
    decreases |s|
  {
    var y :| y in s;
    var rest := s - {y};
    assert forall x :: x in s ==> x == y || x in rest;
    if rest == {} {
      assert IsLeast(y, s);
    } else {
      MinExists(rest);
      var m :| IsLeast(m, rest);
      assert IsLeast(if y < m then y else m, s);
    }
  }

  function Min(s: set<nat>): (m: nat)
    requires s != {}
    ensures m in s && forall x :: x in s ==> m <= x
  {
    MinExists(s);
    assert forall m :: IsLeast(m, s) ==> m in s && forall x :: x in s ==> m <= x;
    var m :| m in s && forall x :: x in s ==> m <= x;
    m
  }

  /** The members of a set in ascending order. */
  function Sorted(s: set<nat>): (r: seq<nat>)
    ensures forall x :: x in r <==> x in s
    ensures NoDup(r)
    ensures |r| == |s|
    decreases |s|
  {
    if s == {} then []
    else
      var m := Min(s);
      [m] + Sorted(s - {m})
  }

  lemma {:induction false} SortedAscending(s: set<nat>)
    ensures forall i, j :: 0 <= i < j < |Sorted(s)| ==> Sorted(s)[i] < Sorted(s)[j]
    decreases |s|
  {
    if s != {} {
      var m := Min(s);
      var rest := Sorted(s - {m});
      SortedAscending(s - {m});
      assert Sorted(s) == [m] + rest;
      hide Sorted, Min;
      forall j | 0 <= j < |rest| ensures m < rest[j] { assert rest[j] in s - {m}; }
    }
  }
}
