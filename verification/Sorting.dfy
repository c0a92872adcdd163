/** `sorted(...)` over a set of integers. */
module Sorting {

  ghost predicate Ascending(s: seq<int>) {
    forall i, j :: 0 <= i < j < |s| ==> s[i] < s[j]
  }

  lemma {:induction false} Member<T>(s: set<T>) returns (a: T)
    requires s != {}
    ensures a in s
  {
    a :| a in s;
  }

  lemma {:induction false} LeastExists(s: set<int>)
    requires s != {}
    ensures exists m :: m in s && forall x :: x in s ==> m <= x
  {
    var a := Member(s);
    if s != {a} {
      LeastExists(s - {a});
      var m :| m in s - {a} && forall x :: x in s - {a} ==> m <= x;
      var least := if a < m then a else m;
      forall x | x in s
        ensures least <= x
      {
        assert x == a || x in s - {a};
      }
      assert least in s;
    }
  }

  function Least(s: set<int>): (m: int)
    requires s != {}
    ensures m in s && forall x :: x in s ==> m <= x
  {
    LeastExists(s);
    var m :| m in s && forall x :: x in s ==> m <= x;
    m
  }

  function Sorted(s: set<int>): (r: seq<int>)
    ensures Ascending(r)
    ensures forall x :: x in r <==> x in s
    ensures forall i :: 0 <= i < |r| ==> r[i] in s
  {
    if s == {} then [] else
      var m := Least(s);
      [m] + Sorted(s - {m})
  }
}
