/** Python's sorted() over a set of indices. */
module Sorting {
  predicate Ascending(s: seq<int>) {
    forall i, j :: 0 <= i < j < |s| ==> s[i] < s[j]
  }

  function Elements(s: seq<int>): set<int> {
    set x | x in s
  }

  ghost predicate IsMinimum(m: int, s: set<int>) {
    m in s && forall x :: x in s ==> m <= x
  }

  lemma HasMember(s: set<int>)
    requires s != {}
    ensures exists x :: x in s
  {
    assert (forall x :: x !in s) ==> s == {};
  }

  lemma {:induction false} MinimumExists(s: set<int>)
    requires s != {}
    ensures exists m :: IsMinimum(m, s)
    decreases |s|
  {
    HasMember(s);
    var x :| x in s;
    if s == {x} {
      assert IsMinimum(x, s);
    } else {
      MinimumExists(s - {x});
      var m :| IsMinimum(m, s - {x});
      var least := if x < m then x else m;
      forall y | y in s ensures least <= y {
        assert y == x || y in s - {x};
      }
      assert IsMinimum(least, s);
    }
  }

  function Minimum(s: set<int>): (m: int)
    requires s != {}
    ensures IsMinimum(m, s)
  {
    MinimumExists(s);
    var m :| m in s && forall x :: x in s ==> m <= x;
    m
  }

  function Sorted(s: set<int>): seq<int>
    decreases |s|
  {
    if s == {} then []
    else
      var m := Minimum(s);
      [m] + Sorted(s - {m})
  }

  lemma {:induction false} SortedMembers(s: set<int>)
    ensures |Sorted(s)| == |s|
    ensures forall x :: x in Sorted(s) <==> x in s
    decreases |s|
  {
    if s != {} {
      var m := Minimum(s);
      SortedMembers(s - {m});
    }
  }

  lemma {:induction false} SortedAscends(s: set<int>)
    ensures Ascending(Sorted(s))
    decreases |s|
  {
    if s != {} {
      var m := Minimum(s);
      var rest := Sorted(s - {m});
      SortedAscends(s - {m});
      SortedMembers(s - {m});
      forall i | 0 <= i < |rest| ensures m < rest[i] {
        assert rest[i] in s - {m};
      }
    }
  }

  lemma SortedOrder(s: set<int>)
    ensures Ascending(Sorted(s)) && Elements(Sorted(s)) == s && |Sorted(s)| == |s|
    ensures forall i :: 0 <= i < |Sorted(s)| ==> Sorted(s)[i] in s
  {
    SortedAscends(s);
    SortedMembers(s);
  }

  /** Sorted order is determined by the members alone. */
  lemma {:induction false} SortedIsUnique(r: seq<int>)
    requires Ascending(r)
    ensures Sorted(Elements(r)) == r
  {
    if r != [] {
      var s := Elements(r);
      assert r[0] in s;
      assert Minimum(s) == r[0] by {
        var i :| 0 <= i < |r| && r[i] == Minimum(s);
      }
      assert s - {r[0]} == Elements(r[1..]);
      SortedIsUnique(r[1..]);
    }
  }
}
