/** The in-order walk of a search tree keyed by id: its keys in ascending order. */
module Walk {

  predicate IsLeast(s: set<nat>, m: nat) {
    m in s && forall x | x in s :: m <= x
  }

  lemma {:induction false} LeastExists(s: set<nat>)
    requires s != {}
    ensures exists m: nat :: IsLeast(s, m)
  {
    var x: nat :| x in s;
    var rest := s - {x};
    if rest == {} {
      assert forall y | y in s :: y == x || y in rest;
      assert IsLeast(s, x);
    } else {
      LeastExists(rest);
      var m: nat :| IsLeast(rest, m);
      LeastOfMore(s, x, m);
    }
  }

  lemma LeastOfMore(s: set<nat>, x: nat, m: nat)
    requires x in s && IsLeast(s - {x}, m)
    ensures IsLeast(s, if x < m then x else m)
  {
    forall y | y in s
      ensures (if x < m then x else m) <= y
    {
      assert y == x || y in s - {x};
    }
  }

  lemma LeastIsUnique(s: set<nat>)
    ensures forall m: nat, n: nat | IsLeast(s, m) && IsLeast(s, n) :: m == n
  {
  }

  function Least(s: set<nat>): (m: nat)
    requires s != {}
    ensures IsLeast(s, m)
  {
    LeastExists(s);
    LeastIsUnique(s);
    var m: nat :| IsLeast(s, m);
    m
  }

  function Sorted(s: set<nat>): seq<nat> {
    if s == {} then [] else [Least(s)] + Sorted(s - {Least(s)})
  }

  lemma {:induction false} SortedLength(s: set<nat>)
    ensures |Sorted(s)| == |s|
  {
    if s == {} {
    } else {
      SortedLength(s - {Least(s)});
    }
  }

  lemma {:induction false} SortedMembers(s: set<nat>)
    ensures forall x: nat :: x in Sorted(s) <==> x in s
  {
    if s == {} {
    } else {
      var rest := s - {Least(s)};
      SortedMembers(rest);
      forall x: nat
        ensures x in Sorted(s) <==> x in s
      {
        assert x in Sorted(s) <==> x == Least(s) || x in Sorted(rest);
      }
    }
  }

  lemma PrependAscends(m: nat, t: seq<nat>)
    requires forall i, j | 0 <= i < j < |t| :: t[i] < t[j]
    requires forall x: nat | x in t :: m < x
    ensures forall i, j | 0 <= i < j < |[m] + t| :: ([m] + t)[i] < ([m] + t)[j]
  {
    forall i, j | 0 <= i < j < |[m] + t|
      ensures ([m] + t)[i] < ([m] + t)[j]
    {
      assert ([m] + t)[j] == t[j - 1] && t[j - 1] in t;
      assert i > 0 ==> ([m] + t)[i] == t[i - 1];
    }
  }

  lemma LeastIsBelow(s: set<nat>, x: nat)
    requires x in s && x != Least(s)
    ensures Least(s) < x
  {
  }

  lemma {:induction false} SortedAscends(s: set<nat>)
    ensures forall i, j | 0 <= i < j < |Sorted(s)| :: Sorted(s)[i] < Sorted(s)[j]
  {
    if s == {} {
    } else {
      var m, rest := Least(s), s - {Least(s)};
      SortedAscends(rest);
      SortedMembers(rest);
      forall x: nat | x in Sorted(rest)
        ensures m < x
      {
        LeastIsBelow(s, x);
      }
      PrependAscends(m, Sorted(rest));
    }
  }

  lemma SortedIsPermutation(s: set<nat>)
    ensures |Sorted(s)| == |s|
    ensures forall x: nat :: x in Sorted(s) <==> x in s
    ensures forall i, j | 0 <= i < j < |Sorted(s)| :: Sorted(s)[i] < Sorted(s)[j]
  {
    SortedLength(s);
    SortedMembers(s);
    SortedAscends(s);
  }

  lemma SortedWithin(s: set<nat>)
    ensures forall x | x in Sorted(s) :: x in s
  {
    SortedMembers(s);
  }
}
