/** The library sorts and ordered-set iteration the sources rely on. */
module Sorting {

  ghost predicate TotalPreorder<T(!new)>(leq: (T, T) -> bool) {
    && (forall x, y :: leq(x, y) || leq(y, x))
    && (forall x, y, z :: leq(x, y) && leq(y, z) ==> leq(x, z))
  }

  ghost predicate Sorted<T(!new)>(s: seq<T>, leq: (T, T) -> bool) {
    forall i, j :: 0 <= i < j < |s| ==> leq(s[i], s[j])
  }

  function Insert<T>(x: T, s: seq<T>, leq: (T, T) -> bool): seq<T> {
    if s == [] then [x]
    else if leq(x, s[0]) then [x] + s
    else [s[0]] + Insert(x, s[1..], leq)
  }

  /** A stable sort. */
  function SortBy<T>(s: seq<T>, leq: (T, T) -> bool): seq<T> {
    if s == [] then [] else Insert(s[0], SortBy(s[1..], leq), leq)
  }

  lemma {:induction false} InsertPermutes<T>(x: T, s: seq<T>, leq: (T, T) -> bool)
    ensures multiset(Insert(x, s, leq)) == multiset(s) + multiset{x}
  {
    if s != [] {
      assert s == [s[0]] + s[1..];
      InsertPermutes(x, s[1..], leq);
    }
  }

  lemma {:induction false} InsertSorted<T(!new)>(x: T, s: seq<T>, leq: (T, T) -> bool)
    requires TotalPreorder(leq) && Sorted(s, leq)
    ensures Sorted(Insert(x, s, leq), leq)
  {
    if s != [] {
      var t := s[1..];
      assert forall k :: 0 <= k < |t| ==> t[k] == s[k + 1];
      if leq(x, s[0]) {
        PrependSorted(x, s, leq);
      } else {
        InsertSorted(x, t, leq);
        var r := Insert(x, t, leq);
        InsertPermutes(x, t, leq);
        forall k | 0 <= k < |r| ensures leq(s[0], r[k]) {
          assert r[k] in multiset(r);
          if r[k] != x {
            assert r[k] in multiset(t);
            assert r[k] in t;
          }
        }
        PrependAll(s[0], r, leq);
      }
    }
  }

  lemma PrependAll<T(!new)>(x: T, s: seq<T>, leq: (T, T) -> bool)
    requires Sorted(s, leq) && forall k :: 0 <= k < |s| ==> leq(x, s[k])
    ensures Sorted([x] + s, leq)
  {
  }

  lemma PrependSorted<T(!new)>(x: T, s: seq<T>, leq: (T, T) -> bool)
    requires TotalPreorder(leq) && Sorted(s, leq) && s != [] && leq(x, s[0])
    ensures Sorted([x] + s, leq)
  {
  }

  lemma SameElements<T(!new)>(s: seq<T>, t: seq<T>)
    requires multiset(s) == multiset(t)
    ensures |s| == |t| && forall x :: x in s <==> x in t
  {
    assert |multiset(s)| == |multiset(t)|;
    forall x ensures x in s <==> x in t {
      assert x in s <==> x in multiset(s);
      assert x in t <==> x in multiset(t);
    }
  }

  /** The result is sorted and a permutation of the input. */
  lemma {:induction false} SortBySorts<T(!new)>(s: seq<T>, leq: (T, T) -> bool)
    requires TotalPreorder(leq)
    ensures Sorted(SortBy(s, leq), leq)
    ensures multiset(SortBy(s, leq)) == multiset(s)
    ensures |SortBy(s, leq)| == |s|
    ensures forall x :: x in SortBy(s, leq) <==> x in s
  {
    if s != [] {
      SortBySorts(s[1..], leq);
      InsertSorted(s[0], SortBy(s[1..], leq), leq);
      InsertPermutes(s[0], SortBy(s[1..], leq), leq);
      assert s == [s[0]] + s[1..];
    }
    SameElements(SortBy(s, leq), s);
  }

  ghost predicate NoDup<T>(s: seq<T>) {
    forall i, j :: 0 <= i < j < |s| ==> s[i] != s[j]
  }

  lemma {:induction false} NoDupMultiset<T>(s: seq<T>)
    ensures NoDup(s) <==> forall x :: x in multiset(s) ==> multiset(s)[x] == 1
    decreases s
  {
    if s != [] {
      var t := s[1..];
      NoDupMultiset(t);
      assert s == [s[0]] + t;
      assert multiset(s) == multiset{s[0]} + multiset(t);
      if NoDup(s) {
        assert forall i, j :: 0 <= i < j < |t| ==> t[i] == s[i + 1] && t[j] == s[j + 1];
        assert NoDup(t);
        assert s[0] !in t;
        forall x | x in multiset(s) ensures multiset(s)[x] == 1 {
          if x == s[0] { assert x !in multiset(t); } else { assert x in multiset(t); }
        }
      }
      if forall x :: x in multiset(s) ==> multiset(s)[x] == 1 {
        assert multiset(s)[s[0]] == 1;
        assert s[0] !in multiset(t);
        forall x | x in multiset(t) ensures multiset(t)[x] == 1 {
          assert x != s[0] && x in multiset(s);
        }
        forall i, j | 0 <= i < j < |s| ensures s[i] != s[j] {
          if i == 0 { assert s[j] == t[j - 1]; assert s[j] in multiset(t); } else { assert s[i] == t[i - 1] && s[j] == t[j - 1]; }
        }
      }
    }
  }

  lemma SortByNoDup<T(!new)>(s: seq<T>, leq: (T, T) -> bool)
    requires TotalPreorder(leq) && NoDup(s)
    ensures NoDup(SortBy(s, leq))
  {
    SortBySorts(s, leq);
    NoDupMultiset(s);
    NoDupMultiset(SortBy(s, leq));
  }

  ghost predicate Ascending(s: seq<nat>) {
    forall i, j :: 0 <= i < j < |s| ==> s[i] < s[j]
  }

  predicate IsLeast(x: nat, s: set<nat>) {
    x in s && forall y :: y in s ==> x <= y
  }

  lemma {:induction false} LeastExists(s: set<nat>)
    requires s != {}
    ensures exists x :: IsLeast(x, s)
    decreases s
  {
    var x :| x in s;
    if y :| y in s && y < x {
      var t := set z | z in s && z < x;
      assert y in t && x !in t;
      LeastExists(t);
      var m :| IsLeast(m, t);
      forall y | y in s ensures m <= y { assert y < x ==> y in t; }
      assert IsLeast(m, s);
    } else {
      assert IsLeast(x, s);
    }
  }

  function Least(s: set<nat>): (x: nat)
    requires s != {}
    ensures IsLeast(x, s)
  {
    LeastExists(s);
    var x :| IsLeast(x, s);
    x
  }

  /** Iterating an ordered set: its elements in ascending order. */
  function Ordered(s: set<nat>): seq<nat>
    decreases |s|
  {
    if s == {} then [] else [Least(s)] + Ordered(s - {Least(s)})
  }

  lemma {:induction false} OrderedAscends(s: set<nat>)
    ensures |Ordered(s)| == |s|
    ensures forall x :: x in Ordered(s) <==> x in s
    ensures Ascending(Ordered(s))
    decreases |s|
  {
    if s != {} {
      var x := Least(s);
      var rest := Ordered(s - {x});
      OrderedAscends(s - {x});
      forall i | 0 <= i < |rest| ensures x < rest[i] {
        assert rest[i] in rest;
      }
      assert Ordered(s) == [x] + rest;
    }
  }
}
