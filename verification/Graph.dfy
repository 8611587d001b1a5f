/** Undirected reachability: the specification every clustering rule is measured against. */
module Graph {

  type Edges = set<(nat, nat)>

  ghost predicate Link(E: Edges, x: nat, y: nat) {
    (x, y) in E || (y, x) in E
  }

  ghost predicate Walk(E: Edges, x: nat, y: nat, n: nat)
    decreases n
  {
    if n == 0 then x == y else exists z: nat :: Link(E, x, z) && Walk(E, z, y, n - 1)
  }

  /** `x` and `y` lie in the same connected component of the graph with edges `E`. */
  ghost predicate Connected(E: Edges, x: nat, y: nat) {
    exists n: nat :: Walk(E, x, y, n)
  }

  lemma Refl(E: Edges, x: nat)
    ensures Connected(E, x, x)
  {
    assert Walk(E, x, x, 0);
  }

  lemma Edge(E: Edges, x: nat, y: nat)
    requires Link(E, x, y)
    ensures Connected(E, x, y)
  {
    assert Walk(E, y, y, 0);
    assert Walk(E, x, y, 1);
  }

  lemma {:induction false} WalkTrans(E: Edges, x: nat, y: nat, z: nat, n: nat, m: nat)
    requires Walk(E, x, y, n) && Walk(E, y, z, m)
    ensures Walk(E, x, z, n + m)
    decreases n
  {
    if n != 0 {
      var u: nat :| Link(E, x, u) && Walk(E, u, y, n - 1);
      WalkTrans(E, u, y, z, n - 1, m);
      assert Walk(E, u, z, n + m - 1);
    }
  }

  lemma Trans(E: Edges, x: nat, y: nat, z: nat)
    requires Connected(E, x, y) && Connected(E, y, z)
    ensures Connected(E, x, z)
  {
    var n: nat :| Walk(E, x, y, n);
    var m: nat :| Walk(E, y, z, m);
    WalkTrans(E, x, y, z, n, m);
  }

  lemma {:induction false} WalkSym(E: Edges, x: nat, y: nat, n: nat)
    requires Walk(E, x, y, n)
    ensures Connected(E, y, x)
    decreases n
  {
    if n == 0 {
      Refl(E, x);
    } else {
      var z: nat :| Link(E, x, z) && Walk(E, z, y, n - 1);
      WalkSym(E, z, y, n - 1);
      Edge(E, z, x);
      Trans(E, y, z, x);
    }
  }

  lemma Sym(E: Edges, x: nat, y: nat)
    requires Connected(E, x, y)
    ensures Connected(E, y, x)
  {
    var n: nat :| Walk(E, x, y, n);
    WalkSym(E, x, y, n);
  }

  /** `R` is an equivalence relation. */
  ghost predicate Equivalence(R: (nat, nat) -> bool) {
    && (forall x :: R(x, x))
    && (forall x, y :: R(x, y) ==> R(y, x))
    && (forall x, y, z :: R(x, y) && R(y, z) ==> R(x, z))
  }

  lemma {:induction false} WalkWithin(E: Edges, R: (nat, nat) -> bool, x: nat, y: nat, n: nat)
    requires Equivalence(R) && (forall e :: e in E ==> R(e.0, e.1))
    requires Walk(E, x, y, n)
    ensures R(x, y)
    decreases n
  {
    if n != 0 {
      var z: nat :| Link(E, x, z) && Walk(E, z, y, n - 1);
      assert R(x, z) by {
        if (x, z) in E {
          assert R((x, z).0, (x, z).1);
        } else {
          assert R((z, x).0, (z, x).1);
        }
      }
      WalkWithin(E, R, z, y, n - 1);
    }
  }

  /** Reachability is the least equivalence that contains the edges. */
  lemma LeastEquivalence(E: Edges, R: (nat, nat) -> bool, x: nat, y: nat)
    requires Equivalence(R) && (forall e :: e in E ==> R(e.0, e.1))
    requires Connected(E, x, y)
    ensures R(x, y)
  {
    var n: nat :| Walk(E, x, y, n);
    WalkWithin(E, R, x, y, n);
  }

  lemma ConnectedIsEquivalence(E: Edges)
    ensures Equivalence((x: nat, y: nat) => Connected(E, x, y))
  {
    forall x: nat ensures Connected(E, x, x) { Refl(E, x); }
    forall x: nat, y: nat | Connected(E, x, y) ensures Connected(E, y, x) { Sym(E, x, y); }
    forall x: nat, y: nat, z: nat | Connected(E, x, y) && Connected(E, y, z) ensures Connected(E, x, z) {
      Trans(E, x, y, z);
    }
  }

  /** Every edge of `E` joins two nodes that `F` already connects. */
  ghost predicate Covers(F: Edges, E: Edges) {
    forall e :: e in E ==> Connected(F, e.0, e.1)
  }

  /** `E` and `F` have the same components. */
  ghost predicate SameReach(E: Edges, F: Edges) {
    forall x: nat, y: nat :: Connected(E, x, y) <==> Connected(F, x, y)
  }

  lemma CoversReach(F: Edges, E: Edges)
    requires Covers(F, E)
    ensures forall x: nat, y: nat :: Connected(E, x, y) ==> Connected(F, x, y)
  {
    ConnectedIsEquivalence(F);
    forall x: nat, y: nat | Connected(E, x, y) ensures Connected(F, x, y) {
      LeastEquivalence(E, (a: nat, b: nat) => Connected(F, a, b), x, y);
    }
  }

  lemma SubsetCovers(F: Edges, E: Edges)
    requires E <= F
    ensures Covers(F, E)
  {
    forall e | e in E ensures Connected(F, e.0, e.1) {
      assert (e.0, e.1) == e;
      Edge(F, e.0, e.1);
    }
  }

  /** More edges can only merge components. */
  lemma Monotone(E: Edges, F: Edges, x: nat, y: nat)
    requires E <= F && Connected(E, x, y)
    ensures Connected(F, x, y)
  {
    SubsetCovers(F, E);
    CoversReach(F, E);
  }

  lemma MutualCover(E: Edges, F: Edges)
    requires Covers(F, E) && Covers(E, F)
    ensures SameReach(E, F)
  {
    CoversReach(F, E);
    CoversReach(E, F);
  }

  /** Adding one edge merges exactly the two components of its ends. */
  ghost predicate Merged(E: Edges, a: nat, b: nat, x: nat, y: nat) {
    || Connected(E, x, y)
    || (Connected(E, x, a) && Connected(E, b, y))
    || (Connected(E, x, b) && Connected(E, a, y))
  }

  lemma MergedIsEquivalence(E: Edges, a: nat, b: nat)
    ensures Equivalence((x: nat, y: nat) => Merged(E, a, b, x, y))
  {
    ConnectedIsEquivalence(E);
    var C := (x: nat, y: nat) => Connected(E, x, y);
    var R := (x: nat, y: nat) => Merged(E, a, b, x, y);
    assert forall x: nat, y: nat :: C(x, y) == Connected(E, x, y);
    assert forall x: nat :: C(x, x);
    assert forall x: nat, y: nat :: C(x, y) ==> C(y, x);
    assert forall x: nat, y: nat, z: nat :: C(x, y) && C(y, z) ==> C(x, z);
    forall x: nat, y: nat | R(x, y) ensures R(y, x) {
      assert C(x, y) ==> C(y, x);
      assert C(x, a) ==> C(a, x);
      assert C(b, y) ==> C(y, b);
      assert C(x, b) ==> C(b, x);
      assert C(a, y) ==> C(y, a);
    }
    forall x: nat, y: nat, z: nat | R(x, y) && R(y, z) ensures R(x, z) {
      MergedTrans(E, a, b, x, y, z);
    }
  }

  lemma MergedTrans(E: Edges, a: nat, b: nat, x: nat, y: nat, z: nat)
    requires Merged(E, a, b, x, y) && Merged(E, a, b, y, z)
    ensures Merged(E, a, b, x, z)
  {
    ConnectedIsEquivalence(E);
    var C := (u: nat, v: nat) => Connected(E, u, v);
    assert forall u: nat, v: nat :: C(u, v) == Connected(E, u, v);
    assert forall u: nat, v: nat :: C(u, v) ==> C(v, u);
    if C(x, y) {
      if C(y, z) {
        assert C(x, z);
      } else if C(y, a) && C(b, z) {
        assert C(x, a);
      } else {
        assert C(x, b);
      }
    } else if C(x, a) && C(b, y) {
      if C(y, z) {
        assert C(b, z);
      } else if C(y, b) && C(a, z) {
        assert C(x, z);
      }
    } else {
      if C(y, z) {
        assert C(a, z);
      } else if C(y, a) && C(b, z) {
        assert C(x, z);
      }
    }
  }

  lemma AddEdge(E: Edges, a: nat, b: nat)
    ensures forall x: nat, y: nat :: Connected(E + {(a, b)}, x, y) <==> Merged(E, a, b, x, y)
  {
    var F := E + {(a, b)};
    SubsetCovers(F, E);
    CoversReach(F, E);
    MergedIsEquivalence(E, a, b);
    var R := (x: nat, y: nat) => Merged(E, a, b, x, y);
    Refl(E, a);
    Refl(E, b);
    forall e | e in F ensures R(e.0, e.1) {
      if e in E {
        assert (e.0, e.1) == e;
        Edge(E, e.0, e.1);
      }
    }
    Edge(F, a, b);
    Edge(F, b, a);
    forall x: nat, y: nat ensures Connected(F, x, y) <==> Merged(E, a, b, x, y) {
      if Connected(F, x, y) {
        LeastEquivalence(F, R, x, y);
      } else if Connected(E, x, a) && Connected(E, b, y) {
        Trans(F, x, a, b);
        Trans(F, x, b, y);
      } else if Connected(E, x, b) && Connected(E, a, y) {
        Trans(F, x, b, a);
        Trans(F, x, a, y);
      }
    }
  }

  /** A node that no edge touches is connected to nothing but itself. */
  lemma IsolatedAlone(E: Edges, x: nat, y: nat)
    requires forall e :: e in E ==> e.0 != x && e.1 != x
    requires Connected(E, x, y)
    ensures x == y
  {
  }

  /** Edge sets with the same components stay so when both grow by edges with the same reach. */
  lemma GrowSameReach(E: Edges, F: Edges, X: Edges, G: Edges)
    requires SameReach(E, F) && SameReach(G, E + X)
    ensures SameReach(G, F + X)
  {
    SumCovers(E, F, X);
    SumCovers(F, E, X);
    MutualCover(E + X, F + X);
  }

  lemma SumCovers(E: Edges, F: Edges, X: Edges)
    requires SameReach(E, F)
    ensures Covers(E + X, F + X)
  {
    SubsetCovers(E + X, E);
    CoversReach(E + X, E);
    SubsetCovers(F, F);
    SubsetCovers(E + X, X);
  }
}
