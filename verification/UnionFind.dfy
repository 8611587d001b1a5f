/** Parent forests as pure maps: what `find` and `union` may assume and must keep. */
module Forests {

  type Parents = map<nat, nat>
  type Ranks = map<nat, nat>
  /** Maps every account to the root of its tree. */
  type Reps = map<nat, nat>

  function Pow2(n: nat): (r: nat)
    ensures r > n
  {
    if n == 0 then 1 else 2 * Pow2(n - 1)
  }

  lemma {:induction false} Pow2Monotone(m: nat, n: nat)
    requires m <= n
    ensures Pow2(m) <= Pow2(n)
    decreases n
  {
    if m < n {
      Pow2Monotone(m, n - 1);
    }
  }

  /** The parent link at `x` stays in its tree and rank strictly rises along it. */
  ghost predicate Sound(p: Parents, r: Ranks, rep: Reps, x: nat)
    requires p.Keys == r.Keys == rep.Keys && x in p
  {
    && p[x] in p && rep[x] in p
    && p[rep[x]] == rep[x]
    && rep[p[x]] == rep[x]
    && r[x] <= r[rep[x]]
    && (p[x] != x ==> r[x] < r[p[x]])
    && (p[x] == x ==> rep[x] == x)
  }

  ghost predicate Forest(p: Parents, r: Ranks, rep: Reps) {
    && p.Keys == r.Keys == rep.Keys
    && forall x {:trigger Sound(p, r, rep, x)} :: x in p ==> Sound(p, r, rep, x)
  }

  ghost function Members(rep: Reps, t: nat): set<nat> {
    set x | x in rep && rep[x] == t
  }

  /** The tree below a root of rank `k` holds at least `2^k` accounts. */
  ghost predicate Sized(p: Parents, r: Ranks, rep: Reps)
    requires p.Keys == r.Keys
  {
    forall t {:trigger Members(rep, t)} :: t in p && p[t] == t ==> Pow2(r[t]) <= |Members(rep, t)|
  }

  lemma SubsetSize(a: set<nat>, b: set<nat>)
    requires a <= b
    ensures |a| <= |b|
  {
    assert b == a + (b - a);
    assert |a + (b - a)| == |a| + |b - a|;
  }

  lemma RootFacts(p: Parents, r: Ranks, rep: Reps, x: nat)
    requires Forest(p, r, rep) && x in p
    ensures rep[x] in p && p[rep[x]] == rep[x] && rep[rep[x]] == rep[x]
  {
    assert Sound(p, r, rep, x) && Sound(p, r, rep, rep[x]);
  }

  /** Ranks are logarithmic in the number of accounts. */
  lemma RankBound(p: Parents, r: Ranks, rep: Reps, x: nat)
    requires Forest(p, r, rep) && Sized(p, r, rep) && x in p
    ensures Pow2(r[x]) <= |p|
  {
    assert Sound(p, r, rep, x);
    var t := rep[x];
    SubsetSize(Members(rep, t), rep.Keys);
    Pow2Monotone(r[x], r[t]);
  }

  /** One halving step moves `x` under its grandparent and keeps every representative. */
  lemma HalvingKeeps(p: Parents, r: Ranks, rep: Reps, x: nat)
    requires Forest(p, r, rep) && Sized(p, r, rep) && x in p && p[x] != x
    ensures p[x] in p && p[p[x]] in p
    ensures Forest(p[x := p[p[x]]], r, rep) && Sized(p[x := p[p[x]]], r, rep)
    ensures rep[x] in p && rep[p[p[x]]] == rep[x] && r[p[p[x]]] <= r[rep[x]]
    ensures r[p[p[x]]] > r[x] && (p[p[x]] == p[x] || r[p[p[x]]] > r[x] + 1)
  {
    assert Sound(p, r, rep, x) && Sound(p, r, rep, p[x]) && Sound(p, r, rep, p[p[x]]);
    var q := p[x := p[p[x]]];
    forall y | y in q ensures Sound(q, r, rep, y) {
      assert Sound(p, r, rep, y);
    }
  }

  /** `small` and `big` are the roots of two trees, `big` of no smaller rank. */
  ghost predicate Linkable(p: Parents, r: Ranks, rep: Reps, small: nat, big: nat) {
    && Forest(p, r, rep)
    && small in p && big in p && small != big
    && p[small] == small && p[big] == big
    && rep[small] == small && rep[big] == big
    && r[small] <= r[big]
  }

  function RaisedRank(r: Ranks, small: nat, big: nat): Ranks
    requires small in r && big in r
  {
    if r[small] == r[big] then r[big := r[big] + 1] else r
  }

  ghost function Redirected(rep: Reps, small: nat, big: nat): Reps {
    map y | y in rep :: if rep[y] == small then big else rep[y]
  }

  lemma LinkForest(p: Parents, r: Ranks, rep: Reps, small: nat, big: nat)
    requires Linkable(p, r, rep, small, big)
    ensures Forest(p[small := big], RaisedRank(r, small, big), Redirected(rep, small, big))
  {
    var p', r', rep' := p[small := big], RaisedRank(r, small, big), Redirected(rep, small, big);
    assert p'.Keys == p.Keys && r'.Keys == r.Keys && rep'.Keys == rep.Keys;
    forall y | y in p' ensures Sound(p', r', rep', y) {
      assert Sound(p, r, rep, y);
    }
  }

  /** Hanging root `small` under root `big` joins exactly those two trees, and ranks stay earned. */
  lemma LinkSized(p: Parents, r: Ranks, rep: Reps, small: nat, big: nat)
    requires Linkable(p, r, rep, small, big) && Sized(p, r, rep)
    ensures p[small := big].Keys == RaisedRank(r, small, big).Keys
    ensures Sized(p[small := big], RaisedRank(r, small, big), Redirected(rep, small, big))
  {
    var p', r', rep' := p[small := big], RaisedRank(r, small, big), Redirected(rep, small, big);
    assert p'.Keys == p.Keys && r'.Keys == r.Keys && rep'.Keys == rep.Keys;
    forall t | t in p' && p'[t] == t ensures Pow2(r'[t]) <= |Members(rep', t)| {
      assert t != small && p[t] == t;
      if t == big {
        LinkedMembers(rep, small, big);
        assert Pow2(r[small]) <= |Members(rep, small)| && Pow2(r[big]) <= |Members(rep, big)|;
      } else {
        assert Members(rep', t) == Members(rep, t);
      }
    }
  }

  lemma LinkedMembers(rep: Reps, small: nat, big: nat)
    requires small != big
    ensures |Members(Redirected(rep, small, big), big)| == |Members(rep, big)| + |Members(rep, small)|
  {
    assert Members(Redirected(rep, small, big), big) == Members(rep, big) + Members(rep, small);
    assert Members(rep, big) !! Members(rep, small);
  }

  /** A new account enters as a one-element tree of rank 0. */
  lemma FreshKeeps(p: Parents, r: Ranks, rep: Reps, a: nat)
    requires Forest(p, r, rep) && Sized(p, r, rep) && a !in p
    ensures p[a := a].Keys == r[a := 0].Keys
    ensures Forest(p[a := a], r[a := 0], rep[a := a]) && Sized(p[a := a], r[a := 0], rep[a := a])
  {
    var p', r', rep' := p[a := a], r[a := 0], rep[a := a];
    assert p'.Keys == p.Keys + {a} && r'.Keys == p.Keys + {a} && rep'.Keys == p.Keys + {a};
    forall x | x in p' ensures Sound(p', r', rep', x) {
      if x != a { assert Sound(p, r, rep, x); }
    }
    hide Sound;
    forall t | t in p' && p'[t] == t ensures Pow2(r'[t]) <= |Members(rep', t)| {
      FreshMembers(rep, a, t);
    }
  }

  lemma FreshMembers(rep: Reps, a: nat, t: nat)
    requires a !in rep
    ensures |Members(rep, t)| <= |Members(rep[a := a], t)| && 1 <= |Members(rep[a := a], a)|
  {
    assert Members(rep, t) <= Members(rep[a := a], t) && {a} <= Members(rep[a := a], a);
    SubsetSize(Members(rep, t), Members(rep[a := a], t));
    SubsetSize({a}, Members(rep[a := a], a));
  }
}

/** Union-find over account ids with path halving and union by rank. */
module UnionFinds {
  import opened Types
  import opened Graph
  import opened Forests

  class UnionFind {
    var parent: map<AccountId, AccountId>
    var rank: map<AccountId, nat>
    /** The representative of every account, and the unions performed so far. */
    ghost var rep: map<AccountId, AccountId>
    ghost var edges: Edges

    /** Two accounts have the same representative iff the performed unions connect them. */
    ghost predicate Valid()
      reads this
    {
      && Forest(parent, rank, rep)
      && Sized(parent, rank, rep)
      && (forall e :: e in edges ==> e.0 in rep && e.1 in rep)
      && Represents(rep, edges)
    }

    constructor (accounts: set<AccountId>)
      ensures Valid() && parent.Keys == accounts && edges == {}
    {
      parent := map a | a in accounts :: a;
      rank := map a | a in accounts :: 0;
      rep := map a | a in accounts :: a;
      edges := {};
      new;
      forall x | x in parent ensures Sound(parent, rank, rep, x) {}
      forall t | t in parent ensures 1 <= |Members(rep, t)| {
        assert Members(rep, t) == {t};
      }
      SingletonsRepresent(rep);
    }

    /** Adds `a` as a singleton unless it is already known. */
    method Ensure(a: AccountId)
      requires Valid()
      modifies this`parent, this`rank, this`rep
      ensures Valid() && parent.Keys == old(parent.Keys) + {a}
      ensures old(a in parent) ==> parent == old(parent) && rank == old(rank) && rep == old(rep)
      ensures old(a !in parent) ==>
        parent == old(parent)[a := a] && rank == old(rank)[a := 0] && rep == old(rep)[a := a]
    {
      if a !in parent {
        FreshKeeps(parent, rank, rep, a);
        FreshRepresents(rep, edges, a) by {
          assert forall x :: x in rep ==> Sound(parent, rank, rep, x);
        }
        parent := parent[a := a];
        rank := rank[a := 0];
        rep := rep[a := a];
      }
    }

    /**
     * The representative of `a`. The loop runs at most half the root's rank, rounded up, hence at
     * most `log2(n)` times; halving changes neither the represented partition nor any rank.
     */
    method Find(a: AccountId) returns (x: AccountId, ghost steps: nat)
      requires Valid()
      modifies this`parent, this`rank, this`rep
      ensures Valid() && parent.Keys == old(parent.Keys) + {a}
      ensures rep == if old(a in rep) then old(rep) else old(rep)[a := a]
      ensures rank == if old(a in rank) then old(rank) else old(rank)[a := 0]
      ensures x in parent && x == rep[a] && parent[x] == x
      ensures 2 * steps <= rank[x] + 1 && Pow2(steps) <= |parent|
    {
      Ensure(a);
      x, steps := a, 0;
      assert Sound(parent, rank, rep, a);
      label start:
      while parent[x] != x
        invariant x in parent && parent.Keys == old(parent.Keys) + {a}
        invariant unchanged@start(`rank) && unchanged@start(`rep)
        invariant Forest(parent, rank, rep) && Sized(parent, rank, rep)
        invariant rep[x] == rep[a] && rep[a] in rank
        invariant steps <= rank[x] <= rank[rep[a]]
        invariant 2 * steps <= rank[x] + if parent[x] == x then 1 else 0
        decreases rank[rep[a]] - rank[x]
      {
        HalvingKeeps(parent, rank, rep, x);
        var gp := parent[parent[x]];
        assert parent[gp] == gp || rank[gp] > rank[x] + 1;
        parent := parent[x := gp]; // path halving
        x := gp;
        steps := steps + 1;
      }
      assert Sound(parent, rank, rep, x);
      RankBound(parent, rank, rep, x);
      Pow2Monotone(steps, rank[x]);
    }

    /** Merges the components of `a` and `b`, and nothing else. */
    method Union(a: AccountId, b: AccountId)
      requires Valid()
      modifies this
      ensures Valid() && parent.Keys == old(parent.Keys) + {a} + {b}
      ensures old(a in parent && b in parent) ==> parent.Keys == old(parent.Keys)
      ensures edges == old(edges) + {(a, b)}
    {
      var ra, _ := Find(a);
      var rb, _ := Find(b);
      RootFacts(parent, rank, rep, a);
      RootFacts(parent, rank, rep, b);
      if ra != rb {
        Link(ra, rb, a, b);
      } else {
        JoinRepresents(rep, rep, edges, a, b, ra);
        edges := edges + {(a, b)};
      }
    }

    /** Hangs the root of lower rank under the other. */
    method Link(ra: AccountId, rb: AccountId, ghost a: AccountId, ghost b: AccountId)
      requires Valid() && a in rep && b in rep && ra == rep[a] && rb == rep[b] && ra != rb
      requires ra in parent && rb in parent && parent[ra] == ra && parent[rb] == rb
      requires rep[ra] == ra && rep[rb] == rb
      modifies this
      ensures Valid() && parent.Keys == old(parent.Keys) && edges == old(edges) + {(a, b)}
    {
      var raRank, rbRank := rank[ra], rank[rb];
      var big, small := if raRank >= rbRank then ra else rb, if raRank >= rbRank then rb else ra;
      LinkForest(parent, rank, rep, small, big);
      LinkSized(parent, rank, rep, small, big);
      JoinRepresents(rep, Redirected(rep, small, big), edges, a, b, big);
      rep := Redirected(rep, small, big);
      edges := edges + {(a, b)};
      parent := parent[small := big];
      if raRank == rbRank {
        rank := rank[big := rank[big] + 1];
      }
    }
  }

  ghost predicate Represents(rep: Reps, E: Edges) {
    forall x, y {:trigger Connected(E, x, y)} ::
      x in rep && y in rep ==> (rep[x] == rep[y] <==> Connected(E, x, y))
  }

  lemma SingletonsRepresent(rep: Reps)
    requires forall x :: x in rep ==> rep[x] == x
    ensures Represents(rep, {})
  {
    forall x, y | x in rep && y in rep ensures rep[x] == rep[y] <==> Connected({}, x, y) {
      Refl({}, x);
      if Connected({}, x, y) {
        IsolatedAlone({}, x, y);
      }
    }
  }

  lemma FreshRepresents(rep: Reps, E: Edges, a: AccountId)
    requires Represents(rep, E) && a !in rep
    requires forall e :: e in E ==> e.0 in rep && e.1 in rep
    requires forall x :: x in rep ==> rep[x] in rep
    ensures Represents(rep[a := a], E)
  {
    var rep' := rep[a := a];
    forall x, y | x in rep' && y in rep' ensures rep'[x] == rep'[y] <==> Connected(E, x, y) {
      Refl(E, a);
      if Connected(E, x, y) && (x == a || y == a) {
        Sym(E, x, y);
        IsolatedAlone(E, a, if x == a then y else x);
      }
    }
  }

  lemma JoinRepresents(rep: Reps, rep': Reps, E: Edges, a: AccountId, b: AccountId, big: AccountId)
    requires Represents(rep, E) && a in rep && b in rep && rep'.Keys == rep.Keys
    requires big in {rep[a], rep[b]}
    requires forall y :: y in rep ==> rep'[y] == if rep[y] in {rep[a], rep[b]} then big else rep[y]
    ensures Represents(rep', E + {(a, b)})
  {
    AddEdge(E, a, b);
    forall x, y | x in rep' && y in rep'
      ensures rep'[x] == rep'[y] <==> Connected(E + {(a, b)}, x, y)
    {
      assert Connected(E, x, a) <==> rep[x] == rep[a];
      assert Connected(E, b, y) <==> rep[b] == rep[y];
      assert Connected(E, x, b) <==> rep[x] == rep[b];
      assert Connected(E, a, y) <==> rep[a] == rep[y];
    }
  }
}
