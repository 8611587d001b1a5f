/** Pairwise scoring of a clustering against ground-truth ownership. */
module Metric {
  import opened Types
  import opened Groups

  /** Ground truth: the operator of the last labelled transaction an account signed. */
  function Ownership(rs: Ledger): map<AccountId, AgentId> {
    if rs == [] then map[]
    else
      var r := rs[|rs| - 1];
      var m := Ownership(rs[..|rs| - 1]);
      if r.operator.Some? then m[r.source := r.operator.value] else m
  }

  method BuildOwnership(rs: Ledger) returns (m: map<AccountId, AgentId>)
    ensures m == Ownership(rs)
  {
    m := map[];
    for n := 0 to |rs|
      invariant m == Ownership(rs[..n])
    {
      assert rs[..n + 1][..n] == rs[..n];
      if rs[n].operator.Some? {
        m := m[rs[n].source := rs[n].operator.value];
      }
    }
    assert rs[..|rs|] == rs;
  }

  /** Record `i` is the last labelled one that `a` signs. */
  ghost predicate LastLabelled(rs: Ledger, a: AccountId, i: nat) {
    && i < |rs| && rs[i].source == a && rs[i].operator.Some?
    && forall j :: i < j < |rs| && rs[j].source == a ==> rs[j].operator == None
  }

  /** An account is owned iff it signs a labelled record, by the operator of the last such one. */
  lemma {:induction false} OwnedByLast(rs: Ledger, a: AccountId)
    ensures a in Ownership(rs) <==> exists r :: r in rs && r.source == a && r.operator.Some?
    ensures a in Ownership(rs) ==> exists i: nat :: LastLabelled(rs, a, i) && rs[i].operator == Some(Ownership(rs)[a])
  {
    if rs != [] {
      var init, r := rs[..|rs| - 1], rs[|rs| - 1];
      OwnedByLast(init, a);
      assert rs == init + [r];
      if r.source == a && r.operator.Some? {
        assert LastLabelled(rs, a, |rs| - 1);
      } else if a in Ownership(init) {
        var i: nat :| LastLabelled(init, a, i) && init[i].operator == Some(Ownership(init)[a]);
        assert LastLabelled(rs, a, i);
      }
    }
  }

  lemma OwnersSign(rs: Ledger, a: AccountId)
    ensures a in Ownership(rs) <==> exists r :: r in rs && r.source == a && r.operator.Some?
    ensures a in Ownership(rs) ==> exists r :: r in rs && r.source == a && r.operator == Some(Ownership(rs)[a])
  {
    OwnedByLast(rs, a);
    if a in Ownership(rs) {
      var i: nat :| LastLabelled(rs, a, i) && rs[i].operator == Some(Ownership(rs)[a]);
      assert rs[i] in rs;
    }
  }

  // ---- counting pairs by class ----

  function C2(k: nat): nat {
    k * (if k == 0 then 0 else k - 1) / 2
  }

  /** The unordered pairs of `s`, written with the smaller account first. */
  ghost function PairsOf(s: set<nat>): set<(nat, nat)> {
    set a, b | a in s && b in s && a < b :: (a, b)
  }

  ghost function Class<K>(s: set<nat>, key: nat -> K, k: K): set<nat> {
    set a | a in s && key(a) == k
  }

  /** The unordered pairs of `s` whose keys agree on a key of `ks`. */
  ghost function Agreeing<K>(s: set<nat>, key: nat -> K, ks: set<K>): set<(nat, nat)> {
    set a, b | a in s && b in s && a < b && key(a) == key(b) && key(a) in ks :: (a, b)
  }

  ghost function WithRight(s: set<nat>, x: nat): set<(nat, nat)> {
    set a | a in s :: (a, x)
  }

  ghost function WithLeft(s: set<nat>, x: nat): set<(nat, nat)> {
    set a | a in s :: (x, a)
  }

  lemma PairsGrow(s: set<nat>, x: nat)
    requires x !in s
    ensures |PairsOf(s + {x})| == |PairsOf(s)| + |s|
  {
    hide PairsOf, WithRight, WithLeft;
    var below, above := set a | a in s && a < x, set a | a in s && a > x;
    assert s == below + above;
    assert |s| == |below| + |above|;
    SplitNewPairs(s, x, below, above);
    PairUp(below, x);
    PairUp(above, x);
    NewPairsApart(s, x, below, above);
    Cardinality3(PairsOf(s), WithRight(below, x), WithLeft(above, x));
  }

  lemma NewPairsApart(s: set<nat>, x: nat, below: set<nat>, above: set<nat>)
    requires x !in s && x !in above
    ensures forall p :: p in PairsOf(s) ==> p !in WithRight(below, x) && p !in WithLeft(above, x)
    ensures forall p :: p in WithRight(below, x) ==> p !in WithLeft(above, x)
  {
  }

  lemma Cardinality3(a: set<(nat, nat)>, b: set<(nat, nat)>, c: set<(nat, nat)>)
    requires forall p :: p in a ==> p !in b && p !in c
    requires forall p :: p in b ==> p !in c
    ensures |a + b + c| == |a| + |b| + |c|
  {
  }

  lemma SplitNewPairs(s: set<nat>, x: nat, below: set<nat>, above: set<nat>)
    requires x !in s && below == (set a | a in s && a < x) && above == (set a | a in s && a > x)
    ensures PairsOf(s + {x}) == PairsOf(s) + WithRight(below, x) + WithLeft(above, x)
  {
  }

  lemma {:induction false} PairUp(s: set<nat>, x: nat)
    ensures |WithRight(s, x)| == |s| && |WithLeft(s, x)| == |s|
    decreases s
  {
    if s != {} {
      var y :| y in s;
      PairUp(s - {y}, x);
      assert WithRight(s, x) == WithRight(s - {y}, x) + {(y, x)};
      assert WithLeft(s, x) == WithLeft(s - {y}, x) + {(x, y)};
    }
  }

  /** `C2(k)` is the number of unordered pairs in a set of `k` elements. */
  lemma {:induction false} C2CountsPairs(s: set<nat>)
    ensures |PairsOf(s)| == C2(|s|)
    decreases s
  {
    if s != {} {
      var x :| x in s;
      C2CountsPairs(s - {x});
      PairsGrow(s - {x}, x);
      assert s - {x} + {x} == s;
      C2Next(|s| - 1);
    } else {
      assert PairsOf(s) == {};
    }
  }

  lemma C2Next(n: nat)
    ensures C2(n + 1) == C2(n) + n
  {
  }

  /** `count` holds the class sizes of `s` under `key`. */
  ghost predicate IsTally<K(!new)>(count: map<K, nat>, s: set<nat>, key: nat -> K) {
    && (forall a :: a in s ==> key(a) in count)
    && (forall k :: k in count ==> count[k] == |Class(s, key, k)|)
  }

  /** Counting one more account under its key. */
  function Bump<K>(count: map<K, nat>, k: K): map<K, nat> {
    count[k := (if k in count then count[k] else 0) + 1]
  }

  lemma NothingTallied<K(!new)>(key: nat -> K)
    ensures IsTally(map[], {}, key)
  {
  }

  lemma BumpTally<K(!new)>(count: map<K, nat>, s: set<nat>, key: nat -> K, a: nat)
    requires IsTally(count, s, key) && a !in s
    ensures IsTally(Bump(count, key(a)), s + {a}, key)
  {
    var next := Bump(count, key(a));
    forall k | k in next ensures next[k] == |Class(s + {a}, key, k)| {
      if k == key(a) {
        assert Class(s + {a}, key, k) == Class(s, key, k) + {a};
        if k !in count { assert Class(s, key, k) == {}; }
      } else {
        assert Class(s + {a}, key, k) == Class(s, key, k);
      }
    }
  }

  /** Summing `C2` over the class sizes counts the pairs whose keys agree. */
  method SumC2<K(==, !new)>(count: map<K, nat>, ghost s: set<nat>, ghost key: nat -> K) returns (total: nat)
    requires IsTally(count, s, key)
    ensures total == |Agreeing(s, key, count.Keys)|
  {
    total := 0;
    var all := count.Keys;
    var todo := all;
    assert Agreeing(s, key, all - todo) == {};
    while todo != {}
      invariant todo <= all && total == |Agreeing(s, key, all - todo)|
      decreases todo
    {
      var k :| k in todo;
      total := total + C2(count[k]);
      C2CountsPairs(Class(s, key, k));
      AgreeingGrows(s, key, all - todo, k);
      assert all - (todo - {k}) == all - todo + {k};
      todo := todo - {k};
    }
    assert all - todo == all;
  }

  lemma AgreeingGrows<K>(s: set<nat>, key: nat -> K, ks: set<K>, k: K)
    requires k !in ks
    ensures |Agreeing(s, key, ks + {k})| == |Agreeing(s, key, ks)| + |PairsOf(Class(s, key, k))|
  {
    assert Agreeing(s, key, ks + {k}) == Agreeing(s, key, ks) + PairsOf(Class(s, key, k));
    assert Agreeing(s, key, ks) !! PairsOf(Class(s, key, k));
  }

  // ---- the confusion counts ----

  /** The predicted cluster of an account; accounts without one share the class `None`. */
  function ClusterKey(clusterOf: map<AccountId, nat>, a: AccountId): Option<nat> {
    if a in clusterOf then Some(clusterOf[a]) else None
  }

  function OwnerKey(owner: map<AccountId, AgentId>, a: AccountId): AgentId {
    if a in owner then owner[a] else 0
  }

  ghost function SameOperator(owner: map<AccountId, AgentId>): set<(nat, nat)> {
    set a, b | a in owner && b in owner && a < b && owner[a] == owner[b] :: (a, b)
  }

  ghost function SameCluster(owner: map<AccountId, AgentId>, clusterOf: map<AccountId, nat>): set<(nat, nat)> {
    set a, b | a in owner && b in owner && a < b && ClusterKey(clusterOf, a) == ClusterKey(clusterOf, b) :: (a, b)
  }

  datatype Confusion = Confusion(tp: nat, fp: nat, fn: nat)

  /** The counts by direct enumeration of the unordered owned pairs. */
  ghost function Enumerated(owner: map<AccountId, AgentId>, clusterOf: map<AccountId, nat>): Confusion {
    var (same, linked) := (SameOperator(owner), SameCluster(owner, clusterOf));
    Confusion(|same * linked|, |linked - same|, |same - linked|)
  }

  function ByOperator(owner: map<AccountId, AgentId>): nat -> AgentId {
    (a: nat) => OwnerKey(owner, a)
  }

  function ByCluster(clusterOf: map<AccountId, nat>): nat -> Option<nat> {
    (a: nat) => ClusterKey(clusterOf, a)
  }

  function ByCell(owner: map<AccountId, AgentId>, clusterOf: map<AccountId, nat>): nat -> (AgentId, Option<nat>) {
    (a: nat) => (OwnerKey(owner, a), ClusterKey(clusterOf, a))
  }

  /** The contingency table and its two marginals. */
  method Tabulate(owner: map<AccountId, AgentId>, clusterOf: map<AccountId, nat>)
    returns (cell: map<(AgentId, Option<nat>), nat>, perOp: map<AgentId, nat>, perCluster: map<Option<nat>, nat>)
    ensures IsTally(cell, owner.Keys, ByCell(owner, clusterOf))
    ensures IsTally(perOp, owner.Keys, ByOperator(owner))
    ensures IsTally(perCluster, owner.Keys, ByCluster(clusterOf))
  {
    cell, perOp, perCluster := map[], map[], map[];
    var todo := owner.Keys;
    ghost var seen: set<nat> := {};
    NothingTallied(ByCell(owner, clusterOf));
    NothingTallied(ByOperator(owner));
    NothingTallied(ByCluster(clusterOf));
    hide IsTally, Bump, ClusterKey, ByCell, ByOperator, ByCluster;
    while todo != {}
      invariant seen + todo == owner.Keys && seen !! todo
      invariant IsTally(cell, seen, ByCell(owner, clusterOf))
      invariant IsTally(perOp, seen, ByOperator(owner))
      invariant IsTally(perCluster, seen, ByCluster(clusterOf))
      decreases todo
    {
      var a :| a in todo;
      var k := ClusterKey(clusterOf, a);
      TabulateOne(owner, clusterOf, seen, a, cell, perOp, perCluster);
      cell := Bump(cell, (owner[a], k));
      perOp := Bump(perOp, owner[a]);
      perCluster := Bump(perCluster, k);
      seen := seen + {a};
      todo := todo - {a};
    }
    assert seen == owner.Keys;
  }

  lemma TabulateOne(owner: map<AccountId, AgentId>, clusterOf: map<AccountId, nat>, seen: set<nat>, a: AccountId,
                    cell: map<(AgentId, Option<nat>), nat>, perOp: map<AgentId, nat>, perCluster: map<Option<nat>, nat>)
    requires IsTally(cell, seen, ByCell(owner, clusterOf)) && IsTally(perOp, seen, ByOperator(owner))
    requires IsTally(perCluster, seen, ByCluster(clusterOf)) && a in owner && a !in seen
    ensures IsTally(Bump(cell, (owner[a], ClusterKey(clusterOf, a))), seen + {a}, ByCell(owner, clusterOf))
    ensures IsTally(Bump(perOp, owner[a]), seen + {a}, ByOperator(owner))
    ensures IsTally(Bump(perCluster, ClusterKey(clusterOf, a)), seen + {a}, ByCluster(clusterOf))
  {
    hide IsTally, Bump, ClusterKey;
    BumpTally(cell, seen, ByCell(owner, clusterOf), a);
    BumpTally(perOp, seen, ByOperator(owner), a);
    BumpTally(perCluster, seen, ByCluster(clusterOf), a);
  }

  /** The counts by contingency table; neither subtraction can underflow. */
  method ConfusionCounts(owner: map<AccountId, AgentId>, clusterOf: map<AccountId, nat>) returns (c: Confusion)
    ensures c == Enumerated(owner, clusterOf)
  {
    var cell, perOp, perCluster := Tabulate(owner, clusterOf);
    var tp := SumC2(cell, owner.Keys, ByCell(owner, clusterOf));
    var predPos := SumC2(perCluster, owner.Keys, ByCluster(clusterOf));
    var sameOp := SumC2(perOp, owner.Keys, ByOperator(owner));
    CellsAgree(owner, clusterOf, cell.Keys);
    ClustersAgree(owner, clusterOf, perCluster.Keys);
    OperatorsAgree(owner, perOp.Keys);
    SplitCounts(SameOperator(owner), SameCluster(owner, clusterOf));
    c := Confusion(tp, predPos - tp, sameOp - tp);
  }

  lemma SplitCounts(a: set<(nat, nat)>, b: set<(nat, nat)>)
    ensures |a| == |a * b| + |a - b| && |b| == |a * b| + |b - a|
  {
  }

  lemma CellsAgree(owner: map<AccountId, AgentId>, clusterOf: map<AccountId, nat>, ks: set<(AgentId, Option<nat>)>)
    requires forall a :: a in owner ==> ByCell(owner, clusterOf)(a) in ks
    ensures Agreeing(owner.Keys, ByCell(owner, clusterOf), ks) == SameOperator(owner) * SameCluster(owner, clusterOf)
  {
  }

  lemma ClustersAgree(owner: map<AccountId, AgentId>, clusterOf: map<AccountId, nat>, ks: set<Option<nat>>)
    requires forall a :: a in owner ==> ByCluster(clusterOf)(a) in ks
    ensures Agreeing(owner.Keys, ByCluster(clusterOf), ks) == SameCluster(owner, clusterOf)
  {
  }

  lemma OperatorsAgree(owner: map<AccountId, AgentId>, ks: set<AgentId>)
    requires forall a :: a in owner ==> ByOperator(owner)(a) in ks
    ensures Agreeing(owner.Keys, ByOperator(owner), ks) == SameOperator(owner)
  {
  }

  // ---- precision, recall, F1 ----

  function Ratio(a: nat, b: nat): real {
    if b > 0 then a as real / b as real else 0.0
  }

  lemma RatioWhole(a: nat)
    ensures a > 0 ==> Ratio(a, a) == 1.0
  {
  }

  /** Precision, recall and F1, as computed from the counts. */
  method Scores(c: Confusion) returns (precision: real, recall: real, f1: real)
    ensures precision == Ratio(c.tp, c.tp + c.fp) && recall == Ratio(c.tp, c.tp + c.fn)
    ensures f1 == Ratio(2 * c.tp, 2 * c.tp + c.fp + c.fn)
    ensures 0.0 <= f1 <= 1.0
    ensures f1 == 1.0 <==> c.tp > 0 && c.fp == 0 && c.fn == 0
    ensures f1 == 0.0 <==> c.tp == 0
  {
    precision := if c.tp + c.fp > 0 then c.tp as real / (c.tp + c.fp) as real else 0.0;
    recall := if c.tp + c.fn > 0 then c.tp as real / (c.tp + c.fn) as real else 0.0;
    f1 := if precision + recall > 0.0 then 2.0 * precision * recall / (precision + recall) else 0.0;
    if c.tp > 0 {
      HarmonicMean(c.tp as real, (c.tp + c.fp) as real, (c.tp + c.fn) as real);
    }
    F1Range(2 * c.tp, 2 * c.tp + c.fp + c.fn);
  }

  lemma HarmonicMean(t: real, p: real, q: real)
    requires t > 0.0 && p > 0.0 && q > 0.0
    ensures t / p + t / q > 0.0
    ensures 2.0 * (t / p) * (t / q) / (t / p + t / q) == 2.0 * t / (p + q)
  {
  }

  lemma F1Range(a: nat, b: nat)
    requires a <= b
    ensures 0.0 <= Ratio(a, b) <= 1.0
    ensures Ratio(a, b) == 1.0 <==> a > 0 && a == b
    ensures Ratio(a, b) == 0.0 <==> a == 0
  {
  }

  /** No errors means that, on owned accounts, the clusters are the operators. */
  lemma NoErrorsIffPartitionsAgree(owner: map<AccountId, AgentId>, clusterOf: map<AccountId, nat>)
    ensures (Enumerated(owner, clusterOf).fp == 0 && Enumerated(owner, clusterOf).fn == 0) <==>
      forall a, b :: a in owner && b in owner ==>
        (owner[a] == owner[b] <==> ClusterKey(clusterOf, a) == ClusterKey(clusterOf, b))
  {
    var (same, linked) := (SameOperator(owner), SameCluster(owner, clusterOf));
    if |linked - same| == 0 && |same - linked| == 0 {
      assert linked - same == {} && same - linked == {};
      forall a, b | a in owner && b in owner
        ensures owner[a] == owner[b] <==> ClusterKey(clusterOf, a) == ClusterKey(clusterOf, b)
      {
        var p := if a < b then (a, b) else (b, a);
        if a != b {
          assert p in same <==> p in linked by {
            if p in same { assert p !in same - linked; }
            if p in linked { assert p !in linked - same; }
          }
        }
      }
    }
    if forall a, b :: a in owner && b in owner ==>
        (owner[a] == owner[b] <==> ClusterKey(clusterOf, a) == ClusterKey(clusterOf, b))
    {
      assert same == linked;
    }
  }

  /** No same-operator pair is missed iff every operator's accounts share one cluster. */
  lemma NoMissesIffOperatorsWhole(owner: map<AccountId, AgentId>, clusterOf: map<AccountId, nat>)
    ensures Enumerated(owner, clusterOf).fn == 0 <==>
      forall a, b :: a in owner && b in owner && owner[a] == owner[b] ==>
        ClusterKey(clusterOf, a) == ClusterKey(clusterOf, b)
  {
    var (same, linked) := (SameOperator(owner), SameCluster(owner, clusterOf));
    if |same - linked| == 0 {
      assert same - linked == {};
      forall a, b | a in owner && b in owner && owner[a] == owner[b]
        ensures ClusterKey(clusterOf, a) == ClusterKey(clusterOf, b)
      {
        var p := if a < b then (a, b) else (b, a);
        if a != b {
          assert p in same && p !in same - linked;
        }
      }
    }
    if forall a, b :: a in owner && b in owner && owner[a] == owner[b] ==>
        ClusterKey(clusterOf, a) == ClusterKey(clusterOf, b)
    {
      assert same - linked == {};
    }
  }

  /** No cross-operator pair is linked iff no cluster holds accounts of two operators. */
  lemma NoFalseLinksIffPure(owner: map<AccountId, AgentId>, clusterOf: map<AccountId, nat>)
    ensures Enumerated(owner, clusterOf).fp == 0 <==>
      forall a, b :: a in owner && b in owner && ClusterKey(clusterOf, a) == ClusterKey(clusterOf, b) ==>
        owner[a] == owner[b]
  {
    var (same, linked) := (SameOperator(owner), SameCluster(owner, clusterOf));
    if |linked - same| == 0 {
      assert linked - same == {};
      forall a, b | a in owner && b in owner && ClusterKey(clusterOf, a) == ClusterKey(clusterOf, b)
        ensures owner[a] == owner[b]
      {
        var p := if a < b then (a, b) else (b, a);
        if a != b {
          assert p in linked && p !in linked - same;
        }
      }
    }
    if forall a, b :: a in owner && b in owner && ClusterKey(clusterOf, a) == ClusterKey(clusterOf, b) ==>
        owner[a] == owner[b]
    {
      assert linked - same == {};
    }
  }

  // ---- purity of record groups ----

  /** The operator of every labelled source of a group, taken from its first labelled record. */
  function Labels(rs: Ledger, g: seq<nat>): map<AccountId, AgentId> {
    if g == [] then map[]
    else
      var m := Labels(rs, g[..|g| - 1]);
      var r := At(rs, g[|g| - 1]);
      if r.operator.Some? && r.source !in m then m[r.source := r.operator.value] else m
  }

  /** Position `n` of `g` is the first labelled record there that `a` signs. */
  ghost predicate FirstLabelled(rs: Ledger, g: seq<nat>, a: AccountId, n: nat) {
    && n < |g| && At(rs, g[n]).source == a && At(rs, g[n]).operator.Some?
    && forall m :: 0 <= m < n && At(rs, g[m]).source == a ==> At(rs, g[m]).operator == None
  }

  /** A group's sources are labelled by their first labelled records in it. */
  lemma {:induction false} LabelledByFirst(rs: Ledger, g: seq<nat>, a: AccountId)
    ensures a in Labels(rs, g) <==> exists n: nat :: FirstLabelled(rs, g, a, n)
    ensures forall n: nat :: FirstLabelled(rs, g, a, n) ==> At(rs, g[n]).operator == Some(Labels(rs, g)[a])
    decreases |g|
  {
    if g != [] {
      var last := |g| - 1;
      LabelledByFirst(rs, g[..last], a);
      forall n: nat ensures FirstLabelled(rs, g, a, n) <==>
        if n < last then FirstLabelled(rs, g[..last], a, n)
        else n == last && At(rs, g[n]).source == a && At(rs, g[n]).operator.Some? && a !in Labels(rs, g[..last])
      {
        if n == last && At(rs, g[n]).source == a && At(rs, g[n]).operator.Some? {
          EarlierLabel(rs, g, a, last);
        }
      }
      if a in Labels(rs, g[..last]) {
        var n: nat :| FirstLabelled(rs, g[..last], a, n);
        assert FirstLabelled(rs, g, a, n);
      } else if a in Labels(rs, g) {
        assert FirstLabelled(rs, g, a, last);
      }
    }
  }

  /** Some record before `n` is labelled and signed by `a` iff there is a first one. */
  lemma {:induction false} EarlierLabel(rs: Ledger, g: seq<nat>, a: AccountId, n: nat)
    requires n <= |g|
    ensures (exists m: nat :: FirstLabelled(rs, g[..n], a, m)) <==>
      exists m :: 0 <= m < n && At(rs, g[m]).source == a && At(rs, g[m]).operator.Some?
    decreases n
  {
    if n > 0 {
      EarlierLabel(rs, g, a, n - 1);
      if m: nat :| m < n - 1 && At(rs, g[m]).source == a && At(rs, g[m]).operator.Some? {
        var k: nat :| FirstLabelled(rs, g[..n - 1], a, k);
        assert FirstLabelled(rs, g[..n], a, k);
      } else if At(rs, g[n - 1]).source == a && At(rs, g[n - 1]).operator.Some? {
        assert FirstLabelled(rs, g[..n], a, n - 1);
      }
    }
  }

  ghost function TotalPairs(rs: Ledger, groups: seq<seq<nat>>): nat {
    if groups == [] then 0
    else TotalPairs(rs, groups[..|groups| - 1]) + |PairsOf(Labels(rs, groups[|groups| - 1]).Keys)|
  }

  ghost function PurePairs(rs: Ledger, groups: seq<seq<nat>>): nat {
    if groups == [] then 0
    else PurePairs(rs, groups[..|groups| - 1]) + |SameOperator(Labels(rs, groups[|groups| - 1]))|
  }

  /** Distinct labelled sources of one group, and how many of them each operator has. */
  method TallyGroup(rs: Ledger, g: seq<nat>) returns (m: nat, cnt: map<AgentId, nat>)
    requires InLedger(rs, g)
    ensures m == |Labels(rs, g)|
    ensures IsTally(cnt, Labels(rs, g).Keys, ByOperator(Labels(rs, g)))
  {
    var seen: set<AccountId> := {};
    m, cnt := 0, map[];
    NothingTallied(ByOperator(Labels(rs, g[..0])));
    assert Labels(rs, g[..0]) == map[];
    hide IsTally, Bump, ByOperator, Labels;
    for n := 0 to |g|
      invariant seen == Labels(rs, g[..n]).Keys && m == |seen|
      invariant IsTally(cnt, seen, ByOperator(Labels(rs, g[..n])))
    {
      var r := rs[g[n]];
      LabelsNext(rs, g, n);
      if r.operator.Some? && r.source !in seen {
        LabelOneMore(cnt, Labels(rs, g[..n]), r.source, r.operator.value);
        seen := seen + {r.source};
        cnt := Bump(cnt, r.operator.value);
        m := m + 1;
      }
    }
    assert g[..|g|] == g;
  }

  lemma LabelsNext(rs: Ledger, g: seq<nat>, n: nat)
    requires n < |g| && g[n] < |rs|
    ensures var (r, labels) := (rs[g[n]], Labels(rs, g[..n]));
      Labels(rs, g[..n + 1]) ==
        if r.operator.Some? && r.source !in labels then labels[r.source := r.operator.value] else labels
  {
    assert g[..n + 1][..n] == g[..n] && At(rs, g[n]) == rs[g[n]];
  }

  lemma LabelOneMore(cnt: map<AgentId, nat>, labels: map<AccountId, AgentId>, a: AccountId, op: AgentId)
    requires a !in labels && IsTally(cnt, labels.Keys, ByOperator(labels))
    ensures labels[a := op].Keys == labels.Keys + {a}
    ensures IsTally(Bump(cnt, op), labels.Keys + {a}, ByOperator(labels[a := op]))
  {
    var after := labels[a := op];
    forall k: AgentId ensures Class(labels.Keys, ByOperator(labels), k) == Class(labels.Keys, ByOperator(after), k) {}
    BumpTally(cnt, labels.Keys, ByOperator(after), a);
  }

  /** The share of the pairs within groups that have one operator; one when there are no pairs. */
  ghost function PureShare(rs: Ledger, groups: seq<seq<nat>>): real {
    if TotalPairs(rs, groups) == 0 then 1.0 else Ratio(PurePairs(rs, groups), TotalPairs(rs, groups))
  }

  /** The pooled share of same-operator pairs among a group's labelled sources. */
  method Purity(rs: Ledger, groups: seq<seq<nat>>) returns (purity: real)
    requires forall k :: 0 <= k < |groups| ==> InLedger(rs, groups[k])
    ensures purity == PureShare(rs, groups)
    ensures 0.0 <= purity <= 1.0
  {
    var pure, total := 0, 0;
    for k := 0 to |groups|
      invariant pure == PurePairs(rs, groups[..k]) && total == TotalPairs(rs, groups[..k]) && pure <= total
    {
      assert groups[..k + 1][..k] == groups[..k];
      var m, cnt := TallyGroup(rs, groups[k]);
      ghost var labels := Labels(rs, groups[k]);
      C2CountsPairs(labels.Keys);
      total := total + C2(m);
      var same := SumC2(cnt, labels.Keys, ByOperator(labels));
      OperatorsAgree(labels, cnt.Keys);
      SubsetCount(SameOperator(labels), PairsOf(labels.Keys));
      pure := pure + same;
    }
    assert groups[..|groups|] == groups;
    F1Range(pure, total);
    purity := if total > 0 then pure as real / total as real else 1.0;
  }

  lemma SubsetCount(a: set<(nat, nat)>, b: set<(nat, nat)>)
    requires a <= b
    ensures |a| <= |b|
  {
    assert b == a + (b - a);
  }
}
