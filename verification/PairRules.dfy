/** The repetition-thresholded pair rules: counting shared buckets and linking the frequent pairs. */
module PairRules {
  import opened Types
  import opened Graph
  import opened Sorting
  import opened Groups
  import opened Rules
  import opened UnionFinds

  type Weights = map<(AccountId, AccountId), nat>

  function Wt(w: Weights, p: (AccountId, AccountId)): nat {
    if p in w then w[p] else 0
  }

  /** Only pairs that were counted at least once have an entry. */
  ghost predicate Positive(w: Weights) {
    forall p :: p in w ==> w[p] > 0
  }

  predicate InClique(srcs: set<AccountId>, p: (AccountId, AccountId)) {
    p.0 < p.1 && p.0 in srcs && p.1 in srcs
  }

  /** Nothing in an ascending sequence lies strictly between neighbours. */
  lemma NoGap(v: seq<nat>, y: nat, z: nat)
    requires Ascending(v) && y < |v| && z in v && (y + 1 < |v| ==> z < v[y + 1])
    ensures z <= v[y]
  {
  }

  /** The pairs met before position `(x, y)` of the nested pair loop over `v`. */
  ghost predicate Met(srcs: set<AccountId>, v: seq<nat>, x: nat, y: nat, p: (AccountId, AccountId)) {
    InClique(srcs, p) && x <= |v|
      && (x < |v| ==> p.0 < v[x] || (p.0 == v[x] && y <= |v| && (y < |v| ==> p.1 < v[y])))
  }

  ghost predicate CountedTo(weight: Weights, w: Weights, srcs: set<AccountId>, v: seq<nat>, x: nat, y: nat) {
    && Positive(w)
    && forall p {:trigger Wt(w, p)} :: Wt(w, p) == Wt(weight, p) + if Met(srcs, v, x, y, p) then 1 else 0
  }

  lemma CountStep(weight: Weights, w: Weights, srcs: set<AccountId>, v: seq<nat>, x: nat, y: nat)
    requires v == Ordered(srcs) && x < y < |v| && CountedTo(weight, w, srcs, v, x, y)
    ensures CountedTo(weight, w[(v[x], v[y]) := Wt(w, (v[x], v[y])) + 1], srcs, v, x, y + 1)
  {
    OrderedAscends(srcs);
    var p := (v[x], v[y]);
    assert v[x] in v && v[y] in v;
    var w' := w[p := Wt(w, p) + 1];
    forall q: (nat, nat) ensures Wt(w', q) == Wt(weight, q) + if Met(srcs, v, x, y + 1, q) then 1 else 0 {
      assert Wt(w, q) == Wt(weight, q) + if Met(srcs, v, x, y, q) then 1 else 0;
      if InClique(srcs, q) && q.0 == v[x] && (y + 1 < |v| ==> q.1 < v[y + 1]) {
        NoGap(v, y, q.1);
      }
    }
  }

  /** Moving to the next row meets no further pair. */
  lemma RowStep(weight: Weights, w: Weights, srcs: set<AccountId>, v: seq<nat>, x: nat)
    requires v == Ordered(srcs) && x < |v|
    ensures CountedTo(weight, w, srcs, v, x, x) ==> CountedTo(weight, w, srcs, v, x, x + 1)
    ensures CountedTo(weight, w, srcs, v, x, |v|) ==> CountedTo(weight, w, srcs, v, x + 1, x + 1)
  {
    OrderedAscends(srcs);
    forall q: (nat, nat) ensures Met(srcs, v, x, x, q) == Met(srcs, v, x, x + 1, q) {
      if InClique(srcs, q) && q.0 == v[x] && (x + 1 < |v| ==> q.1 < v[x + 1]) {
        NoGap(v, x, q.1);
      }
    }
    forall q: (nat, nat) ensures Met(srcs, v, x, |v|, q) == Met(srcs, v, x + 1, x + 1, q) {
      if InClique(srcs, q) {
        assert q.0 in v && q.1 in v;
        if x + 1 < |v| && q.0 < v[x + 1] {
          NoGap(v, x, q.0);
        }
        if x + 1 == |v| {
          NoGap(v, x, q.0);
        }
      }
    }
  }

  lemma NoneMet(weight: Weights, srcs: set<AccountId>, v: seq<AccountId>)
    requires Positive(weight) && v == Ordered(srcs)
    ensures CountedTo(weight, weight, srcs, v, 0, 0)
  {
    OrderedAscends(srcs);
    forall p: (nat, nat) ensures !Met(srcs, v, 0, 0, p) {
      if InClique(srcs, p) {
        assert p.0 in v;
      }
    }
  }

  lemma AllMet(weight: Weights, w: Weights, srcs: set<AccountId>, v: seq<AccountId>)
    requires CountedTo(weight, w, srcs, v, |v|, |v|)
    ensures Positive(w)
    ensures forall p: (nat, nat) :: Wt(w, p) == Wt(weight, p) + if InClique(srcs, p) then 1 else 0
  {
    forall p: (nat, nat) ensures Wt(w, p) == Wt(weight, p) + if InClique(srcs, p) then 1 else 0 {
      assert Met(srcs, v, |v|, |v|, p) == InClique(srcs, p);
    }
  }

  /** Adds one to the weight of every unordered pair within a set of distinct sources. */
  method AddClique(weight: Weights, srcs: set<AccountId>) returns (w: Weights)
    requires Positive(weight)
    ensures Positive(w)
    ensures forall p: (nat, nat) :: Wt(w, p) == Wt(weight, p) + if InClique(srcs, p) then 1 else 0
  {
    hide CountedTo, Positive, InClique, Ordered;
    w := weight;
    var v := Ordered(srcs);
    NoneMet(weight, srcs, v);
    for x := 0 to |v|
      invariant CountedTo(weight, w, srcs, v, x, x)
    {
      RowStep(weight, w, srcs, v, x);
      for y := x + 1 to |v|
        invariant CountedTo(weight, w, srcs, v, x, y)
      {
        CountStep(weight, w, srcs, v, x, y);
        w := w[(v[x], v[y]) := Wt(w, (v[x], v[y])) + 1];
      }
      RowStep(weight, w, srcs, v, x);
    }
    AllMet(weight, w, srcs, v);
  }

  /** `w` counts, for every ordered pair, the admissible buckets among `keys` that hold both. */
  ghost predicate Counts(w: Weights, keys: set<(nat, nat)>, bucket: Buckets, lo: nat, hi: nat) {
    && Positive(w)
    && forall x: nat, y: nat {:trigger Wt(w, (x, y))} ::
         Wt(w, (x, y)) == if x < y then |Shared(keys, bucket, lo, hi, x, y)| else 0
  }

  lemma CountNone(bucket: Buckets, lo: nat, hi: nat)
    ensures Counts(map[], {}, bucket, lo, hi)
  {
  }

  /** Counting one more bucket: its pairs if its size is admissible, nothing otherwise. */
  lemma CountOneMore(w: Weights, w': Weights, keys: set<(nat, nat)>, bucket: Buckets, lo: nat, hi: nat, k: (nat, nat))
    requires Counts(w, keys, bucket, lo, hi) && k !in keys && Positive(w')
    requires if lo <= |bucket(k.0, k.1)| <= hi
             then forall p :: Wt(w', p) == Wt(w, p) + if InClique(bucket(k.0, k.1), p) then 1 else 0
             else w' == w
    ensures Counts(w', keys + {k}, bucket, lo, hi)
  {
    forall x: nat, y: nat
      ensures Wt(w', (x, y)) == if x < y then |Shared(keys + {k}, bucket, lo, hi, x, y)| else 0
    {
      var before, after := Shared(keys, bucket, lo, hi, x, y), Shared(keys + {k}, bucket, lo, hi, x, y);
      var b := bucket(k.0, k.1);
      if lo <= |b| <= hi && x in b && y in b {
        assert after == before + {k} && k !in before;
      } else {
        assert after == before;
      }
      assert Wt(w, (x, y)) == if x < y then |before| else 0;
    }
  }

  /** Buckets that are empty hold no pair, so leaving their keys out changes no count. */
  lemma CountMissingEmpty(w: Weights, keys: set<(nat, nat)>, all: set<(nat, nat)>, bucket: Buckets, lo: nat, hi: nat)
    requires Counts(w, keys, bucket, lo, hi) && keys <= all
    requires forall k :: k in all && k !in keys ==> bucket(k.0, k.1) == {}
    ensures Counts(w, all, bucket, lo, hi)
  {
    forall x: nat, y: nat
      ensures Wt(w, (x, y)) == if x < y then |Shared(all, bucket, lo, hi, x, y)| else 0
    {
      assert Shared(all, bucket, lo, hi, x, y) == Shared(keys, bucket, lo, hi, x, y);
      assert Wt(w, (x, y)) == if x < y then |Shared(keys, bucket, lo, hi, x, y)| else 0;
    }
  }

  /** The weight entries that reach the threshold are exactly the declared pair edges. */
  lemma FrequentPairs(rs: Ledger, w: Weights, keys: set<(nat, nat)>, bucket: Buckets, lo: nat, hi: nat, threshold: nat)
    requires Counts(w, keys, bucket, lo, hi)
    requires forall k :: k in keys ==> bucket(k.0, k.1) <= Sources(rs)
    ensures (set p | p in w && w[p] >= threshold) == RepeatEdges(rs, keys, bucket, lo, hi, threshold)
    ensures forall p :: p in w ==> p.0 in Sources(rs) && p.1 in Sources(rs)
  {
    var E := RepeatEdges(rs, keys, bucket, lo, hi, threshold);
    forall x: nat, y: nat
      ensures (x, y) in w && w[(x, y)] >= threshold <==> (x, y) in E
      ensures (x, y) in w ==> x in Sources(rs) && y in Sources(rs)
    {
      var sh := Shared(keys, bucket, lo, hi, x, y);
      assert Wt(w, (x, y)) == if x < y then |sh| else 0;
      if (x, y) in w {
        assert |sh| > 0 && sh != {};
        var k :| k in sh;
      }
    }
    forall p: (nat, nat)
      ensures p in w && w[p] >= threshold <==> p in E
      ensures p in w ==> p.0 in Sources(rs) && p.1 in Sources(rs)
    {
      assert p == (p.0, p.1);
    }
  }

  /** Unions every pair whose weight reaches the threshold, in any map order. */
  method LinkFrequent(uf: UnionFind, w: Weights, threshold: nat)
    requires uf.Valid() && forall p :: p in w ==> p.0 in uf.parent && p.1 in uf.parent
    modifies uf
    ensures uf.Valid() && uf.parent.Keys == old(uf.parent.Keys)
    ensures uf.edges == old(uf.edges) + set p | p in w && w[p] >= threshold
  {
    hide UnionFind.Valid;
    var todo := w.Keys;
    ghost var linked: Edges := {};
    while todo != {}
      invariant todo <= w.Keys
      invariant uf.Valid() && uf.parent.Keys == old(uf.parent.Keys)
      invariant linked == set p | p in w && p !in todo && w[p] >= threshold
      invariant uf.edges == old(uf.edges) + linked
    {
      var p :| p in todo;
      if w[p] >= threshold {
        uf.Union(p.0, p.1);
        assert (p.0, p.1) == p;
        linked := linked + {p};
      }
      todo := todo - {p};
    }
  }

  /** The distinct paying sources of one group, per destination. */
  method GroupByDest(rs: Ledger, cfg: AdversaryConfig, group: seq<nat>) returns (byDest: map<AccountId, set<AccountId>>)
    requires InLedger(rs, group)
    ensures forall d :: d in byDest ==> d in Dests(rs) && byDest[d] == PaySources(rs, cfg, group, d)
    ensures forall d :: d !in byDest ==> PaySources(rs, cfg, group, d) == {}
  {
    byDest := map[];
    for n := 0 to |group|
      invariant forall d :: d in byDest ==> d in Dests(rs) && byDest[d] == PaySources(rs, cfg, group[..n], d)
      invariant forall d :: d !in byDest ==> PaySources(rs, cfg, group[..n], d) == {}
    {
      var r := rs[group[n]];
      assert group[..n + 1] == group[..n] + [group[n]];
      assert At(rs, group[n]) == r && r in rs;
      forall d ensures PaySources(rs, cfg, group[..n + 1], d) ==
        PaySources(rs, cfg, group[..n], d) + (if r.amount >= cfg.copayMinAmount && r.dest == d then {r.source} else {})
      {}
      if r.amount >= cfg.copayMinAmount {
        byDest := byDest[r.dest := (if r.dest in byDest then byDest[r.dest] else {}) + {r.source}];
      }
    }
    assert group[..|group|] == group;
  }

  /** H-COPAY weights: qualifying (group, destination) buckets, once per source pair. */
  method CopayWeights(groups: seq<seq<nat>>, rs: Ledger, cfg: AdversaryConfig) returns (weight: Weights)
    requires forall k :: 0 <= k < |groups| ==> InLedger(rs, groups[k])
    ensures Counts(weight, GroupKeys(groups, Dests(rs)), PayBucket(rs, cfg, groups), cfg.copayMinSources, cfg.burstMaxSources)
  {
    weight := map[];
    ghost var bucket := PayBucket(rs, cfg, groups);
    ghost var done: set<(nat, nat)> := {};
    CountNone(bucket, cfg.copayMinSources, cfg.burstMaxSources);
    for k := 0 to |groups|
      invariant Counts(weight, done, bucket, cfg.copayMinSources, cfg.burstMaxSources)
      invariant forall q :: q in done ==> q.0 < k && q in GroupKeys(groups, Dests(rs))
      invariant forall q :: q in GroupKeys(groups, Dests(rs)) && q.0 < k && q !in done ==> bucket(q.0, q.1) == {}
    {
      var byDest := GroupByDest(rs, cfg, groups[k]);
      var todo := byDest.Keys;
      while todo != {}
        invariant todo <= byDest.Keys
        invariant Counts(weight, done, bucket, cfg.copayMinSources, cfg.burstMaxSources)
        invariant forall q :: q in done ==> (q.0 < k || (q.0 == k && q.1 !in todo)) && q in GroupKeys(groups, Dests(rs))
        invariant forall q :: q in GroupKeys(groups, Dests(rs)) && q.0 < k && q !in done ==> bucket(q.0, q.1) == {}
        invariant forall d :: d in byDest && d !in todo ==> (k, d) in done
      {
        var d :| d in todo;
        var srcs := byDest[d];
        ghost var w0 := weight;
        if cfg.copayMinSources <= |srcs| <= cfg.burstMaxSources {
          weight := AddClique(weight, srcs);
        }
        assert bucket(k, d) == srcs;
        CountOneMore(w0, weight, done, bucket, cfg.copayMinSources, cfg.burstMaxSources, (k, d));
        done := done + {(k, d)};
        todo := todo - {d};
      }
    }
    CountMissingEmpty(weight, done, GroupKeys(groups, Dests(rs)), bucket, cfg.copayMinSources, cfg.burstMaxSources);
  }

  /** The sponsored sources of one group. */
  method CollectSponsored(rs: Ledger, group: seq<nat>) returns (srcs: set<AccountId>)
    requires InLedger(rs, group)
    ensures srcs == SponsoredSources(rs, group)
  {
    srcs := {};
    for n := 0 to |group|
      invariant srcs == SponsoredSources(rs, group[..n])
    {
      var r := rs[group[n]];
      assert group[..n + 1] == group[..n] + [group[n]];
      assert At(rs, group[n]) == r;
      forall i ensures i in group[..n + 1] <==> i in group[..n] || i == group[n] {}
      if r.feePayer != r.source {
        srcs := srcs + {r.source};
      }
    }
    assert group[..|group|] == group;
  }

  /** H-COACT weights: groups of sponsored sources, once per source pair. */
  method CoactWeights(groups: seq<seq<nat>>, rs: Ledger, cfg: AdversaryConfig) returns (weight: Weights)
    requires forall k :: 0 <= k < |groups| ==> InLedger(rs, groups[k])
    ensures Counts(weight, GroupKeys(groups, {0}), SponsoredBucket(rs, groups), 2, cfg.burstMaxSources)
  {
    weight := map[];
    ghost var bucket := SponsoredBucket(rs, groups);
    CountNone(bucket, 2, cfg.burstMaxSources);
    assert GroupKeys(groups[..0], {0}) == {};
    for k := 0 to |groups|
      invariant Counts(weight, GroupKeys(groups[..k], {0}), bucket, 2, cfg.burstMaxSources)
    {
      var srcs := CollectSponsored(rs, groups[k]);
      ghost var w0 := weight;
      if 2 <= |srcs| <= cfg.burstMaxSources {
        weight := AddClique(weight, srcs);
      }
      assert bucket(k, 0) == srcs;
      CountOneMore(w0, weight, GroupKeys(groups[..k], {0}), bucket, 2, cfg.burstMaxSources, (k, 0));
      assert GroupKeys(groups[..k + 1], {0}) == GroupKeys(groups[..k], {0}) + {(k, 0)};
    }
    assert groups[..|groups|] == groups;
  }

  /** All sources of one group. */
  method CollectSources(rs: Ledger, group: seq<nat>) returns (srcs: set<AccountId>)
    requires InLedger(rs, group)
    ensures srcs == GroupSources(rs, group) && srcs <= Sources(rs)
  {
    srcs := {};
    for n := 0 to |group|
      invariant srcs == GroupSources(rs, group[..n]) && srcs <= Sources(rs)
    {
      assert group[..n + 1] == group[..n] + [group[n]];
      assert At(rs, group[n]) == rs[group[n]] && rs[group[n]] in rs;
      forall i ensures i in group[..n + 1] <==> i in group[..n] || i == group[n] {}
      srcs := srcs + {rs[group[n]].source};
    }
    assert group[..|group|] == group;
  }
}
