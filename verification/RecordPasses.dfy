/** The passes over single records: fee-payers, hubs, peel chains and activations, each linking what its rule declares. */
module RecordPasses {
  import opened Types
  import opened Graph
  import opened Sorting
  import opened Rules
  import opened UnionFinds

  lemma RecordAccounts(rs: Ledger, r: TxRecord)
    requires r in rs
    ensures r.source in Accounts(rs) && r.dest in Accounts(rs) && r.feePayer in Accounts(rs)
    ensures r.source in Sources(rs) && r.dest in Dests(rs) && r.feePayer in FeePayers(rs)
  {
  }

  /** (1) Fee-payer and source of one transaction, and all sources that share a fee-payer. */
  method LinkFeePayers(uf: UnionFind, rs: Ledger)
    requires uf.Valid() && Accounts(rs) <= uf.parent.Keys
    modifies uf
    ensures uf.Valid() && uf.parent.Keys == old(uf.parent.Keys)
    ensures SameReach(uf.edges, old(uf.edges) + FeeEdges(rs))
  {
    hide UnionFind.Valid;
    var repByFee: map<AccountId, AccountId> := map[];
    ghost var shared: Edges := {};
    for n := 0 to |rs|
      invariant uf.Valid() && uf.parent.Keys == old(uf.parent.Keys)
      invariant uf.edges == old(uf.edges) + FeeEdges(rs[..n]) + shared
      invariant forall f :: f in repByFee ==> (f, repByFee[f]) in FeeEdges(rs) && repByFee[f] in uf.parent
      invariant Covers(FeeEdges(rs), shared)
    {
      var r := rs[n];
      FeeStep(rs, n);
      uf.Union(r.feePayer, r.source);
      if r.feePayer in repByFee {
        var rep := repByFee[r.feePayer];
        uf.Union(rep, r.source);
        SharedFee(rs, r, rep, shared);
        shared := shared + {(rep, r.source)};
      } else {
        repByFee := repByFee[r.feePayer := r.source];
      }
    }
    assert rs[..|rs|] == rs;
    ImpliedEdges(old(uf.edges), FeeEdges(rs), shared);
  }

  lemma FeeStep(rs: Ledger, n: nat)
    requires n < |rs|
    ensures FeeEdges(rs[..n + 1]) == FeeEdges(rs[..n]) + {(rs[n].feePayer, rs[n].source)}
    ensures (rs[n].feePayer, rs[n].source) in FeeEdges(rs)
    ensures rs[n].feePayer in Accounts(rs) && rs[n].source in Accounts(rs)
  {
  }

  lemma SharedFee(rs: Ledger, r: TxRecord, rep: AccountId, shared: Edges)
    requires (r.feePayer, r.source) in FeeEdges(rs) && (r.feePayer, rep) in FeeEdges(rs)
    requires Covers(FeeEdges(rs), shared)
    ensures Covers(FeeEdges(rs), shared + {(rep, r.source)})
  {
    Edge(FeeEdges(rs), rep, r.feePayer);
    Edge(FeeEdges(rs), r.feePayer, r.source);
    Trans(FeeEdges(rs), rep, r.feePayer, r.source);
  }

  /** Edges between nodes that are already connected change no component. */
  lemma ImpliedEdges(E: Edges, F: Edges, implied: Edges)
    requires Covers(F, implied)
    ensures SameReach(E + F + implied, E + F)
  {
    SubsetCovers(E + F + implied, E + F);
    SubsetCovers(E + F, F);
    CoversReach(E + F, F);
    SubsetCovers(E + F, E + F);
    MutualCover(E + F + implied, E + F);
  }

  /** The senders of value per receiving destination that also signs. */
  method SourcesByDest(rs: Ledger) returns (byDest: map<AccountId, set<AccountId>>)
    ensures forall d :: d in byDest ==> d in Sources(rs) && byDest[d] == HubSources(rs, d)
    ensures forall d :: d in Sources(rs) && d !in byDest ==> HubSources(rs, d) == {}
  {
    var active := Sources(rs);
    byDest := map[];
    for n := 0 to |rs|
      invariant forall d :: d in byDest ==> d in active && byDest[d] == HubSources(rs[..n], d)
      invariant forall d :: d in active && d !in byDest ==> HubSources(rs[..n], d) == {}
    {
      var r := rs[n];
      assert rs[..n + 1] == rs[..n] + [r];
      forall d ensures HubSources(rs[..n + 1], d) ==
        HubSources(rs[..n], d) + (if MovesValue(r) && r.dest == d then {r.source} else {})
      {}
      if r.amount > 0 && r.source != r.dest && r.dest in active {
        byDest := byDest[r.dest := (if r.dest in byDest then byDest[r.dest] else {}) + {r.source}];
      }
    }
    assert rs[..|rs|] == rs;
  }

  /** Unions `hub` with every element of `srcs`, in any order. */
  method LinkStar(uf: UnionFind, hub: AccountId, srcs: set<AccountId>)
    requires uf.Valid() && hub in uf.parent && srcs <= uf.parent.Keys
    modifies uf
    ensures uf.Valid() && uf.parent.Keys == old(uf.parent.Keys)
    ensures uf.edges == old(uf.edges) + set s | s in srcs :: (hub, s)
  {
    hide UnionFind.Valid;
    var todo := srcs;
    while todo != {}
      invariant todo <= srcs
      invariant uf.Valid() && uf.parent.Keys == old(uf.parent.Keys)
      invariant uf.edges == old(uf.edges) + set s | s in srcs && s !in todo :: (hub, s)
    {
      var s :| s in todo;
      uf.Union(hub, s);
      todo := todo - {s};
    }
  }

  /** (2) Links a signing destination with the small set of sources that feed it. */
  method LinkHubs(uf: UnionFind, rs: Ledger, cfg: AdversaryConfig)
    requires uf.Valid() && Accounts(rs) <= uf.parent.Keys
    modifies uf
    ensures uf.Valid() && uf.parent.Keys == old(uf.parent.Keys)
    ensures uf.edges == old(uf.edges) + HubEdges(rs, cfg)
  {
    hide UnionFind.Valid;
    var byDest := SourcesByDest(rs);
    var todo := byDest.Keys;
    ghost var done: set<AccountId> := {};
    while todo != {}
      invariant todo <= byDest.Keys && forall d :: d in byDest && d !in todo ==> d in done
      invariant uf.Valid() && uf.parent.Keys == old(uf.parent.Keys)
      invariant uf.edges == old(uf.edges) + HubEdgesOf(rs, cfg, done)
      decreases todo
    {
      var d :| d in todo;
      if 2 <= |byDest[d]| <= cfg.burstMaxSources {
        LinkStar(uf, d, byDest[d]);
      }
      HubStep(rs, cfg, d, done);
      todo := todo - {d};
      done := done + {d};
    }
    AllHubs(rs, cfg, done);
  }

  ghost function HubEdgesOf(rs: Ledger, cfg: AdversaryConfig, hubs: set<AccountId>): Edges {
    set e | e in HubEdges(rs, cfg) && e.0 in hubs
  }

  lemma HubStep(rs: Ledger, cfg: AdversaryConfig, d: AccountId, done: set<AccountId>)
    requires d in Sources(rs)
    ensures HubEdgesOf(rs, cfg, done + {d}) == HubEdgesOf(rs, cfg, done)
      + if IsHub(rs, cfg, d) then set s | s in HubSources(rs, d) :: (d, s) else {}
  {
  }

  lemma AllHubs(rs: Ledger, cfg: AdversaryConfig, done: set<AccountId>)
    requires forall d :: d in Sources(rs) && d !in done ==> HubSources(rs, d) == {}
    ensures HubEdgesOf(rs, cfg, done) == HubEdges(rs, cfg)
  {
  }

  // ---- (3) peel chains by range search ----

  datatype Hop = Hop(ts: int, amount: nat, sig: nat, dest: AccountId)

  function HopOf(r: TxRecord): Hop {
    Hop(r.ts, r.amount, r.sig, r.dest)
  }

  function HopLeq(): (Hop, Hop) -> bool {
    (a: Hop, b: Hop) => a.ts < b.ts || (a.ts == b.ts && a.sig <= b.sig)
  }

  ghost function HopsFrom(rs: Ledger, s: AccountId): set<Hop> {
    set r | r in rs && MovesValue(r) && r.source == s :: HopOf(r)
  }

  /** Every bucket holds its source's value-moving hops, sorted by `(ts, sig)`. */
  ghost predicate Indexed(rs: Ledger, bySource: map<AccountId, seq<Hop>>) {
    && (forall s :: s in bySource ==> Sorted(bySource[s], HopLeq()))
    && (forall s, h :: s in bySource ==> (h in bySource[s] <==> h in HopsFrom(rs, s)))
    && (forall s :: s !in bySource ==> HopsFrom(rs, s) == {})
  }

  method IndexBySource(rs: Ledger) returns (bySource: map<AccountId, seq<Hop>>)
    ensures Indexed(rs, bySource)
  {
    bySource := map[];
    for n := 0 to |rs|
      invariant forall s, h :: s in bySource ==> (h in bySource[s] <==> h in HopsFrom(rs[..n], s))
      invariant forall s :: s !in bySource ==> HopsFrom(rs[..n], s) == {}
    {
      var b := rs[n];
      assert rs[..n + 1] == rs[..n] + [b];
      forall s ensures HopsFrom(rs[..n + 1], s) ==
        HopsFrom(rs[..n], s) + (if MovesValue(b) && b.source == s then {HopOf(b)} else {})
      {}
      if b.amount > 0 && b.source != b.dest {
        var bucket := if b.source in bySource then bySource[b.source] else [];
        bySource := bySource[b.source := bucket + [HopOf(b)]];
      }
    }
    assert rs[..|rs|] == rs;
    assert TotalPreorder(HopLeq());
    forall s | s in bySource
      ensures Sorted(SortBy(bySource[s], HopLeq()), HopLeq())
      ensures forall h :: h in SortBy(bySource[s], HopLeq()) <==> h in bySource[s]
    {
      SortBySorts(bySource[s], HopLeq());
    }
    bySource := map s | s in bySource :: SortBy(bySource[s], HopLeq());
  }

  /** Binary search in ascending keys for the first one later than `bound` (or not before it, when `strict`). */
  method PartitionPoint(keys: seq<int>, bound: int, strict: bool) returns (lo: nat)
    requires forall i, j :: 0 <= i < j < |keys| ==> keys[i] <= keys[j]
    ensures lo <= |keys|
    ensures forall i :: 0 <= i < |keys| ==> (i < lo <==> if strict then keys[i] < bound else keys[i] <= bound)
  {
    lo := 0;
    var hi := |keys|;
    while lo < hi
      invariant lo <= hi <= |keys|
      invariant forall i :: 0 <= i < lo ==> if strict then keys[i] < bound else keys[i] <= bound
      invariant forall i :: hi <= i < |keys| ==> !(if strict then keys[i] < bound else keys[i] <= bound)
    {
      var mid := (lo + hi) / 2;
      if if strict then keys[mid] < bound else keys[mid] <= bound {
        lo := mid + 1;
      } else {
        hi := mid;
      }
    }
  }

  function HopTimes(bucket: seq<Hop>): (keys: seq<int>)
    ensures |keys| == |bucket| && forall i :: 0 <= i < |keys| ==> keys[i] == bucket[i].ts
  {
    seq(|bucket|, i requires 0 <= i < |bucket| => bucket[i].ts)
  }

  lemma HopTimesAscend(bucket: seq<Hop>)
    requires Sorted(bucket, HopLeq())
    ensures forall i, j :: 0 <= i < j < |bucket| ==> HopTimes(bucket)[i] <= HopTimes(bucket)[j]
  {
    forall i, j | 0 <= i < j < |bucket| ensures HopTimes(bucket)[i] <= HopTimes(bucket)[j] {
      assert HopLeq()(bucket[i], bucket[j]);
    }
  }

  ghost function PeelEdgesFrom(firsts: seq<TxRecord>, rs: Ledger, cfg: AdversaryConfig): Edges {
    set a, b | a in firsts && b in rs && Peels(a, b, cfg) :: (a.source, b.dest)
  }

  /** `h` continues the chain that `a` starts, ignoring time. */
  predicate Continues(a: TxRecord, h: Hop, cfg: AdversaryConfig) {
    a.sig != h.sig && NearlySame(a.amount, h.amount, cfg)
  }

  /** (3) Indexes value-moving transactions by source and range-searches by time. */
  method LinkPeelChains(uf: UnionFind, rs: Ledger, cfg: AdversaryConfig)
    requires uf.Valid() && Accounts(rs) <= uf.parent.Keys
    requires Searchable(rs, cfg)
    modifies uf
    ensures uf.Valid() && uf.parent.Keys == old(uf.parent.Keys)
    ensures uf.edges == old(uf.edges) + PeelEdges(rs, cfg)
  {
    hide UnionFind.Valid;
    var bySource := IndexBySource(rs);
    for n := 0 to |rs|
      invariant uf.Valid() && uf.parent.Keys == old(uf.parent.Keys)
      invariant uf.edges == old(uf.edges) + PeelEdgesFrom(rs[..n], rs, cfg)
    {
      var a := rs[n];
      RecordAccounts(rs, a);
      assert rs[..n + 1] == rs[..n] + [a];
      assert PeelEdgesFrom(rs[..n + 1], rs, cfg) == PeelEdgesFrom(rs[..n], rs, cfg) + PeelEdgesFrom([a], rs, cfg);
      if a.amount > 0 && a.source != a.dest && a.dest in bySource {
        LinkHops(uf, rs, cfg, a, bySource[a.dest]);
      } else {
        if MovesValue(a) {
          NoHops(rs, cfg, a);
        }
        assert PeelEdgesFrom([a], rs, cfg) == {};
      }
    }
    assert rs[..|rs|] == rs;
  }

  lemma NoHops(rs: Ledger, cfg: AdversaryConfig, a: TxRecord)
    requires HopsFrom(rs, a.dest) == {}
    ensures PeelEdgesFrom([a], rs, cfg) == {}
  {
    forall b | b in rs && MovesValue(b) ensures b.source != a.dest {
      assert b.source == a.dest ==> HopOf(b) in HopsFrom(rs, a.dest);
    }
  }

  method LinkHops(uf: UnionFind, rs: Ledger, cfg: AdversaryConfig, a: TxRecord, bucket: seq<Hop>)
    requires uf.Valid() && Accounts(rs) <= uf.parent.Keys && a in rs && MovesValue(a)
    requires Searchable(rs, cfg)
    requires Sorted(bucket, HopLeq()) && forall h :: h in bucket <==> h in HopsFrom(rs, a.dest)
    modifies uf
    ensures uf.Valid() && uf.parent.Keys == old(uf.parent.Keys)
    ensures uf.edges == old(uf.edges) + PeelEdgesFrom([a], rs, cfg)
  {
    hide UnionFind.Valid, NearlySame, Tolerance;
    RecordAccounts(rs, a);
    HopTimesAscend(bucket);
    var lo := PartitionPoint(HopTimes(bucket), a.ts, true);
    var hi := PartitionPoint(HopTimes(bucket), a.ts + cfg.temporalWindowSecs, false);
    SliceOrderedIff(rs, cfg, a, bucket, lo, hi);
    for i := lo to hi
      invariant uf.Valid() && uf.parent.Keys == old(uf.parent.Keys)
      invariant uf.edges == old(uf.edges) + Found(a, bucket, cfg, lo, i)
    {
      var h := bucket[i];
      assert h in bucket;
      HopAccount(rs, a.dest, h);
      NearlySameIff(a.amount, h.amount, cfg);
      if a.sig != h.sig && AbsDiff(a.amount, h.amount) <= Tolerance(a.amount, cfg) {
        uf.Union(a.source, h.dest);
      }
    }
    RangeIsAllPairs(rs, cfg, a, bucket, lo, hi);
  }

  /** The range that the original slices is in order iff nothing inverts it. */
  lemma SliceOrderedIff(rs: Ledger, cfg: AdversaryConfig, a: TxRecord, bucket: seq<Hop>, lo: nat, hi: nat)
    requires a in rs && MovesValue(a) && lo <= |bucket| && hi <= |bucket|
    requires forall h :: h in bucket <==> h in HopsFrom(rs, a.dest)
    requires forall i :: 0 <= i < |bucket| ==> (i < lo <==> bucket[i].ts < a.ts)
    requires forall i :: 0 <= i < |bucket| ==> (i < hi <==> bucket[i].ts <= a.ts + cfg.temporalWindowSecs)
    ensures lo <= hi <==> forall b :: b in rs ==> !Inverts(a, b, cfg)
  {
    if hi < lo {
      assert bucket[hi] in bucket;
      var b :| b in rs && MovesValue(b) && b.source == a.dest && HopOf(b) == bucket[hi];
      assert Inverts(a, b, cfg);
    } else {
      forall b | b in rs && MovesValue(b) && b.source == a.dest && b.ts < a.ts
        ensures b.ts <= a.ts + cfg.temporalWindowSecs
      {
        assert HopOf(b) in HopsFrom(rs, a.dest);
        var k :| 0 <= k < |bucket| && bucket[k] == HopOf(b);
        assert k < lo;
      }
    }
  }

  ghost function Found(a: TxRecord, bucket: seq<Hop>, cfg: AdversaryConfig, lo: nat, hi: nat): Edges
    requires lo <= hi <= |bucket|
  {
    set k | lo <= k < hi && Continues(a, bucket[k], cfg) :: (a.source, bucket[k].dest)
  }

  lemma HopAccount(rs: Ledger, s: AccountId, h: Hop)
    requires h in HopsFrom(rs, s)
    ensures h.dest in Accounts(rs)
  {
  }

  /** The searched range continues `a` exactly as a scan over all records would. */
  lemma RangeIsAllPairs(rs: Ledger, cfg: AdversaryConfig, a: TxRecord, bucket: seq<Hop>, lo: nat, hi: nat)
    requires a in rs && MovesValue(a) && lo <= hi <= |bucket|
    requires forall h :: h in bucket <==> h in HopsFrom(rs, a.dest)
    requires forall i :: 0 <= i < |bucket| ==> (i < lo <==> bucket[i].ts < a.ts)
    requires forall i :: 0 <= i < |bucket| ==> (i < hi <==> bucket[i].ts <= a.ts + cfg.temporalWindowSecs)
    ensures Found(a, bucket, cfg, lo, hi) == PeelEdgesFrom([a], rs, cfg)
  {
    hide NearlySame;
    var found := Found(a, bucket, cfg, lo, hi);
    forall e | e in found ensures e in PeelEdgesFrom([a], rs, cfg) {
      var k :| lo <= k < hi && Continues(a, bucket[k], cfg) && e == (a.source, bucket[k].dest);
      assert bucket[k] in bucket;
      var b :| b in rs && MovesValue(b) && b.source == a.dest && HopOf(b) == bucket[k];
      assert a in [a] && Peels(a, b, cfg);
    }
    forall e | e in PeelEdgesFrom([a], rs, cfg) ensures e in found {
      var b :| b in rs && Peels(a, b, cfg) && e == (a.source, b.dest);
      assert HopOf(b) in HopsFrom(rs, a.dest);
      var k :| 0 <= k < |bucket| && bucket[k] == HopOf(b);
      assert lo <= k < hi && Continues(a, bucket[k], cfg);
    }
  }

  // ---- (4) activation lineage ----

  /** `first` gives every source the time it first signs at. */
  ghost predicate FirstSignings(rs: Ledger, first: map<AccountId, int>) {
    && first.Keys == Sources(rs)
    && (forall s :: s in first ==> exists b :: FirstSigning(rs, b) && b.source == s && b.ts == first[s])
    && (forall s, c :: s in first && c in rs && c.source == s ==> first[s] <= c.ts)
  }

  /** The earliest time each source signs. */
  method FirstSourceAt(rs: Ledger) returns (first: map<AccountId, int>)
    ensures FirstSignings(rs, first)
  {
    first := map[];
    for n := 0 to |rs|
      invariant first.Keys == Sources(rs[..n])
      invariant forall s :: s in first ==> exists b :: b in rs[..n] && b.source == s && b.ts == first[s]
      invariant forall s, c :: s in first && c in rs[..n] && c.source == s ==> first[s] <= c.ts
    {
      var r := rs[n];
      assert rs[..n + 1] == rs[..n] + [r];
      ghost var before := first;
      first := first[r.source := if r.source in first then Min(first[r.source], r.ts) else r.ts];
      forall s | s in first ensures exists b :: b in rs[..n + 1] && b.source == s && b.ts == first[s] {
        if s != r.source || (s in before && before[s] <= r.ts) {
          var b :| b in rs[..n] && b.source == s && b.ts == before[s];
          assert b in rs[..n + 1];
        } else {
          assert r in rs[..n + 1];
        }
      }
    }
    assert rs[..|rs|] == rs;
    forall s | s in first ensures exists b :: FirstSigning(rs, b) && b.source == s && b.ts == first[s] {
      var b :| b in rs && b.source == s && b.ts == first[s];
      assert FirstSigning(rs, b);
    }
  }

  /** (4) Links a paying account with a payee that starts signing within the window. */
  method LinkActivations(uf: UnionFind, rs: Ledger, cfg: AdversaryConfig)
    requires uf.Valid() && Accounts(rs) <= uf.parent.Keys
    modifies uf
    ensures uf.Valid() && uf.parent.Keys == old(uf.parent.Keys)
    ensures uf.edges == old(uf.edges) + ActivationEdges(rs, cfg)
  {
    hide UnionFind.Valid, FirstSignings, Activates;
    var first := FirstSourceAt(rs);
    var window := Max(cfg.activationWindowSecs, 0);
    for n := 0 to |rs|
      invariant uf.Valid() && uf.parent.Keys == old(uf.parent.Keys)
      invariant uf.edges == old(uf.edges) + ActivationsIn(rs[..n], rs, cfg)
    {
      var r := rs[n];
      ActivationStep(rs, cfg, n);
      var linked := r.dest in first && r.amount > 0 && r.source != r.dest && first[r.dest] >= r.ts
        && SatSub(first[r.dest], r.ts) <= window;
      ActivatesIffFirst(rs, cfg, r, first);
      if linked {
        uf.Union(r.source, r.dest);
      }
    }
    assert rs[..|rs|] == rs;
  }

  ghost function ActivationsIn(part: seq<TxRecord>, rs: Ledger, cfg: AdversaryConfig): Edges {
    set r | r in part && Activates(rs, cfg, r) :: (r.source, r.dest)
  }

  lemma ActivationStep(rs: Ledger, cfg: AdversaryConfig, n: nat)
    requires n < |rs|
    ensures ActivationsIn(rs[..n + 1], rs, cfg) == ActivationsIn(rs[..n], rs, cfg)
      + if Activates(rs, cfg, rs[n]) then {(rs[n].source, rs[n].dest)} else {}
    ensures rs[n].source in Accounts(rs) && rs[n].dest in Accounts(rs)
  {
  }

  lemma ActivatesIffFirst(rs: Ledger, cfg: AdversaryConfig, r: TxRecord, first: map<AccountId, int>)
    requires FirstSignings(rs, first)
    ensures Activates(rs, cfg, r) <==>
      r.dest in first && MovesValue(r) && first[r.dest] >= r.ts
      && SatSub(first[r.dest], r.ts) <= Max(cfg.activationWindowSecs, 0)
  {
  }
}
