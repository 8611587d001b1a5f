/** The passes over bursts, windows and episodes, and the funder graph, each proved to link what its rule declares. */
module GroupPasses {
  import opened Types
  import opened Graph
  import opened Sorting
  import opened Groups
  import opened Rules
  import opened UnionFinds
  import opened PairRules
  import opened RecordPasses

  // ---- destination-local episodes ----

  lemma {:induction false} PayingIndicesFacts(rs: Ledger, cfg: AdversaryConfig, d: AccountId, n: nat)
    requires n <= |rs|
    ensures NoDup(PayingIndices(rs, cfg, d, n))
    ensures forall i :: i in PayingIndices(rs, cfg, d, n) <==>
      0 <= i < n && rs[i].dest == d && rs[i].amount >= cfg.copayMinAmount
  {
    if n > 0 {
      PayingIndicesFacts(rs, cfg, d, n - 1);
      var before := PayingIndices(rs, cfg, d, n - 1);
      assert forall k :: 0 <= k < |before| ==> before[k] in before;
    }
  }

  lemma PaymentsFacts(rs: Ledger, cfg: AdversaryConfig, d: AccountId)
    ensures NoDup(PaymentsTo(rs, cfg, d)) && Sorted<nat>(PaymentsTo(rs, cfg, d), ByTime(rs))
    ensures forall i :: i in PaymentsTo(rs, cfg, d) <==>
      0 <= i < |rs| && rs[i].dest == d && rs[i].amount >= cfg.copayMinAmount
  {
    PayingIndicesFacts(rs, cfg, d, |rs|);
    assert TotalPreorder<nat>(ByTime(rs));
    SortBySorts<nat>(PayingIndices(rs, cfg, d, |rs|), ByTime(rs));
    SortByNoDup<nat>(PayingIndices(rs, cfg, d, |rs|), ByTime(rs));
  }

  lemma EpisodeIndices(rs: Ledger, cfg: AdversaryConfig, d: AccountId)
    ensures forall k :: 0 <= k < |Episodes(rs, cfg, d)| ==> InLedger(rs, Episodes(rs, cfg, d)[k])
  {
    PaymentsFacts(rs, cfg, d);
    forall k, n | 0 <= k < |Episodes(rs, cfg, d)| && 0 <= n < |Episodes(rs, cfg, d)[k]|
      ensures Episodes(rs, cfg, d)[k][n] < |rs|
    {
      var i := Episodes(rs, cfg, d)[k][n];
      GroupMember(PaymentsTo(rs, cfg, d), WindowJoins(rs, cfg.windowSecs), k, i);
    }
  }

  /** Two payments into `d` that are at most the window apart. */
  ghost function EpisodeEdges(rs: Ledger, cfg: AdversaryConfig, d: AccountId): Edges {
    set i, j | 0 <= i < |rs| && 0 <= j < |rs| && PaysInto(rs, cfg, d, i) && PaysInto(rs, cfg, d, j)
      && Near(rs, cfg.windowSecs, i, j) :: (i, j)
  }

  predicate PaysInto(rs: Ledger, cfg: AdversaryConfig, d: AccountId, i: nat) {
    i < |rs| && rs[i].dest == d && rs[i].amount >= cfg.copayMinAmount
  }

  /** Episodes of a destination are the components of its payments by time: no other payment joins them. */
  lemma EpisodesAreComponents(rs: Ledger, cfg: AdversaryConfig, d: AccountId, i: nat, j: nat)
    requires PaysInto(rs, cfg, d, i) && PaysInto(rs, cfg, d, j)
    ensures Together(Episodes(rs, cfg, d), i, j) <==> Connected(EpisodeEdges(rs, cfg, d), i, j)
  {
    PaymentsFacts(rs, cfg, d);
    var order := PaymentsTo(rs, cfg, d);
    RunsAreComponents(rs, cfg.windowSecs, order, i, j);
    assert NearWithin(rs, cfg.windowSecs, order) == EpisodeEdges(rs, cfg, d);
  }

  /** The payments per destination, for destinations that sign somewhere. */
  method PaymentsByDest(rs: Ledger, cfg: AdversaryConfig) returns (byDest: map<AccountId, seq<nat>>)
    ensures forall d :: d in byDest ==>
      d in Sources(rs) && d in Dests(rs) && byDest[d] == PayingIndices(rs, cfg, d, |rs|)
    ensures forall d :: d in Sources(rs) && d !in byDest ==> PayingIndices(rs, cfg, d, |rs|) == []
  {
    var active := Sources(rs);
    byDest := map[];
    for n := 0 to |rs|
      invariant forall d :: d in byDest ==>
        d in active && d in Dests(rs) && byDest[d] == PayingIndices(rs, cfg, d, n)
      invariant forall d :: d in active && d !in byDest ==> PayingIndices(rs, cfg, d, n) == []
    {
      var r := rs[n];
      RecordAccounts(rs, r);
      if r.amount >= cfg.copayMinAmount && r.dest in active {
        byDest := byDest[r.dest := (if r.dest in byDest then byDest[r.dest] else []) + [n]];
      }
    }
  }

  /** Windowed co-payment weights: qualifying episodes, once per source pair. */
  method WindowedCopayWeights(rs: Ledger, cfg: AdversaryConfig) returns (weight: Weights)
    ensures Counts(weight, EpisodeKeys(rs, cfg), EpisodeBucket(rs, cfg), cfg.copayMinSources, cfg.burstMaxSources)
  {
    weight := map[];
    ghost var bucket := EpisodeBucket(rs, cfg);
    ghost var done: set<(nat, nat)> := {};
    CountNone(bucket, cfg.copayMinSources, cfg.burstMaxSources);
    var byDest := PaymentsByDest(rs, cfg);
    var todo := byDest.Keys;
    while todo != {}
      invariant todo <= byDest.Keys
      invariant Counts(weight, done, bucket, cfg.copayMinSources, cfg.burstMaxSources)
      invariant done == KeysOf(rs, cfg, byDest.Keys - todo)
      decreases todo
    {
      var d :| d in todo;
      weight, done := EpisodeWeights(rs, cfg, d, byDest[d], weight, done);
      assert KeysOf(rs, cfg, byDest.Keys - (todo - {d})) == KeysOf(rs, cfg, byDest.Keys - todo) + KeysOf(rs, cfg, {d});
      todo := todo - {d};
    }
    forall k | k in EpisodeKeys(rs, cfg) ensures k in done {
      NoPaymentsNoEpisodes(rs, cfg, k.0);
    }
    assert done == EpisodeKeys(rs, cfg);
  }

  lemma NoPaymentsNoEpisodes(rs: Ledger, cfg: AdversaryConfig, d: AccountId)
    ensures PayingIndices(rs, cfg, d, |rs|) == [] ==> Episodes(rs, cfg, d) == []
  {
  }

  ghost function KeysOf(rs: Ledger, cfg: AdversaryConfig, ds: set<AccountId>): set<(nat, nat)> {
    set d, k | d in ds && 0 <= k < |Episodes(rs, cfg, d)| :: (d, k)
  }

  /** Counts every episode of one destination. */
  method EpisodeWeights(rs: Ledger, cfg: AdversaryConfig, d: AccountId, indices: seq<nat>, weight: Weights,
      ghost keys: set<(nat, nat)>)
    returns (w: Weights, ghost keys': set<(nat, nat)>)
    requires indices == PayingIndices(rs, cfg, d, |rs|)
    requires Counts(weight, keys, EpisodeBucket(rs, cfg), cfg.copayMinSources, cfg.burstMaxSources)
    requires forall k :: k in keys ==> k.0 != d
    ensures keys' == keys + KeysOf(rs, cfg, {d})
    ensures Counts(w, keys', EpisodeBucket(rs, cfg), cfg.copayMinSources, cfg.burstMaxSources)
  {
    ghost var bucket := EpisodeBucket(rs, cfg);
    w, keys' := weight, keys;
    var episodes := CutRuns(SortBy<nat>(indices, ByTime(rs)), WindowJoins(rs, cfg.windowSecs));
    assert episodes == Episodes(rs, cfg, d);
    EpisodeIndices(rs, cfg, d);
    for k := 0 to |episodes|
      invariant keys' == keys + set j | 0 <= j < k :: (d, j)
      invariant Counts(w, keys', bucket, cfg.copayMinSources, cfg.burstMaxSources)
    {
      var srcs := CollectSources(rs, episodes[k]);
      ghost var w0 := w;
      if cfg.copayMinSources <= |srcs| <= cfg.burstMaxSources {
        w := AddClique(w, srcs);
      }
      assert bucket(d, k) == srcs;
      CountOneMore(w0, w, keys', bucket, cfg.copayMinSources, cfg.burstMaxSources, (d, k));
      keys' := keys' + {(d, k)};
    }
  }

  // ---- the pair rules as passes ----

  method LinkCopay(uf: UnionFind, rs: Ledger, cfg: AdversaryConfig, groups: seq<seq<nat>>)
    requires uf.Valid() && Accounts(rs) <= uf.parent.Keys
    requires groups == if cfg.useWindowed then Windows(rs, cfg.windowSecs) else Bursts(rs)
    modifies uf
    ensures uf.Valid() && uf.parent.Keys == old(uf.parent.Keys)
    ensures uf.edges == old(uf.edges) + CopayRule(rs, cfg)
  {
    hide UnionFind.Valid;
    var weight;
    BurstIndices(rs);
    if cfg.useWindowed {
      weight := WindowedCopayWeights(rs, cfg);
      EpisodeBucketSources(rs, cfg);
      FrequentPairs(rs, weight, EpisodeKeys(rs, cfg), EpisodeBucket(rs, cfg),
                    cfg.copayMinSources, cfg.burstMaxSources, cfg.copayMinSharedBuckets);
    } else {
      weight := CopayWeights(groups, rs, cfg);
      PayBucketSources(rs, cfg, groups);
      FrequentPairs(rs, weight, GroupKeys(groups, Dests(rs)), PayBucket(rs, cfg, groups),
                    cfg.copayMinSources, cfg.burstMaxSources, cfg.copayMinSharedBuckets);
    }
    LinkFrequent(uf, weight, cfg.copayMinSharedBuckets);
  }

  method LinkCoactivity(uf: UnionFind, rs: Ledger, cfg: AdversaryConfig)
    requires uf.Valid() && Accounts(rs) <= uf.parent.Keys
    modifies uf
    ensures uf.Valid() && uf.parent.Keys == old(uf.parent.Keys)
    ensures uf.edges == old(uf.edges) + CoactEdges(rs, cfg, Bursts(rs))
  {
    hide UnionFind.Valid;
    var groups := BurstGroups(rs);
    var weight := CoactWeights(groups, rs, cfg);
    SponsoredBucketSources(rs, groups);
    FrequentPairs(rs, weight, GroupKeys(groups, {0}), SponsoredBucket(rs, groups),
                  2, cfg.burstMaxSources, cfg.coactivityMinSharedBursts);
    LinkFrequent(uf, weight, cfg.coactivityMinSharedBursts);
  }

  lemma GroupSourcesSign(rs: Ledger, g: seq<nat>)
    requires InLedger(rs, g)
    ensures GroupSources(rs, g) <= Sources(rs)
  {
  }

  lemma PayBucketSources(rs: Ledger, cfg: AdversaryConfig, groups: seq<seq<nat>>)
    requires forall k :: 0 <= k < |groups| ==> InLedger(rs, groups[k])
    ensures forall k, d :: PayBucket(rs, cfg, groups)(k, d) <= Sources(rs)
  {
  }

  lemma SponsoredBucketSources(rs: Ledger, groups: seq<seq<nat>>)
    requires forall k :: 0 <= k < |groups| ==> InLedger(rs, groups[k])
    ensures forall k, d :: SponsoredBucket(rs, groups)(k, d) <= Sources(rs)
  {
  }

  lemma EpisodeBucketSources(rs: Ledger, cfg: AdversaryConfig)
    ensures forall d, k :: EpisodeBucket(rs, cfg)(d, k) <= Sources(rs)
  {
    forall d: nat, k: nat ensures EpisodeBucket(rs, cfg)(d, k) <= Sources(rs) {
      if k < |Episodes(rs, cfg, d)| {
        EpisodeIndices(rs, cfg, d);
        GroupSourcesSign(rs, Episodes(rs, cfg, d)[k]);
      }
    }
  }

  // ---- (7) common funder ----

  /** Funder to funded fee-payers. */
  method FundingEdges(rs: Ledger) returns (children: map<AccountId, set<AccountId>>)
    ensures forall f :: f in children ==> f in Sources(rs) && children[f] == Children(rs, f)
    ensures forall f :: f !in children ==> Children(rs, f) == {}
  {
    var feeSet := FeePayers(rs);
    children := map[];
    for n := 0 to |rs|
      invariant forall f :: f in children ==> f in Sources(rs) && children[f] == ChildrenIn(rs[..n], feeSet, f)
      invariant forall f :: f !in children ==> ChildrenIn(rs[..n], feeSet, f) == {}
    {
      var r := rs[n];
      RecordAccounts(rs, r);
      assert rs[..n + 1] == rs[..n] + [r];
      forall f ensures ChildrenIn(rs[..n + 1], feeSet, f) ==
        ChildrenIn(rs[..n], feeSet, f) + (if r.source == f && r.source != r.dest && r.dest in feeSet then {r.dest} else {})
      {}
      if r.source != r.dest && r.dest in feeSet {
        children := children[r.source := (if r.source in children then children[r.source] else {}) + {r.dest}];
      }
    }
    assert rs[..|rs|] == rs;
    forall f ensures ChildrenIn(rs, feeSet, f) == Children(rs, f) {}
  }

  ghost function ChildrenIn(part: seq<TxRecord>, feeSet: set<AccountId>, f: AccountId): set<AccountId> {
    set r | r in part && r.source == f && r.source != r.dest && r.dest in feeSet :: r.dest
  }

  ghost predicate IsUsers(rs: Ledger, users: map<AccountId, set<AccountId>>) {
    && (forall f :: f in users ==> users[f] == Reached(rs, {f}))
    && (forall f :: f !in users ==> Reached(rs, {f}) == {})
  }

  /** Fee-payer to the other accounts that used it. */
  method SponsoredBy(rs: Ledger) returns (users: map<AccountId, set<AccountId>>)
    ensures IsUsers(rs, users)
  {
    users := map[];
    for n := 0 to |rs|
      invariant forall f :: f in users ==> users[f] == Reached(rs[..n], {f})
      invariant forall f :: f !in users ==> Reached(rs[..n], {f}) == {}
    {
      var r := rs[n];
      assert rs[..n + 1] == rs[..n] + [r];
      forall f ensures Reached(rs[..n + 1], {f}) ==
        Reached(rs[..n], {f}) + (if r.feePayer != r.source && r.feePayer == f then {r.source} else {})
      {}
      if r.feePayer != r.source {
        users := users[r.feePayer := (if r.feePayer in users then users[r.feePayer] else {}) + {r.source}];
      }
    }
    assert rs[..|rs|] == rs;
  }

  method CollectReached(rs: Ledger, users: map<AccountId, set<AccountId>>,
      fps: set<AccountId>) returns (srcs: set<AccountId>)
    requires IsUsers(rs, users)
    ensures srcs == Reached(rs, fps)
  {
    srcs := {};
    var todo := fps;
    while todo != {}
      invariant todo <= fps && srcs == Reached(rs, fps - todo)
      decreases todo
    {
      var fp :| fp in todo;
      assert Reached(rs, fps - (todo - {fp})) == Reached(rs, fps - todo) + Reached(rs, {fp});
      if fp in users {
        srcs := srcs + users[fp];
      }
      todo := todo - {fp};
    }
    assert fps - {} == fps;
  }

  /** Links a funder that funded enough fee-payers with every source they served. */
  method LinkFunders(uf: UnionFind, rs: Ledger, cfg: AdversaryConfig)
    requires uf.Valid() && Accounts(rs) <= uf.parent.Keys
    modifies uf
    ensures uf.Valid() && uf.parent.Keys == old(uf.parent.Keys)
    ensures uf.edges == old(uf.edges) + FunderEdges(rs, cfg)
  {
    hide UnionFind.Valid;
    var children := FundingEdges(rs);
    var users := SponsoredBy(rs);
    LinkChildren(uf, rs, cfg, children, users);
    AllFunders(rs, cfg, children.Keys);
  }

  method LinkChildren(uf: UnionFind, rs: Ledger, cfg: AdversaryConfig,
                      children: map<AccountId, set<AccountId>>, users: map<AccountId, set<AccountId>>)
    requires uf.Valid() && Accounts(rs) <= uf.parent.Keys
    requires forall f :: f in children ==> f in Sources(rs) && children[f] == Children(rs, f)
    requires IsUsers(rs, users)
    modifies uf
    ensures uf.Valid() && uf.parent.Keys == old(uf.parent.Keys)
    ensures uf.edges == old(uf.edges) + FunderEdgesOf(rs, cfg, children.Keys)
  {
    hide UnionFind.Valid;
    hide FunderEdgesOf, FunderStar, Children, Sources, Accounts, IsUsers;
    var all := children.Keys;
    var todo := all;
    NoFunders(rs, cfg);
    assert all - todo == {};
    while todo != {}
      invariant todo <= all
      invariant uf.Valid() && uf.parent.Keys == old(uf.parent.Keys)
      invariant uf.edges == old(uf.edges) + FunderEdgesOf(rs, cfg, all - todo)
      decreases todo
    {
      var f :| f in todo;
      LinkFunder(uf, rs, cfg, users, f, children[f]);
      FunderStep(rs, cfg, f, all - todo);
      assert all - (todo - {f}) == all - todo + {f};
      todo := todo - {f};
    }
    assert all - todo == all;
  }

  lemma NoFunders(rs: Ledger, cfg: AdversaryConfig)
    ensures FunderEdgesOf(rs, cfg, {}) == {}
  {
  }

  method LinkFunder(uf: UnionFind, rs: Ledger, cfg: AdversaryConfig, users: map<AccountId, set<AccountId>>,
                    f: AccountId, fps: set<AccountId>)
    requires uf.Valid() && Accounts(rs) <= uf.parent.Keys
    requires f in Sources(rs) && fps == Children(rs, f)
    requires IsUsers(rs, users)
    modifies uf
    ensures uf.Valid() && uf.parent.Keys == old(uf.parent.Keys)
    ensures uf.edges == old(uf.edges) + FunderStar(rs, cfg, f)
  {
    hide UnionFind.Valid;
    if |fps| >= cfg.funderMinFundees {
      var srcs := CollectReached(rs, users, fps);
      if 2 <= |srcs| <= cfg.funderMaxSources {
        ReachedAccounts(rs, fps);
        LinkStar(uf, f, srcs);
      }
    }
  }

  ghost function FunderStar(rs: Ledger, cfg: AdversaryConfig, f: AccountId): Edges {
    if FunderPattern(rs, cfg, f) then set s | s in Reached(rs, Children(rs, f)) :: (f, s) else {}
  }

  ghost function FunderEdgesOf(rs: Ledger, cfg: AdversaryConfig, fs: set<AccountId>): Edges {
    set e | e in FunderEdges(rs, cfg) && e.0 in fs
  }

  lemma ReachedAccounts(rs: Ledger, fps: set<AccountId>)
    ensures Reached(rs, fps) <= Accounts(rs)
  {
  }

  lemma FunderStep(rs: Ledger, cfg: AdversaryConfig, f: AccountId, done: set<AccountId>)
    requires f in Sources(rs)
    ensures FunderEdgesOf(rs, cfg, done + {f}) == FunderEdgesOf(rs, cfg, done)
      + FunderStar(rs, cfg, f)
  {
  }

  lemma AllFunders(rs: Ledger, cfg: AdversaryConfig, done: set<AccountId>)
    requires forall f :: f !in done ==> Children(rs, f) == {}
    ensures FunderEdgesOf(rs, cfg, done) == FunderEdges(rs, cfg)
  {
  }

  // ---- (6) ceiling ablation ----

  /** Chains every group of admissible size to its first source. */
  method LinkCeiling(uf: UnionFind, rs: Ledger, cfg: AdversaryConfig, groups: seq<seq<nat>>)
    requires uf.Valid() && Accounts(rs) <= uf.parent.Keys
    requires forall k :: 0 <= k < |groups| ==> InLedger(rs, groups[k])
    modifies uf
    ensures uf.Valid() && uf.parent.Keys == old(uf.parent.Keys)
    ensures SameReach(uf.edges, old(uf.edges) + CeilingEdges(rs, cfg, groups))
  {
    hide UnionFind.Valid;
    ghost var stars: Edges := {};
    for k := 0 to |groups|
      invariant uf.Valid() && uf.parent.Keys == old(uf.parent.Keys)
      invariant uf.edges == old(uf.edges) + stars
      invariant stars <= CeilingEdges(rs, cfg, groups)
      invariant AllStars(rs, cfg, groups, k, stars)
    {
      var srcs := CollectSources(rs, groups[k]);
      if 2 <= |srcs| <= cfg.burstMaxSources {
        ghost var star := LinkChain(uf, srcs, Accounts(rs));
        StarStep(rs, cfg, groups, k, stars, star);
        stars := stars + star;
      }
    }
    CeilingReach(rs, cfg, groups, stars, old(uf.edges));
  }

  ghost function StarOf(c: AccountId, srcs: set<AccountId>): Edges {
    set s | s in srcs && s != c :: (c, s)
  }

  /** Unions the smallest source of a set with every other one. */
  method LinkChain(uf: UnionFind, srcs: set<AccountId>, ghost accounts: set<AccountId>) returns (ghost star: Edges)
    requires uf.Valid() && srcs != {} && srcs <= accounts <= uf.parent.Keys
    modifies uf
    ensures uf.Valid() && uf.parent.Keys == old(uf.parent.Keys)
    ensures uf.edges == old(uf.edges) + star
    ensures exists c :: c in srcs && star == StarOf(c, srcs)
  {
    hide UnionFind.Valid;
    var v := Ordered(srcs);
    OrderedAscends(srcs);
    var c := v[0];
    assert c in srcs;
    LinkStar(uf, c, srcs - {c});
    star := StarOf(c, srcs);
  }

  lemma StarStep(rs: Ledger, cfg: AdversaryConfig, groups: seq<seq<nat>>, k: nat, stars: Edges, star: Edges)
    requires k < |groups| && InLedger(rs, groups[k]) && CeilingGroup(rs, cfg, groups[k])
    requires exists c :: c in GroupSources(rs, groups[k]) && star == StarOf(c, GroupSources(rs, groups[k]))
    requires AllStars(rs, cfg, groups, k, stars)
    ensures star <= CeilingEdges(rs, cfg, groups)
    ensures AllStars(rs, cfg, groups, k + 1, stars + star)
  {
  }

  ghost predicate AllStars(rs: Ledger, cfg: AdversaryConfig, groups: seq<seq<nat>>, k: nat, stars: Edges)
    requires k <= |groups|
  {
    forall j :: 0 <= j < k && CeilingGroup(rs, cfg, groups[j]) ==> Star(rs, groups[j], stars)
  }

  /** `stars` joins one source of group `g` to all the others. */
  ghost predicate Star(rs: Ledger, g: seq<nat>, stars: Edges) {
    exists c :: c in GroupSources(rs, g) && StarOf(c, GroupSources(rs, g)) <= stars
  }

  lemma CeilingReach(rs: Ledger, cfg: AdversaryConfig, groups: seq<seq<nat>>, stars: Edges, E: Edges)
    requires stars <= CeilingEdges(rs, cfg, groups)
    requires AllStars(rs, cfg, groups, |groups|, stars)
    ensures SameReach(E + stars, E + CeilingEdges(rs, cfg, groups))
  {
    var C := CeilingEdges(rs, cfg, groups);
    SubsetCovers(E + C, E + stars);
    SubsetCovers(E + stars, E + stars);
    forall e | e in C ensures Connected(E + stars, e.0, e.1) {
      var k :| 0 <= k < |groups| && CeilingGroup(rs, cfg, groups[k])
        && e.0 in GroupSources(rs, groups[k]) && e.1 in GroupSources(rs, groups[k]);
      var c :| c in GroupSources(rs, groups[k]) && StarOf(c, GroupSources(rs, groups[k])) <= stars;
      assert forall s :: s in GroupSources(rs, groups[k]) && s != c ==> (c, s) in StarOf(c, GroupSources(rs, groups[k]));
      Refl(E + stars, c);
      if e.0 != c { Edge(E + stars, e.0, c); }
      if e.1 != c { Edge(E + stars, c, e.1); }
      Trans(E + stars, e.0, c, e.1);
    }
    MutualCover(E + stars, E + C);
  }
}
