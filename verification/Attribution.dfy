/** Materializing the union-find into numbered clusters, and what the numbers mean. */
module Attribution {
  import opened Types
  import opened Graph
  import opened Sorting
  import opened Groups
  import opened Rules
  import opened UnionFinds
  import opened RecordPasses
  import opened GroupPasses

  datatype Clustering = Clustering(clusterOf: map<AccountId, nat>, sizes: seq<nat>)

  /** No earlier account is connected to account number `i`. */
  ghost predicate FirstOfComponent(v: seq<AccountId>, E: Edges, i: nat)
    requires i < |v|
  {
    forall j :: 0 <= j < i ==> !Connected(E, v[j], v[i])
  }

  /** How many of the first `n` accounts open a new component. */
  ghost function Opened(v: seq<AccountId>, E: Edges, n: nat): nat
    requires n <= |v|
  {
    if n == 0 then 0 else Opened(v, E, n - 1) + if FirstOfComponent(v, E, n - 1) then 1 else 0
  }

  /** Account number `i` is numbered by the rank of its component in order of first appearance. */
  ghost predicate NumberedAt(v: seq<AccountId>, E: Edges, clusterOf: map<AccountId, nat>, i: nat)
    requires i < |v|
  {
    && v[i] in clusterOf
    && exists j :: 0 <= j <= i && FirstOfComponent(v, E, j) && Connected(E, v[j], v[i]) && clusterOf[v[i]] == Opened(v, E, j)
  }

  ghost function InCluster(clusterOf: map<AccountId, nat>, k: nat): set<AccountId> {
    set a | a in clusterOf && clusterOf[a] == k
  }

  function Sum(s: seq<nat>): nat {
    if s == [] then 0 else s[|s| - 1] + Sum(s[..|s| - 1])
  }

  lemma {:induction false} SumBump(s: seq<nat>, k: nat)
    requires k < |s|
    ensures Sum(s[k := s[k] + 1]) == Sum(s) + 1
    decreases |s|
  {
    var t := s[k := s[k] + 1];
    if k < |s| - 1 {
      SumBump(s[..|s| - 1], k);
      assert t[..|s| - 1] == s[..|s| - 1][k := s[k] + 1];
    } else {
      assert t[..|s| - 1] == s[..|s| - 1];
    }
  }

  /** The clusters are the components of `E` over `accounts`, numbered by first appearance. */
  ghost predicate IsClustering(c: Clustering, accounts: set<AccountId>, E: Edges) {
    && c.clusterOf.Keys == accounts
    && (forall i :: 0 <= i < |Ordered(accounts)| ==> NumberedAt(Ordered(accounts), E, c.clusterOf, i))
    && |c.sizes| == Opened(Ordered(accounts), E, |Ordered(accounts)|)
    && (forall k :: 0 <= k < |c.sizes| ==> c.sizes[k] == |InCluster(c.clusterOf, k)|)
    && Sum(c.sizes) == |accounts|
  }

  lemma {:induction false} OpenedMonotone(v: seq<AccountId>, E: Edges, m: nat, n: nat)
    requires m <= n <= |v|
    ensures Opened(v, E, m) <= Opened(v, E, n)
    decreases n
  {
    if m < n {
      OpenedMonotone(v, E, m, n - 1);
    }
  }

  /** Different components open at different counts. */
  lemma OpenedDistinct(v: seq<AccountId>, E: Edges, i: nat, j: nat)
    requires i < j < |v| && FirstOfComponent(v, E, i)
    ensures Opened(v, E, i) < Opened(v, E, j)
  {
  }

  /** Two first members of connected components are the same account. */
  lemma FirstUnique(v: seq<AccountId>, E: Edges, i: nat, j: nat)
    requires i < |v| && j < |v| && FirstOfComponent(v, E, i) && FirstOfComponent(v, E, j)
    requires Connected(E, v[i], v[j])
    ensures i == j
  {
    Sym(E, v[i], v[j]);
  }

  /** Two accounts get one number iff the edges connect them. */
  lemma SameClusterIffConnected(c: Clustering, accounts: set<AccountId>, E: Edges, a: AccountId, b: AccountId)
    requires IsClustering(c, accounts, E) && a in accounts && b in accounts
    ensures a in c.clusterOf && b in c.clusterOf
    ensures c.clusterOf[a] == c.clusterOf[b] <==> Connected(E, a, b)
  {
    var v := Ordered(accounts);
    OrderedAscends(accounts);
    assert a in v && b in v;
    var p :| 0 <= p < |v| && v[p] == a;
    var q :| 0 <= q < |v| && v[q] == b;
    assert NumberedAt(v, E, c.clusterOf, p) && NumberedAt(v, E, c.clusterOf, q);
    var i :| 0 <= i <= p && FirstOfComponent(v, E, i) && Connected(E, v[i], a) && c.clusterOf[a] == Opened(v, E, i);
    var j :| 0 <= j <= q && FirstOfComponent(v, E, j) && Connected(E, v[j], b) && c.clusterOf[b] == Opened(v, E, j);
    if c.clusterOf[a] == c.clusterOf[b] {
      if i < j { OpenedDistinct(v, E, i, j); }
      if j < i { OpenedDistinct(v, E, j, i); }
      Sym(E, v[i], a);
      Trans(E, a, v[i], b);
    }
    if Connected(E, a, b) {
      Sym(E, v[j], b);
      Trans(E, v[i], a, b);
      Trans(E, v[i], b, v[j]);
      FirstUnique(v, E, i, j);
    }
  }

  lemma {:induction false} OpenedSame(v: seq<AccountId>, E: Edges, F: Edges, n: nat)
    requires SameReach(E, F) && n <= |v|
    ensures Opened(v, E, n) == Opened(v, F, n)
  {
    if n > 0 {
      OpenedSame(v, E, F, n - 1);
      assert FirstOfComponent(v, E, n - 1) <==> FirstOfComponent(v, F, n - 1);
    }
  }

  lemma NumberUnique(v: seq<AccountId>, E: Edges, F: Edges, c: map<AccountId, nat>, d: map<AccountId, nat>, p: nat)
    requires SameReach(E, F) && p < |v| && NumberedAt(v, E, c, p) && NumberedAt(v, F, d, p)
    ensures c[v[p]] == d[v[p]]
  {
    var a := v[p];
    var i :| 0 <= i <= p && FirstOfComponent(v, E, i) && Connected(E, v[i], a) && c[a] == Opened(v, E, i);
    var j :| 0 <= j <= p && FirstOfComponent(v, F, j) && Connected(F, v[j], a) && d[a] == Opened(v, F, j);
    assert Connected(E, v[j], a) && FirstOfComponent(v, E, j);
    Sym(E, v[j], a);
    Trans(E, v[i], a, v[j]);
    FirstUnique(v, E, i, j);
    OpenedSame(v, E, F, i);
  }

  /**
   * Numbers and sizes depend on reachability alone, so neither the order of unions nor the
   * iteration order of any map can change them.
   */
  lemma ClusteringUnique(c: Clustering, d: Clustering, accounts: set<AccountId>, E: Edges, F: Edges)
    requires IsClustering(c, accounts, E) && IsClustering(d, accounts, F) && SameReach(E, F)
    ensures c == d
  {
    hide Ordered, NumberedAt, Opened, SameReach, InCluster, Sum;
    var v := Ordered(accounts);
    OrderedAscends(accounts);
    forall a | a in accounts ensures c.clusterOf[a] == d.clusterOf[a] {
      assert a in v;
      var p :| 0 <= p < |v| && v[p] == a;
      NumberUnique(v, E, F, c.clusterOf, d.clusterOf, p);
    }
    assert c.clusterOf == d.clusterOf;
    OpenedSame(v, E, F, |v|);
    assert c.sizes == d.sizes;
  }

  datatype Progress = Progress(clusterOf: map<AccountId, nat>, rootIdx: map<AccountId, nat>, sizes: seq<nat>)

  /** Root `r` carries the number its component got when its first account opened it. */
  ghost predicate RootNumbered(v: seq<AccountId>, E: Edges, rep: map<AccountId, AccountId>, n: nat, g: Progress,
      r: AccountId)
    requires n <= |v| && (forall i :: 0 <= i < |v| ==> v[i] in rep) && r in g.rootIdx
  {
    exists j :: 0 <= j < n && FirstOfComponent(v, E, j) && rep[v[j]] == r && g.rootIdx[r] == Opened(v, E, j)
  }

  /** The first `n` accounts are numbered. */
  ghost predicate Numbers(v: seq<AccountId>, E: Edges, rep: map<AccountId, AccountId>, n: nat, g: Progress)
    requires n <= |v| && forall i :: 0 <= i < |v| ==> v[i] in rep
  {
    && (forall i :: 0 <= i < n ==> v[i] in g.clusterOf)
    && (forall i :: 0 <= i < n ==> rep[v[i]] in g.rootIdx && g.clusterOf[v[i]] == g.rootIdx[rep[v[i]]])
    && (forall r {:trigger RootNumbered(v, E, rep, n, g, r)} :: r in g.rootIdx ==> RootNumbered(v, E, rep, n, g, r))
  }

  ghost predicate Keyed(v: seq<AccountId>, n: nat, g: Progress)
    requires n <= |v|
  {
    forall a :: a in g.clusterOf ==> a in v[..n]
  }

  /** `sizes` counts the accounts of every number handed out. */
  ghost predicate Counted(g: Progress) {
    && (forall k :: 0 <= k < |g.sizes| ==> g.sizes[k] == |InCluster(g.clusterOf, k)|)
    && (forall a :: a in g.clusterOf ==> g.clusterOf[a] < |g.sizes|)
  }

  /** The cluster sizes of the accounts numbered so far. */
  ghost predicate Sizes(v: seq<AccountId>, E: Edges, n: nat, g: Progress)
    requires n <= |v|
  {
    Keyed(v, n, g) && Counted(g) && |g.sizes| == Opened(v, E, n) && Sum(g.sizes) == n
  }

  /** Handling one account: look its root up, opening a new number for a new root. */
  function Advance(g: Progress, a: AccountId, root: AccountId): Progress {
    var known := root in g.rootIdx;
    var sizes := if known then g.sizes else g.sizes + [0];
    var rootIdx := if known then g.rootIdx else g.rootIdx[root := |g.sizes|];
    var idx := rootIdx[root];
    Progress(g.clusterOf[a := idx], rootIdx, if idx < |sizes| then sizes[idx := sizes[idx] + 1] else sizes)
  }

  /** An account's root is new exactly when it opens a component. */
  lemma NewRootOpens(v: seq<AccountId>, E: Edges, rep: map<AccountId, AccountId>, n: nat, g: Progress)
    requires n < |v| && forall i :: 0 <= i < |v| ==> v[i] in rep
    requires Represents(rep, E) && Numbers(v, E, rep, n, g)
    ensures rep[v[n]] !in g.rootIdx <==> FirstOfComponent(v, E, n)
  {
    forall j | 0 <= j < n ensures Connected(E, v[j], v[n]) <==> rep[v[j]] == rep[v[n]] {}
    if rep[v[n]] in g.rootIdx {
      assert RootNumbered(v, E, rep, n, g, rep[v[n]]);
    }
  }

  lemma AdvanceNumbers(v: seq<AccountId>, E: Edges, rep: map<AccountId, AccountId>, n: nat, g: Progress)
    requires n < |v| && Ascending(v) && forall i :: 0 <= i < |v| ==> v[i] in rep
    requires Represents(rep, E) && Numbers(v, E, rep, n, g) && |g.sizes| == Opened(v, E, n)
    ensures Numbers(v, E, rep, n + 1, Advance(g, v[n], rep[v[n]]))
  {
    var root := rep[v[n]];
    var h := Advance(g, v[n], root);
    NewRootOpens(v, E, rep, n, g);
    forall i | 0 <= i < n + 1
      ensures v[i] in h.clusterOf && rep[v[i]] in h.rootIdx && h.clusterOf[v[i]] == h.rootIdx[rep[v[i]]]
    {
      if i < n { assert v[i] != v[n]; }
    }
    forall r | r in h.rootIdx ensures RootNumbered(v, E, rep, n + 1, h, r) {
      if r in g.rootIdx {
        assert RootNumbered(v, E, rep, n, g, r);
      } else {
        assert rep[v[n]] == r && h.rootIdx[r] == Opened(v, E, n);
      }
    }
  }

  /** The number given to account `n` is in range, and one more account is counted. */
  lemma AdvanceTotal(v: seq<AccountId>, E: Edges, rep: map<AccountId, AccountId>, n: nat, g: Progress)
    requires n < |v| && forall i :: 0 <= i < |v| ==> v[i] in rep
    requires Represents(rep, E) && Numbers(v, E, rep, n, g)
    requires |g.sizes| == Opened(v, E, n) && Sum(g.sizes) == n
    ensures var h := Advance(g, v[n], rep[v[n]]);
      h.clusterOf[v[n]] < |h.sizes| == Opened(v, E, n + 1) && Sum(h.sizes) == n + 1
  {
    hide Represents, FirstOfComponent;
    var root := rep[v[n]];
    NewRootOpens(v, E, rep, n, g);
    if root in g.rootIdx {
      assert RootNumbered(v, E, rep, n, g, root);
      var j :| 0 <= j < n && FirstOfComponent(v, E, j) && rep[v[j]] == root && g.rootIdx[root] == Opened(v, E, j);
      OpenedMonotone(v, E, j + 1, n);
      SumBump(g.sizes, g.rootIdx[root]);
    } else {
      var sizes := g.sizes + [0];
      assert sizes[..|sizes| - 1] == g.sizes;
      SumBump(sizes, |g.sizes|);
    }
  }

  lemma AdvanceSizes(v: seq<AccountId>, E: Edges, rep: map<AccountId, AccountId>, n: nat, g: Progress)
    requires n < |v| && Ascending(v) && forall i :: 0 <= i < |v| ==> v[i] in rep
    requires Represents(rep, E) && Numbers(v, E, rep, n, g) && Sizes(v, E, n, g)
    ensures Sizes(v, E, n + 1, Advance(g, v[n], rep[v[n]]))
  {
    AdvanceTotal(v, E, rep, n, g);
    AdvanceKeyed(v, n, g, rep[v[n]]);
    AdvanceCounts(g, Advance(g, v[n], rep[v[n]]), v[n], Advance(g, v[n], rep[v[n]]).clusterOf[v[n]]);
  }

  lemma AdvanceKeyed(v: seq<AccountId>, n: nat, g: Progress, root: AccountId)
    requires n < |v| && Ascending(v) && Keyed(v, n, g)
    ensures v[n] !in g.clusterOf && Keyed(v, n + 1, Advance(g, v[n], root))
  {
  }

  lemma AdvanceCounts(g: Progress, h: Progress, a: AccountId, idx: nat)
    requires a !in g.clusterOf && h.clusterOf == g.clusterOf[a := idx] && Counted(g)
    requires var sizes := if idx < |g.sizes| then g.sizes else g.sizes + [0];
      idx < |sizes| && h.sizes == sizes[idx := sizes[idx] + 1]
    ensures Counted(h)
  {
    forall k | 0 <= k < |h.sizes| ensures h.sizes[k] == |InCluster(h.clusterOf, k)| {
      AdvanceCluster(g, idx, a, k);
      if k == |g.sizes| {
        assert InCluster(g.clusterOf, k) == {};
      }
    }
  }

  /** Numbering a new account adds it to one cluster and leaves the others alone. */
  lemma AdvanceCluster(g: Progress, idx: nat, a: AccountId, k: nat)
    requires a !in g.clusterOf
    ensures |InCluster(g.clusterOf[a := idx], k)| == |InCluster(g.clusterOf, k)| + if k == idx then 1 else 0
  {
    if k == idx {
      assert InCluster(g.clusterOf[a := idx], k) == InCluster(g.clusterOf, k) + {a};
    } else {
      assert InCluster(g.clusterOf[a := idx], k) == InCluster(g.clusterOf, k);
    }
  }

  lemma FinishedClustering(v: seq<AccountId>, accounts: set<AccountId>, E: Edges, rep: map<AccountId, AccountId>,
      g: Progress)
    requires v == Ordered(accounts) && Represents(rep, E) && Handled(v, E, rep, |v|, g)
    ensures IsClustering(Clustering(g.clusterOf, g.sizes), accounts, E)
  {
    FinishedKeys(v, accounts, E, rep, g);
    forall i | 0 <= i < |v| ensures NumberedAt(v, E, g.clusterOf, i) {
      FinishedNumber(v, E, rep, g, i);
    }
  }

  lemma FinishedKeys(v: seq<AccountId>, accounts: set<AccountId>, E: Edges, rep: map<AccountId, AccountId>, g: Progress)
    requires v == Ordered(accounts) && forall i :: 0 <= i < |v| ==> v[i] in rep
    requires Numbers(v, E, rep, |v|, g) && Keyed(v, |v|, g)
    ensures g.clusterOf.Keys == accounts && |v| == |accounts|
  {
    OrderedAscends(accounts);
    assert v[..|v|] == v;
    forall a | a in accounts ensures a in g.clusterOf {
      assert a in v;
      var i :| 0 <= i < |v| && v[i] == a;
    }
  }

  lemma FinishedNumber(v: seq<AccountId>, E: Edges, rep: map<AccountId, AccountId>, g: Progress, i: nat)
    requires i < |v| && forall i :: 0 <= i < |v| ==> v[i] in rep
    requires Represents(rep, E) && Numbers(v, E, rep, |v|, g)
    ensures NumberedAt(v, E, g.clusterOf, i)
  {
    assert RootNumbered(v, E, rep, |v|, g, rep[v[i]]);
    var j :| 0 <= j < |v| && FirstOfComponent(v, E, j) && rep[v[j]] == rep[v[i]] && g.rootIdx[rep[v[i]]] == Opened(v, E, j);
    assert Connected(E, v[j], v[i]);
    assert Connected(E, v[i], v[j]);
  }

  /** Materialization has handled the first `n` accounts. */
  ghost predicate Handled(v: seq<AccountId>, E: Edges, rep: map<AccountId, AccountId>, n: nat, g: Progress) {
    && n <= |v| && (forall i :: 0 <= i < |v| ==> v[i] in rep)
    && Numbers(v, E, rep, n, g) && Sizes(v, E, n, g)
  }

  lemma HandleNone(accounts: set<AccountId>, E: Edges, rep: map<AccountId, AccountId>)
    requires accounts <= rep.Keys
    ensures Handled(Ordered(accounts), E, rep, 0, Progress(map[], map[], []))
  {
  }

  lemma HandleNext(accounts: set<AccountId>, E: Edges, rep: map<AccountId, AccountId>, n: nat, g: Progress)
    requires n < |Ordered(accounts)| && Represents(rep, E) && Handled(Ordered(accounts), E, rep, n, g)
    ensures Handled(Ordered(accounts), E, rep, n + 1, Advance(g, Ordered(accounts)[n], rep[Ordered(accounts)[n]]))
  {
    OrderedAscends(accounts);
    AdvanceNumbers(Ordered(accounts), E, rep, n, g);
    AdvanceSizes(Ordered(accounts), E, rep, n, g);
  }

  /** Numbers the components in account order. */
  method Materialize(uf: UnionFind, rs: Ledger) returns (c: Clustering)
    requires uf.Valid() && Accounts(rs) <= uf.parent.Keys
    modifies uf
    ensures uf.edges == old(uf.edges) && IsClustering(c, Accounts(rs), uf.edges)
  {
    hide Handled, Advance, IsClustering;
    ghost var E, rep := uf.edges, uf.rep;
    var accounts := Accounts(rs);
    var v := Ordered(accounts);
    var g := Progress(map[], map[], []);
    HandleNone(accounts, E, rep);
    for n := 0 to |v|
      invariant uf.Valid() && uf.edges == E && uf.rep == rep
      invariant Handled(v, E, rep, n, g)
    {
      HandleNext(accounts, E, rep, n, g);
      var root, _ := uf.Find(v[n]);
      g := Advance(g, v[n], root);
    }
    FinishedClustering(v, accounts, E, rep, g);
    c := Clustering(g.clusterOf, g.sizes);
  }

  /** Every distinct account, inserted record by record. */
  method LedgerAccounts(rs: Ledger) returns (accounts: set<AccountId>)
    ensures accounts == Accounts(rs)
  {
    accounts := {};
    for n := 0 to |rs|
      invariant accounts == Accounts(rs[..n])
    {
      assert rs[..n + 1] == rs[..n] + [rs[n]];
      accounts := accounts + {rs[n].feePayer, rs[n].source, rs[n].dest};
    }
    assert rs[..|rs|] == rs;
  }

  /**
   * The adversary's clustering. Two accounts share a number iff edges of the enabled rules connect
   * them; see SameClusterIffConnected and ClusteringUnique.
   */
  method Cluster(rs: Ledger, on: RuleSet, cfg: AdversaryConfig) returns (c: Clustering)
    requires on.temporalAmount ==> Searchable(rs, cfg)
    ensures IsClustering(c, Accounts(rs), RuleEdges(rs, on, cfg))
  {
    var accounts := LedgerAccounts(rs);
    var uf := new UnionFind(accounts);
    LinkRecordRules(uf, rs, on, cfg);
    LinkGroupRules(uf, rs, on, cfg);
    c := Materialize(uf, rs);
    TransferClustering(c, Accounts(rs), uf.edges, RuleEdges(rs, on, cfg));
  }

  /** The rules that look at single records. */
  method LinkRecordRules(uf: UnionFind, rs: Ledger, on: RuleSet, cfg: AdversaryConfig)
    requires uf.Valid() && Accounts(rs) <= uf.parent.Keys && uf.edges == {}
    requires on.temporalAmount ==> Searchable(rs, cfg)
    modifies uf
    ensures uf.Valid() && uf.parent.Keys == old(uf.parent.Keys) && SameReach(uf.edges, RecordRules(rs, on, cfg))
  {
    hide UnionFind.Valid;
    ghost var before, declared: Edges := {}, {};
    if on.feePayer {
      LinkFeePayers(uf, rs);
    }
    declared := Declare(uf.edges, before, declared, on.feePayer, FeeEdges(rs));
    before := uf.edges;
    if on.cospend {
      LinkHubs(uf, rs, cfg);
    }
    declared := Declare(uf.edges, before, declared, on.cospend, HubEdges(rs, cfg));
    before := uf.edges;
    if on.temporalAmount {
      LinkPeelChains(uf, rs, cfg);
    }
    declared := Declare(uf.edges, before, declared, on.temporalAmount, PeelEdges(rs, cfg));
    before := uf.edges;
    if on.activationLineage {
      LinkActivations(uf, rs, cfg);
    }
    declared := Declare(uf.edges, before, declared, on.activationLineage, ActivationEdges(rs, cfg));
  }

  /** The rules that look at groups of records, and the funder graph. */
  method LinkGroupRules(uf: UnionFind, rs: Ledger, on: RuleSet, cfg: AdversaryConfig)
    requires uf.Valid() && Accounts(rs) <= uf.parent.Keys && SameReach(uf.edges, RecordRules(rs, on, cfg))
    modifies uf
    ensures uf.Valid() && uf.parent.Keys == old(uf.parent.Keys) && SameReach(uf.edges, RuleEdges(rs, on, cfg))
  {
    hide UnionFind.Valid;
    var groups;
    if cfg.useWindowed {
      groups := WindowGroups(rs, cfg.windowSecs);
    } else {
      groups := BurstGroups(rs);
    }
    ghost var before, declared := uf.edges, RecordRules(rs, on, cfg);
    if on.burstCopay {
      LinkCopay(uf, rs, cfg, groups);
    }
    declared := Declare(uf.edges, before, declared, on.burstCopay, CopayRule(rs, cfg));
    before := uf.edges;
    if on.burstCoactivity {
      LinkCoactivity(uf, rs, cfg);
    }
    declared := Declare(uf.edges, before, declared, on.burstCoactivity, CoactEdges(rs, cfg, Bursts(rs)));
    before := uf.edges;
    if on.funderGraph {
      LinkFunders(uf, rs, cfg);
    }
    declared := Declare(uf.edges, before, declared, on.funderGraph, FunderEdges(rs, cfg));
    before := uf.edges;
    if on.burstUnionCeiling {
      LinkCeiling(uf, rs, cfg, groups);
    }
    declared := Declare(uf.edges, before, declared, on.burstUnionCeiling, CeilingEdges(rs, cfg, groups));
  }

  /** One pass moved the unions from `before` to `now`; the declared edges follow. */
  lemma Declare(now: Edges, before: Edges, declared: Edges, enabled: bool, X: Edges) returns (next: Edges)
    requires SameReach(before, declared)
    requires if enabled then SameReach(now, before + X) else now == before
    ensures next == declared + When(enabled, X) && SameReach(now, next)
  {
    next := declared + When(enabled, X);
    if enabled {
      GrowSameReach(before, declared, X, now);
    } else {
      assert next == declared;
    }
  }

  lemma TransferClustering(c: Clustering, accounts: set<AccountId>, E: Edges, F: Edges)
    requires IsClustering(c, accounts, E) && SameReach(E, F)
    ensures IsClustering(c, accounts, F)
  {
    var v := Ordered(accounts);
    forall i | 0 <= i < |v| ensures NumberedAt(v, F, c.clusterOf, i) {
      assert NumberedAt(v, E, c.clusterOf, i);
      var j :| 0 <= j <= i && FirstOfComponent(v, E, j) && Connected(E, v[j], v[i]) && c.clusterOf[v[i]] == Opened(v, E, j);
      OpenedSame(v, E, F, j);
      assert FirstOfComponent(v, F, j);
    }
    OpenedSame(v, E, F, |v|);
  }

  lemma MoreRulesMoreEdges(rs: Ledger, r: RuleSet, s: RuleSet, cfg: AdversaryConfig)
    requires Within(r, s)
    ensures RuleEdges(rs, r, cfg) <= RuleEdges(rs, s, cfg)
  {
  }

  /** Enabling more rules only merges clusters. */
  lemma MoreRulesCoarsen(rs: Ledger, r: RuleSet, s: RuleSet, cfg: AdversaryConfig, fine: Clustering, coarse: Clustering,
                         a: AccountId, b: AccountId)
    requires Within(r, s)
    requires IsClustering(fine, Accounts(rs), RuleEdges(rs, r, cfg))
    requires IsClustering(coarse, Accounts(rs), RuleEdges(rs, s, cfg))
    requires a in fine.clusterOf && b in fine.clusterOf && fine.clusterOf[a] == fine.clusterOf[b]
    ensures a in coarse.clusterOf && b in coarse.clusterOf && coarse.clusterOf[a] == coarse.clusterOf[b]
  {
    MoreRulesMoreEdges(rs, r, s, cfg);
    SameClusterIffConnected(fine, Accounts(rs), RuleEdges(rs, r, cfg), a, b);
    SameClusterIffConnected(coarse, Accounts(rs), RuleEdges(rs, s, cfg), a, b);
    Monotone(RuleEdges(rs, r, cfg), RuleEdges(rs, s, cfg), a, b);
  }
}
