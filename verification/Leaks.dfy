/** The leaks the adversary fully recovers, on every run and not only on measured seeds. */
module Leaks {
  import opened Types
  import opened Streams
  import opened Graph
  import opened Engine
  import opened EventLoop
  import opened RunInvariants
  import opened Funding
  import opened Simulation
  import opened Rules
  import opened Metric
  import opened Attribution

  /** If the rules tie every labelled source to a hub of its operator, no same-operator pair is missed. */
  lemma StarRecovers(rs: Ledger, E: Edges, c: Clustering, hub: AgentId -> AccountId)
    requires IsClustering(c, Accounts(rs), E)
    requires forall r :: r in rs && r.operator.Some? ==> Connected(E, r.source, hub(r.operator.value))
    ensures Enumerated(Ownership(rs), c.clusterOf).fn == 0
  {
    var owner := Ownership(rs);
    forall a, b | a in owner && b in owner && owner[a] == owner[b]
      ensures ClusterKey(c.clusterOf, a) == ClusterKey(c.clusterOf, b)
    {
      SameHub(rs, E, c, hub, a, b);
    }
    hide Enumerated;
    NoMissesIffOperatorsWhole(owner, c.clusterOf);
  }

  lemma SameHub(rs: Ledger, E: Edges, c: Clustering, hub: AgentId -> AccountId, a: AccountId, b: AccountId)
    requires IsClustering(c, Accounts(rs), E)
    requires forall r :: r in rs && r.operator.Some? ==> Connected(E, r.source, hub(r.operator.value))
    requires a in Ownership(rs) && b in Ownership(rs) && Ownership(rs)[a] == Ownership(rs)[b]
    ensures ClusterKey(c.clusterOf, a) == ClusterKey(c.clusterOf, b)
  {
    hide IsClustering, Connected, Ownership;
    OwnersSign(rs, a);
    OwnersSign(rs, b);
    var p :| p in rs && p.source == a && p.operator == Some(Ownership(rs)[a]);
    var q :| q in rs && q.source == b && q.operator == Some(Ownership(rs)[b]);
    var h := hub(Ownership(rs)[a]);
    Sym(E, b, h);
    Trans(E, a, h, b);
    SameClusterIffConnected(c, Accounts(rs), E, a, b);
  }

  lemma RuleLinks(rs: Ledger, on: RuleSet, adv: AdversaryConfig, e: (nat, nat))
    requires (on.feePayer && e in FeeEdges(rs)) || (on.funderGraph && e in FunderEdges(rs, adv))
    ensures Connected(RuleEdges(rs, on, adv), e.0, e.1) && Connected(RuleEdges(rs, on, adv), e.1, e.0)
  {
    hide FeeEdges, HubEdges, PeelEdges, ActivationEdges, CopayRule, CoactEdges, FunderEdges, CeilingEdges;
    assert e in RuleEdges(rs, on, adv) && e == (e.0, e.1);
    Edge(RuleEdges(rs, on, adv), e.0, e.1);
    Edge(RuleEdges(rs, on, adv), e.1, e.0);
  }

  // ---- the naive baseline ----

  function MainOf(agents: seq<Agent>): AgentId -> AccountId {
    (op: AgentId) => if op < |agents| then agents[op].main else 0
  }

  lemma NaiveLedger(world: World, personas: seq<Persona>, cfg: SimConfig)
    requires Accepted(world, personas, cfg) && cfg.mode == Naive
    ensures var g := Golden(world, personas, cfg);
      Simulate(world, personas, cfg) == g.chain.records && MainPays(g.agents, g.chain.records)
  {
    var w := Actions(world, cfg);
    FreshStart(w, personas, cfg);
    FreshEntriesMatch(w, personas, cfg);
    FinishMainPays(w, FreshSetup(w, personas, cfg), FreshRun(w, personas, cfg));
  }

  /** The fee-payer rule misses no pair of any naive run, whatever else is enabled. */
  lemma NaiveFullyRecovered(world: World, personas: seq<Persona>, cfg: SimConfig, on: RuleSet, adv: AdversaryConfig,
      c: Clustering)
    requires Accepted(world, personas, cfg) && cfg.mode == Naive && on.feePayer
    requires var rs := Simulate(world, personas, cfg); IsClustering(c, Accounts(rs), RuleEdges(rs, on, adv))
    ensures Enumerated(Ownership(Simulate(world, personas, cfg)), c.clusterOf).fn == 0
  {
    hide IsClustering, RuleEdges, Enumerated, Ownership, Golden, Simulate;
    NaiveLedger(world, personas, cfg);
    var rs, hub := Simulate(world, personas, cfg), MainOf(Golden(world, personas, cfg).agents);
    forall r | r in rs && r.operator.Some? ensures Connected(RuleEdges(rs, on, adv), r.source, hub(r.operator.value)) {
      assert (r.feePayer, r.source) in FeeEdges(rs);
      RuleLinks(rs, on, adv, (r.feePayer, r.source));
    }
    StarRecovers(rs, RuleEdges(rs, on, adv), c, hub);
  }

  // ---- owned funders ----

  /** Every fee-payer is funded by a wallet of its own operator. */
  predicate OwnFunder(policy: FundingPolicy) {
    policy == OperatorHub || policy == DedicatedFunder
  }

  /** What `a` draws before position `n` and `b` before position `m` are different identifiers. */
  ghost predicate StreamsApart(a: Stream, n: Rng, b: Stream, m: Rng) {
    forall p: nat, q: nat :: p < n && q < m ==> a.id(p) != b.id(q)
  }

  /** Dedicated wallets are drawn distinct, and not among the identifiers of the run itself. */
  ghost predicate FreshWallets(w: Stream, c: Rng, f: Stream, n: nat, fcfg: FundingConfig) {
    fcfg.policy == DedicatedFunder ==> DistinctIds(f, n) && StreamsApart(w, c, f, n)
  }

  /** What the proof uses of a finished cooker run. */
  ghost predicate Base(w: Stream, f: Stream, ext: seq<AccountId>, agents: seq<Agent>, rs: Ledger, c: Rng,
      fcfg: FundingConfig) {
    CookerRun(w, ext, agents, rs, c) && FreshWallets(w, c, f, |agents|, fcfg)
  }

  function WalletOf(f: Stream, fcfg: FundingConfig, agents: seq<Agent>, op: AgentId): AccountId
    requires op < |agents|
  {
    if fcfg.policy == OperatorHub then agents[op].main else f.id(op)
  }

  /** Different operators are funded from different wallets, and no wallet is a throwaway. */
  lemma WalletsApart(w: Stream, f: Stream, ext: seq<AccountId>, agents: seq<Agent>, rs: Ledger, c: Rng,
      fcfg: FundingConfig)
    requires Base(w, f, ext, agents, rs, c, fcfg) && OwnFunder(fcfg.policy)
    ensures forall o, p :: 0 <= o < |agents| && 0 <= p < |agents| && WalletOf(f, fcfg, agents, o) == WalletOf(f, fcfg, agents, p) ==> o == p
    ensures forall o, r :: 0 <= o < |agents| && r in rs ==> r.feePayer != WalletOf(f, fcfg, agents, o)
  {
  }

  /** No base record sends from an operator's wallet to anybody's throwaway or other wallet. */
  lemma WalletQuiet(w: Stream, f: Stream, ext: seq<AccountId>, agents: seq<Agent>, rs: Ledger, c: Rng,
      fcfg: FundingConfig, i: nat, o: nat)
    requires Base(w, f, ext, agents, rs, c, fcfg) && OwnFunder(fcfg.policy) && i < |rs| && o < |agents|
    requires rs[i].source == WalletOf(f, fcfg, agents, o) && rs[i].source != rs[i].dest
    ensures rs[i].dest !in FeePayers(rs)
    ensures forall p :: 0 <= p < |agents| ==> rs[i].dest != WalletOf(f, fcfg, agents, p)
  {
  }

  /** Every base record is labelled and the first that its fee-payer, no source, pays for. */
  lemma BasePays(w: Stream, f: Stream, ext: seq<AccountId>, agents: seq<Agent>, rs: Ledger, c: Rng,
      fcfg: FundingConfig, i: nat)
    requires Base(w, f, ext, agents, rs, c, fcfg) && i < |rs|
    ensures rs[i].operator.Some? && rs[i].operator.value < |agents|
    ensures FirstUse(rs, i) && rs[i].feePayer !in Sources(rs)
  {
    hide Known, Apart, FreshWallets;
  }

  lemma OwnFunders(f: Stream, fcfg: FundingConfig, agents: seq<Agent>, op: AgentId)
    requires OwnFunder(fcfg.policy) && op < |agents|
    ensures DrawRoster(f, fcfg, Hubs(agents)).funders[op] == Funder(WalletOf(f, fcfg, agents, op), Some(op))
  {
  }

  /** Its funder is its operator's wallet, which is not what it pays with. */
  lemma BaseFunder(w: Stream, f: Stream, ext: seq<AccountId>, agents: seq<Agent>, rs: Ledger, c: Rng,
      fcfg: FundingConfig, i: nat)
    requires Base(w, f, ext, agents, rs, c, fcfg) && OwnFunder(fcfg.policy) && i < |rs| && Labelled(rs, |agents|)
    requires rs[i].operator.Some? && rs[i].operator.value < |agents| && Resolvable(fcfg, rs, |agents|)
    ensures var t := DrawRoster(f, fcfg, Hubs(agents));
      && FunderAt(f, fcfg, t, rs, i) == Funder(WalletOf(f, fcfg, agents, rs[i].operator.value), rs[i].operator)
      && FunderAt(f, fcfg, t, rs, i).account != rs[i].feePayer
  {
    WalletsApart(w, f, ext, agents, rs, c, fcfg);
    OwnFunders(f, fcfg, agents, rs[i].operator.value);
    hide Base, Labelled, Resolvable, Funded, DrawRoster;
    assert rs[i] in rs;
  }

  /** Every base record makes its fee-payer be funded, by its own operator's wallet. */
  lemma AllTrigger(w: Stream, f: Stream, ext: seq<AccountId>, agents: seq<Agent>, rs: Ledger, c: Rng,
      fcfg: FundingConfig, i: nat)
    requires Base(w, f, ext, agents, rs, c, fcfg) && OwnFunder(fcfg.policy) && i < |rs| && Labelled(rs, |agents|)
    ensures rs[i].operator.Some? && rs[i].operator.value < |agents|
    ensures var t := DrawRoster(f, fcfg, Hubs(agents));
      && Triggers(f, fcfg, t, rs, i)
      && FunderAt(f, fcfg, t, rs, i) == Funder(WalletOf(f, fcfg, agents, rs[i].operator.value), rs[i].operator)
  {
    BasePays(w, f, ext, agents, rs, c, fcfg, i);
    LabelledResolvable(fcfg, rs, |agents|);
    BaseFunder(w, f, ext, agents, rs, c, fcfg, i);
  }

  /** Under every policy, each funding record is an edge of the inferred funding graph. */
  lemma SuffixOnFundingGraph(f: Stream, fcfg: FundingConfig, rs: Ledger, hubs: seq<AccountId>, e: TxRecord)
    requires Resolvable(fcfg, rs, |hubs|) && e in Suffix(f, fcfg, rs, hubs)
    ensures e.source != e.dest && e.feePayer == e.source && e.dest in FeePayers(rs)
    ensures e.dest in Children(rs + Suffix(f, fcfg, rs, hubs), e.source)
  {
    hide Suffix, Funded, DrawRoster, FunderFor, Children, FeePayers, Sources;
    var t, es := DrawRoster(f, fcfg, hubs), Suffix(f, fcfg, rs, hubs);
    SuffixFundsExactly(f, fcfg, rs, hubs);
    var i :| 0 <= i < |rs| && FundedBy(f, fcfg, t, rs, i, e);
    assert e in rs + es && rs[i] in rs && rs[i] in rs + es;
    Listed(rs, rs[i]);
    Listed(rs + es, rs[i]);
    Listed(rs + es, e);
  }

  function OpPayers(rs: Ledger, op: AgentId): set<AccountId> {
    set r | r in rs && r.operator == Some(op) :: r.feePayer
  }

  function OpSources(rs: Ledger, op: AgentId): set<AccountId> {
    set r | r in rs && r.operator == Some(op) :: r.source
  }

  /** The suffix pairs each operator's wallet with exactly its operator's throwaways. */
  ghost predicate SuffixOf(f: Stream, fcfg: FundingConfig, agents: seq<Agent>, rs: Ledger, es: seq<TxRecord>) {
    && (forall r :: r in rs ==> r.operator.Some? && r.operator.value < |agents| && exists e :: e in es && Pays(f, fcfg, agents, e, r))
    && (forall e :: e in es ==> exists r :: r in rs && r.operator.Some? && r.operator.value < |agents| && Pays(f, fcfg, agents, e, r))
  }

  /** `e` funds the fee-payer of `r` out of the wallet of its operator. */
  predicate Pays(f: Stream, fcfg: FundingConfig, agents: seq<Agent>, e: TxRecord, r: TxRecord) {
    && r.operator.Some? && r.operator.value < |agents|
    && e.dest == r.feePayer && e.operator == r.operator
    && e.source == e.feePayer == WalletOf(f, fcfg, agents, r.operator.value)
  }

  lemma SuffixPays(w: Stream, f: Stream, ext: seq<AccountId>, agents: seq<Agent>, rs: Ledger, c: Rng,
      fcfg: FundingConfig)
    requires Base(w, f, ext, agents, rs, c, fcfg) && OwnFunder(fcfg.policy) && Labelled(rs, |agents|)
    ensures SuffixOf(f, fcfg, agents, rs, Suffix(f, fcfg, rs, Hubs(agents)))
  {
    hide Base, Suffix, Pays, FundsExactly;
    var es := Suffix(f, fcfg, rs, Hubs(agents));
    SuffixFundsExactly(f, fcfg, rs, Hubs(agents));
    forall r | r in rs ensures r.operator.Some? && r.operator.value < |agents| && exists e :: e in es && Pays(f, fcfg, agents, e, r) {
      var i :| 0 <= i < |rs| && rs[i] == r;
      RecordPaid(w, f, ext, agents, rs, c, fcfg, es, i);
    }
    forall e | e in es
      ensures exists r :: r in rs && r.operator.Some? && r.operator.value < |agents| && Pays(f, fcfg, agents, e, r)
    {
      var i := EventPays(w, f, ext, agents, rs, c, fcfg, es, e);
      assert rs[i] in rs;
    }
  }

  lemma RecordPaid(w: Stream, f: Stream, ext: seq<AccountId>, agents: seq<Agent>, rs: Ledger, c: Rng,
      fcfg: FundingConfig, es: seq<TxRecord>, i: nat)
    requires Base(w, f, ext, agents, rs, c, fcfg) && OwnFunder(fcfg.policy) && Labelled(rs, |agents|) && i < |rs|
    requires FundsExactly(f, fcfg, DrawRoster(f, fcfg, Hubs(agents)), rs, |rs|, es)
    ensures rs[i].operator.Some? && rs[i].operator.value < |agents|
    ensures exists e :: e in es && Pays(f, fcfg, agents, e, rs[i])
  {
    hide Base, Triggers, FunderAt, DrawRoster;
    AllTrigger(w, f, ext, agents, rs, c, fcfg, i);
    var e :| e in es && FundedBy(f, fcfg, DrawRoster(f, fcfg, Hubs(agents)), rs, i, e);
    assert Pays(f, fcfg, agents, e, rs[i]);
  }

  lemma EventPays(w: Stream, f: Stream, ext: seq<AccountId>, agents: seq<Agent>, rs: Ledger, c: Rng,
      fcfg: FundingConfig, es: seq<TxRecord>, e: TxRecord)
    returns (i: nat)
    requires Base(w, f, ext, agents, rs, c, fcfg) && OwnFunder(fcfg.policy) && Labelled(rs, |agents|) && e in es
    requires FundsExactly(f, fcfg, DrawRoster(f, fcfg, Hubs(agents)), rs, |rs|, es)
    ensures i < |rs| && rs[i].operator.Some? && rs[i].operator.value < |agents| && Pays(f, fcfg, agents, e, rs[i])
  {
    hide Base, Triggers, FunderAt, DrawRoster;
    i :| 0 <= i < |rs| && FundedBy(f, fcfg, DrawRoster(f, fcfg, Hubs(agents)), rs, i, e);
    AllTrigger(w, f, ext, agents, rs, c, fcfg, i);
  }

  /** The funder graph sees exactly an operator's throwaways below its wallet. */
  lemma WalletChildren(w: Stream, f: Stream, ext: seq<AccountId>, agents: seq<Agent>, rs: Ledger, c: Rng,
      fcfg: FundingConfig, es: seq<TxRecord>, op: AgentId)
    requires Base(w, f, ext, agents, rs, c, fcfg) && OwnFunder(fcfg.policy) && op < |agents| && SuffixOf(f, fcfg, agents, rs, es)
    ensures Children(rs + es, WalletOf(f, fcfg, agents, op)) == OpPayers(rs, op)
  {
    WalletsApart(w, f, ext, agents, rs, c, fcfg);
    hide Base, WalletOf, FeePayers, SuffixOf;
    var out, wallet := rs + es, WalletOf(f, fcfg, agents, op);
    forall a | a in Children(out, wallet) ensures a in OpPayers(rs, op) {
      var r :| r in out && r.source == wallet && r.source != r.dest && r.dest in FeePayers(out) && r.dest == a;
      ChildIsPayer(w, f, ext, agents, rs, c, fcfg, es, op, r);
    }
    forall a | a in OpPayers(rs, op) ensures a in Children(out, wallet) {
      var r :| r in rs && r.operator == Some(op) && r.feePayer == a;
      PayerIsChild(w, f, ext, agents, rs, c, fcfg, es, op, r);
    }
  }

  lemma PayerIsChild(w: Stream, f: Stream, ext: seq<AccountId>, agents: seq<Agent>, rs: Ledger, c: Rng,
      fcfg: FundingConfig, es: seq<TxRecord>, op: AgentId, r: TxRecord)
    requires Base(w, f, ext, agents, rs, c, fcfg) && OwnFunder(fcfg.policy) && op < |agents| && SuffixOf(f, fcfg, agents, rs, es)
    requires r in rs && r.operator == Some(op)
    ensures r.feePayer in Children(rs + es, WalletOf(f, fcfg, agents, op))
  {
    hide Base, WalletOf, FeePayers, Sources, Children, Labelled;
    WalletsApart(w, f, ext, agents, rs, c, fcfg);
    var e :| e in es && Pays(f, fcfg, agents, e, r);
    hide SuffixOf;
    assert r in rs + es && e in rs + es;
    Listed(rs + es, r);
    Listed(rs + es, e);
  }

  lemma Listed(rs: Ledger, r: TxRecord)
    requires r in rs
    ensures r.feePayer in FeePayers(rs) && r.source in Sources(rs)
    ensures r.source != r.dest && r.dest in FeePayers(rs) ==> r.dest in Children(rs, r.source)
  {
  }

  lemma ChildIsPayer(w: Stream, f: Stream, ext: seq<AccountId>, agents: seq<Agent>, rs: Ledger, c: Rng,
      fcfg: FundingConfig, es: seq<TxRecord>, op: AgentId, r: TxRecord)
    requires Base(w, f, ext, agents, rs, c, fcfg) && OwnFunder(fcfg.policy) && op < |agents| && SuffixOf(f, fcfg, agents, rs, es)
    requires r in rs + es && r.source == WalletOf(f, fcfg, agents, op) && r.source != r.dest && r.dest in FeePayers(rs + es)
    ensures r.dest in OpPayers(rs, op)
  {
    hide Base, WalletOf;
    WalletsApart(w, f, ext, agents, rs, c, fcfg);
    if r in es {
      var b :| b in rs && b.operator.Some? && b.operator.value < |agents| && Pays(f, fcfg, agents, r, b);
    } else {
      var i :| 0 <= i < |rs| && rs[i] == r;
      WalletQuiet(w, f, ext, agents, rs, c, fcfg, i, op);
    }
  }

  /** What those throwaways served is exactly what the operator signed with. */
  lemma WalletReached(w: Stream, f: Stream, ext: seq<AccountId>, agents: seq<Agent>, rs: Ledger, c: Rng,
      fcfg: FundingConfig, es: seq<TxRecord>, op: AgentId)
    requires Base(w, f, ext, agents, rs, c, fcfg) && OwnFunder(fcfg.policy) && op < |agents| && SuffixOf(f, fcfg, agents, rs, es)
    ensures Reached(rs + es, OpPayers(rs, op)) == OpSources(rs, op)
  {
    var out := rs + es;
    PaidOnce(w, f, ext, agents, rs, c, fcfg);
    hide Base, WalletOf;
    forall a | a in Reached(out, OpPayers(rs, op)) ensures a in OpSources(rs, op) {
      var r :| r in out && r.feePayer != r.source && r.feePayer in OpPayers(rs, op) && r.source == a;
      assert r in rs;
    }
    forall a | a in OpSources(rs, op) ensures a in Reached(out, OpPayers(rs, op)) {
      var r :| r in rs && r.operator == Some(op) && r.source == a;
      assert r in out;
    }
  }

  lemma PaidOnce(w: Stream, f: Stream, ext: seq<AccountId>, agents: seq<Agent>, rs: Ledger, c: Rng,
      fcfg: FundingConfig)
    requires Base(w, f, ext, agents, rs, c, fcfg)
    ensures forall q, r :: q in rs && r in rs && q.feePayer == r.feePayer ==> q == r
    ensures forall r :: r in rs ==> r.feePayer != r.source
  {
  }

  /** Enough throwaways and a bounded number of sources, for every operator that ever acts. */
  predicate Visible(rs: Ledger, adv: AdversaryConfig, op: AgentId) {
    |OpPayers(rs, op)| >= adv.funderMinFundees && 2 <= |OpSources(rs, op)| <= adv.funderMaxSources
  }

  lemma WalletEdge(out: Ledger, adv: AdversaryConfig, wallet: AccountId, payers: set<AccountId>,
      sources: set<AccountId>, s: AccountId)
    requires wallet in Sources(out) && Children(out, wallet) == payers && Reached(out, payers) == sources && s in sources
    requires |payers| >= adv.funderMinFundees && 2 <= |sources| <= adv.funderMaxSources
    ensures (wallet, s) in FunderEdges(out, adv)
  {
  }

  lemma WalletSigns(f: Stream, fcfg: FundingConfig, agents: seq<Agent>, rs: Ledger, es: seq<TxRecord>, r: TxRecord)
    requires SuffixOf(f, fcfg, agents, rs, es) && r in rs
    ensures r.operator.Some? && r.operator.value < |agents| && WalletOf(f, fcfg, agents, r.operator.value) in Sources(rs + es)
  {
    hide Sources, WalletOf;
    var e :| e in es && Pays(f, fcfg, agents, e, r);
    Listed(rs + es, e);
  }

  /** The funder rule ties every labelled source to its operator's wallet. */
  lemma WalletLinks(w: Stream, f: Stream, ext: seq<AccountId>, agents: seq<Agent>, rs: Ledger, c: Rng,
      fcfg: FundingConfig,
                    es: seq<TxRecord>, on: RuleSet, adv: AdversaryConfig, r: TxRecord)
    requires Base(w, f, ext, agents, rs, c, fcfg) && OwnFunder(fcfg.policy) && SuffixOf(f, fcfg, agents, rs, es)
    requires on.funderGraph && r in rs + es && r.operator.Some?
    requires forall b :: b in rs && b.operator.Some? ==> Visible(rs, adv, b.operator.value)
    ensures r.operator.value < |agents|
    ensures Connected(RuleEdges(rs + es, on, adv), r.source, WalletOf(f, fcfg, agents, r.operator.value))
  {
    hide Base, RuleEdges, OpPayers, OpSources, Children, Reached, Connected, FunderEdges, Sources, WalletOf;
    if r in es {
      Refl(RuleEdges(rs + es, on, adv), r.source);
    } else {
      var op := r.operator.value;
      WalletSigns(f, fcfg, agents, rs, es, r);
      hide SuffixOf;
      var wallet := WalletOf(f, fcfg, agents, op);
      WalletChildren(w, f, ext, agents, rs, c, fcfg, es, op);
      WalletReached(w, f, ext, agents, rs, c, fcfg, es, op);
      InOpSources(rs, op, r);
      WalletEdge(rs + es, adv, wallet, OpPayers(rs, op), OpSources(rs, op), r.source);
      RuleLinks(rs + es, on, adv, (wallet, r.source));
    }
  }

  lemma InOpSources(rs: Ledger, op: AgentId, r: TxRecord)
    requires r in rs && r.operator == Some(op)
    ensures r.source in OpSources(rs, op)
  {
  }

  lemma CookerLedger(world: World, personas: seq<Persona>, cfg: SimConfig)
    requires Accepted(world, personas, cfg) && cfg.mode == Cooker && DistinctRun(world, personas, cfg)
    ensures var (w, g) := (Actions(world, cfg), Golden(world, personas, cfg));
      CookerRun(w, FreshSetup(w, personas, cfg).externals, g.agents, g.chain.records, g.rng)
  {
    var w := Actions(world, cfg);
    FreshEntriesMatch(w, personas, cfg);
    FinishAdvances(w, FreshSetup(w, personas, cfg), FreshRun(w, personas, cfg));
    DistinctBefore(w, FreshRun(w, personas, cfg).rng, Golden(world, personas, cfg).rng);
    FreshCooker(w, personas, cfg);
    FinishCooker(w, FreshSetup(w, personas, cfg), FreshRun(w, personas, cfg));
  }

  lemma FundedLedger(world: World, personas: seq<Persona>, cfg: SimConfig)
    requires Accepted(world, personas, cfg) && cfg.mode == Cooker && cfg.funding.Some?
    ensures var g := Golden(world, personas, cfg);
      && Labelled(g.chain.records, |g.agents|)
      && Simulate(world, personas, cfg) ==
           g.chain.records + Suffix(world.fundings(cfg.seed, cfg.mode), cfg.funding.value, g.chain.records, Hubs(g.agents))
  {
    hide Golden, Suffix;
    GoldenSigned(world, personas, cfg);
  }

  /** Wallets that are drawn at all are distinct, and not among the identifiers of the run itself. */
  ghost predicate DistinctWallets(world: World, personas: seq<Persona>, cfg: SimConfig)
    requires Accepted(world, personas, cfg) && cfg.funding.Some?
  {
    var g := Golden(world, personas, cfg);
    FreshWallets(Actions(world, cfg), g.rng, world.fundings(cfg.seed, cfg.mode), |g.agents|, cfg.funding.value)
  }

  /** The funder graph misses no pair of any run whose throwaways are funded from owned wallets. */
  lemma OwnFundedFullyRecovered(world: World, personas: seq<Persona>, cfg: SimConfig, on: RuleSet,
      adv: AdversaryConfig, c: Clustering)
    requires Accepted(world, personas, cfg) && cfg.mode == Cooker && cfg.funding.Some? && OwnFunder(cfg.funding.value.policy)
    requires DistinctRun(world, personas, cfg) && DistinctWallets(world, personas, cfg)
    requires on.funderGraph
    requires var base := Golden(world, personas, cfg).chain.records;
      forall b :: b in base && b.operator.Some? ==> Visible(base, adv, b.operator.value)
    requires var rs := Simulate(world, personas, cfg); IsClustering(c, Accounts(rs), RuleEdges(rs, on, adv))
    ensures Enumerated(Ownership(Simulate(world, personas, cfg)), c.clusterOf).fn == 0
  {
    hide IsClustering, RuleEdges, Enumerated, Ownership, Golden, Simulate, CookerRun, DistinctIds, StreamsApart, Suffix, Visible;
    var w, f, g := Actions(world, cfg), world.fundings(cfg.seed, cfg.mode), Golden(world, personas, cfg);
    CookerLedger(world, personas, cfg);
    FundedLedger(world, personas, cfg);
    var ext, es := FreshSetup(w, personas, cfg).externals, Suffix(f, cfg.funding.value, g.chain.records, Hubs(g.agents));
    SuffixPays(w, f, ext, g.agents, g.chain.records, g.rng, cfg.funding.value);
    WalletsRecover(w, f, ext, g.agents, g.chain.records, g.rng, cfg.funding.value, es, on, adv, c);
  }

  lemma WalletsRecover(w: Stream, f: Stream, ext: seq<AccountId>, agents: seq<Agent>, rs: Ledger, p: Rng,
      fcfg: FundingConfig,
                       es: seq<TxRecord>, on: RuleSet, adv: AdversaryConfig, c: Clustering)
    requires Base(w, f, ext, agents, rs, p, fcfg) && OwnFunder(fcfg.policy) && SuffixOf(f, fcfg, agents, rs, es)
    requires on.funderGraph && forall b :: b in rs && b.operator.Some? ==> Visible(rs, adv, b.operator.value)
    requires IsClustering(c, Accounts(rs + es), RuleEdges(rs + es, on, adv))
    ensures Enumerated(Ownership(rs + es), c.clusterOf).fn == 0
  {
    hide Base, SuffixOf, IsClustering, RuleEdges, Enumerated, Ownership, Visible, Connected;
    var hub := (op: AgentId) => if op < |agents| then WalletOf(f, fcfg, agents, op) else 0;
    forall r: TxRecord | r in rs + es && r.operator.Some?
      ensures Connected(RuleEdges(rs + es, on, adv), r.source, hub(r.operator.value))
    {
      WalletLinks(w, f, ext, agents, rs, p, fcfg, es, on, adv, r);
    }
    StarRecovers(rs + es, RuleEdges(rs + es, on, adv), c, hub);
  }
}
