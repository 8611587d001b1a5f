/** The funding post-pass: where the throwaway fee-payers' lamports come from. */
module Funding {
  import opened Types
  import opened Streams
  import opened Sorting
  import opened Engine
  import opened EventLoop

  /** Who funds, and the ground-truth label of the transfer: none for a third-party relayer. */
  datatype Funder = Funder(account: AccountId, owner: Option<AgentId>)

  /** The draws made once: the relayer pool and one funder per operator. */
  datatype Roster = Roster(relayers: seq<AccountId>, funders: seq<Funder>, rng: Rng)

  datatype Progress = Progress(funded: set<AccountId>, events: seq<TxRecord>, rng: Rng)

  /** Operator identifiers are the agents' positions, so the hub map is a sequence. */
  function Hubs(agents: seq<Agent>): (hs: seq<AccountId>)
    ensures |hs| == |agents|
  {
    seq<AccountId>(|agents|, a requires 0 <= a < |agents| => agents[a].main)
  }

  function PoolSize(policy: FundingPolicy): nat {
    match policy
    case SharedRelayers(k) => Max(k, 1)
    case _ => 0
  }

  /** A relayer is drawn for every event instead of once per operator. */
  predicate PerEvent(fcfg: FundingConfig) {
    fcfg.policy.SharedRelayers? && !fcfg.sticky
  }

  /** Funders of the first `n` operators, drawn in ascending order of operator. */
  function AssignFunders(w: Stream, fcfg: FundingConfig, relayers: seq<AccountId>, hubs: seq<AccountId>, n: nat,
      rng: Rng):
    (r: (seq<Funder>, Rng))
    requires n <= |hubs| && (fcfg.policy.SharedRelayers? ==> relayers != [])
    ensures |r.0| == n
    ensures fcfg.policy == OperatorHub ==> forall o :: 0 <= o < n ==> r.0[o] == Funder(hubs[o], Some(o))
    ensures fcfg.policy == DedicatedFunder ==> forall o :: 0 <= o < n ==> r.0[o] == Funder(w.id(rng + o), Some(o))
    ensures fcfg.policy == DedicatedFunder ==> r.1 == rng + n
    ensures fcfg.policy.SharedRelayers? ==> forall o :: 0 <= o < n ==> r.0[o].account in relayers && r.0[o].owner == None
    ensures fcfg.policy.SharedRelayers? && fcfg.sticky ==>
      && r.1 == rng + n
      && forall o :: 0 <= o < n ==> r.0[o].account == relayers[Index(w, rng + o, |relayers|)]
    ensures fcfg.policy == OperatorHub || PerEvent(fcfg) ==> r.1 == rng
    decreases n
  {
    if n == 0 then ([], rng)
    else
      var (fs, rng1) := AssignFunders(w, fcfg, relayers, hubs, n - 1, rng);
      match fcfg.policy
      case OperatorHub => (fs + [Funder(hubs[n - 1], Some(n - 1))], rng1)
      case DedicatedFunder => (fs + [Funder(w.id(rng1), Some(n - 1))], rng1 + 1)
      case SharedRelayers(_) =>
        if fcfg.sticky then (fs + [Funder(relayers[Index(w, rng1, |relayers|)], None)], rng1 + 1)
        else (fs + [Funder(relayers[0], None)], rng1)
  }

  function DrawRoster(w: Stream, fcfg: FundingConfig, hubs: seq<AccountId>): (r: Roster)
    ensures |r.funders| == |hubs| && |r.relayers| == PoolSize(fcfg.policy)
  {
    var relayers := DrawIds(w, 0, PoolSize(fcfg.policy));
    var (funders, rng) := AssignFunders(w, fcfg, relayers, hubs, |hubs|, PoolSize(fcfg.policy));
    Roster(relayers, funders, rng)
  }

  /** Every label names one of the first `n` operators. */
  predicate Labelled(rs: Ledger, n: nat) {
    forall i :: 0 <= i < |rs| && rs[i].operator.Some? ==> rs[i].operator.value < n
  }

  /** Record `i` is the first that `i`'s fee-payer pays for. */
  ghost predicate FirstUse(rs: Ledger, i: nat) {
    i < |rs| && forall j :: 0 <= j < i ==> rs[j].feePayer != rs[i].feePayer
  }

  /** The operators that are looked up are known; the original's map lookup panics otherwise. */
  ghost predicate Resolvable(fcfg: FundingConfig, rs: Ledger, n: nat) {
    PerEvent(fcfg) || forall i :: 0 <= i < |rs| && FirstUse(rs, i) && rs[i].feePayer !in Sources(rs) && rs[i].operator.Some? ==>
      rs[i].operator.value < n
  }

  lemma LabelledResolvable(fcfg: FundingConfig, rs: Ledger, n: nat)
    requires Labelled(rs, n)
    ensures Resolvable(fcfg, rs, n)
  {
  }

  /**
   * Who funds a fee-payer first used by operator `op`, and the position after drawing it. Unknown
   * operators are looked up on no resolvable ledger.
   */
  function FunderFor(w: Stream, fcfg: FundingConfig, t: Roster, op: AgentId, rng: Rng): (Funder, Rng)
    requires PerEvent(fcfg) ==> t.relayers != []
  {
    if PerEvent(fcfg) then (Funder(t.relayers[Index(w, rng, |t.relayers|)], None), rng + 1)
    else if op < |t.funders| then (t.funders[op], rng)
    else (Funder(0, None), rng)
  }

  function FundingEvent(w: Stream, fcfg: FundingConfig, r: TxRecord, f: Funder, rng: Rng): TxRecord {
    var lead := Range(w, rng, fcfg.leadMinSecs, Max(fcfg.leadMaxSecs, fcfg.leadMinSecs));
    var amount := Range(w, rng + 1, fcfg.topupMin, Max(fcfg.topupMax, fcfg.topupMin));
    TxRecord(0, 0, r.ts - lead, f.account, f.account, r.feePayer, amount, Transfer, f.owner)
  }

  /** One record of the base ledger. A fee-payer is marked before its label is looked at. */
  function FundStep(w: Stream, fcfg: FundingConfig, t: Roster, sources: set<AccountId>, p: Progress,
      r: TxRecord): Progress
    requires PerEvent(fcfg) ==> t.relayers != []
  {
    if r.feePayer in sources || r.feePayer in p.funded then p
    else
      var p1 := p.(funded := p.funded + {r.feePayer});
      match r.operator
      case None => p1
      case Some(op) =>
        var (f, rng) := FunderFor(w, fcfg, t, op, p.rng);
        if f.account == r.feePayer then p1.(rng := rng)
        else p1.(events := p.events + [FundingEvent(w, fcfg, r, f, rng)], rng := rng + 2)
  }

  function Funded(w: Stream, fcfg: FundingConfig, t: Roster, rs: Ledger, n: nat): Progress
    requires n <= |rs| && Resolvable(fcfg, rs, |t.funders|) && (PerEvent(fcfg) ==> t.relayers != [])
    decreases n
  {
    if n == 0 then Progress({}, [], t.rng)
    else FundStep(w, fcfg, t, Sources(rs), Funded(w, fcfg, t, rs, n - 1), rs[n - 1])
  }

  predicate Earlier(a: TxRecord, b: TxRecord) {
    a.ts < b.ts || (a.ts == b.ts && a.dest <= b.dest)
  }

  function ByTimeAndDest(): (TxRecord, TxRecord) -> bool {
    (a, b) => Earlier(a, b)
  }

  function MaxSig(rs: Ledger): (m: nat)
    ensures forall r :: r in rs ==> r.sig <= m
    ensures m == 0 || exists r :: r in rs && r.sig == m
  {
    if rs == [] then 0
    else
      assert rs == rs[..|rs| - 1] + [rs[|rs| - 1]];
      Max(MaxSig(rs[..|rs| - 1]), rs[|rs| - 1].sig)
  }

  function MaxSlot(rs: Ledger): (m: nat)
    ensures forall r :: r in rs ==> r.slot <= m
    ensures m == 0 || exists r :: r in rs && r.slot == m
  {
    if rs == [] then 0
    else
      assert rs == rs[..|rs| - 1] + [rs[|rs| - 1]];
      Max(MaxSlot(rs[..|rs| - 1]), rs[|rs| - 1].slot)
  }

  /** The events numbered on from the given counters. */
  function Stamp(events: seq<TxRecord>, sig: nat, slot: nat): (s: seq<TxRecord>)
    ensures |s| == |events|
    ensures forall i :: 0 <= i < |s| ==> s[i] == events[i].(sig := sig + 1 + i, slot := slot + 1 + i)
  {
    seq(|events|, i requires 0 <= i < |events| => events[i].(sig := sig + 1 + i, slot := slot + 1 + i))
  }

  function Suffix(w: Stream, fcfg: FundingConfig, rs: Ledger, hubs: seq<AccountId>): seq<TxRecord>
    requires Resolvable(fcfg, rs, |hubs|)
  {
    var t := DrawRoster(w, fcfg, hubs);
    Stamp(SortBy(Funded(w, fcfg, t, rs, |rs|).events, ByTimeAndDest()), MaxSig(rs), MaxSlot(rs))
  }

  /** The post-pass finds every operator it looks up. */
  ghost predicate Fundable(rs: Ledger, n: nat, cfg: SimConfig) {
    cfg.funding.Some? && cfg.mode != Naive ==> Resolvable(cfg.funding.value, rs, n)
  }

  /** No funding is modelled without a policy, nor for the naive mode, whose payer always exists. */
  function ApplyFunding(w: Stream, rs: Ledger, hubs: seq<AccountId>, cfg: SimConfig): (out: Ledger)
    requires Fundable(rs, |hubs|, cfg)
    ensures rs <= out
    ensures cfg.funding == None || cfg.mode == Naive ==> out == rs
  {
    match cfg.funding
    case None => rs
    case Some(fcfg) => if cfg.mode == Naive then rs else rs + Suffix(w, fcfg, rs, hubs)
  }

  // ---- the loops ----

  /** The post-pass as the original runs it. */
  method Fund(w: Stream, ledger: Ledger, hubs: seq<AccountId>, cfg: SimConfig) returns (out: Ledger)
    requires Fundable(ledger, |hubs|, cfg)
    ensures out == ApplyFunding(w, ledger, hubs, cfg)
  {
    hide Funded, DrawRoster, SortBy, MaxSig, MaxSlot, Resolvable;
    out := ledger;
    if cfg.funding == None || cfg.mode == Naive {
      return;
    }
    var fcfg := cfg.funding.value;
    var t := DrawRoster(w, fcfg, hubs);
    var events := FundFirstUses(w, fcfg, t, ledger);
    events := SortBy(events, ByTimeAndDest());
    var sig, slot := MaxSig(ledger), MaxSlot(ledger);
    for i := 0 to |events|
      invariant sig == MaxSig(ledger) + i && slot == MaxSlot(ledger) + i
      invariant out == ledger + Stamp(events, MaxSig(ledger), MaxSlot(ledger))[..i]
    {
      sig, slot := sig + 1, slot + 1;
      out := out + [events[i].(sig := sig, slot := slot)];
    }
  }

  method FundFirstUses(w: Stream, fcfg: FundingConfig, t: Roster, ledger: Ledger) returns (events: seq<TxRecord>)
    requires Resolvable(fcfg, ledger, |t.funders|) && (PerEvent(fcfg) ==> t.relayers != [])
    ensures events == Funded(w, fcfg, t, ledger, |ledger|).events
  {
    var sources := Sources(ledger);
    var funded: set<AccountId> := {};
    var rng := t.rng;
    events := [];
    for n := 0 to |ledger|
      invariant Progress(funded, events, rng) == Funded(w, fcfg, t, ledger, n)
    {
      var r := ledger[n];
      if r.feePayer in sources || r.feePayer in funded { continue; }
      funded := funded + {r.feePayer};
      if r.operator.None? { continue; }
      FundedMarks(w, fcfg, t, ledger, n);
      var f;
      if PerEvent(fcfg) {
        f := Funder(t.relayers[Index(w, rng, |t.relayers|)], None);
        rng := rng + 1;
      } else {
        assert FirstUse(ledger, n);
        f := t.funders[r.operator.value];
      }
      if f.account == r.feePayer { continue; }
      events := events + [FundingEvent(w, fcfg, r, f, rng)];
      rng := rng + 2;
    }
  }

  // ---- exactly once, at the first use ----

  /** The funder consulted when record `i` is reached. */
  function FunderAt(w: Stream, fcfg: FundingConfig, t: Roster, rs: Ledger, i: nat): Funder
    requires i < |rs| && Resolvable(fcfg, rs, |t.funders|) && (PerEvent(fcfg) ==> t.relayers != [])
  {
    match rs[i].operator
    case None => Funder(0, None)
    case Some(op) => FunderFor(w, fcfg, t, op, Funded(w, fcfg, t, rs, i).rng).0
  }

  /** Record `i` makes its fee-payer be funded: first use, not a source, labelled, another funder. */
  ghost predicate Triggers(w: Stream, fcfg: FundingConfig, t: Roster, rs: Ledger, i: nat)
    requires Resolvable(fcfg, rs, |t.funders|) && (PerEvent(fcfg) ==> t.relayers != [])
  {
    && FirstUse(rs, i) && rs[i].feePayer !in Sources(rs)
    && rs[i].operator.Some? && FunderAt(w, fcfg, t, rs, i).account != rs[i].feePayer
  }

  /** `e` funds the fee-payer of record `r` from `f`, ahead of its use and within the ranges. */
  predicate FundsUse(fcfg: FundingConfig, e: TxRecord, r: TxRecord, f: Funder) {
    && e.dest == r.feePayer && e.source == e.feePayer == f.account && e.operator == f.owner && e.kind == Transfer
    && fcfg.leadMinSecs <= r.ts - e.ts <= Max(fcfg.leadMaxSecs, fcfg.leadMinSecs)
    && fcfg.topupMin <= e.amount <= Max(fcfg.topupMax, fcfg.topupMin)
  }

  /** `e` is the funding that record `i` triggers. */
  ghost predicate FundedBy(w: Stream, fcfg: FundingConfig, t: Roster, rs: Ledger, i: nat, e: TxRecord)
    requires i < |rs| && Resolvable(fcfg, rs, |t.funders|) && (PerEvent(fcfg) ==> t.relayers != [])
  {
    Triggers(w, fcfg, t, rs, i) && FundsUse(fcfg, e, rs[i], FunderAt(w, fcfg, t, rs, i))
  }

  /** `es` funds each triggering record before `n` exactly once and nothing else. */
  ghost predicate FundsExactly(w: Stream, fcfg: FundingConfig, t: Roster, rs: Ledger, n: nat, es: seq<TxRecord>)
    requires n <= |rs| && Resolvable(fcfg, rs, |t.funders|) && (PerEvent(fcfg) ==> t.relayers != [])
  {
    && (forall j, k :: 0 <= j < k < |es| ==> es[j].dest != es[k].dest)
    && (forall i :: 0 <= i < n && Triggers(w, fcfg, t, rs, i) ==> exists e :: e in es && FundedBy(w, fcfg, t, rs, i, e))
    && (forall e :: e in es ==> exists i :: 0 <= i < n && FundedBy(w, fcfg, t, rs, i, e))
  }

  lemma {:induction false} FundedMarks(w: Stream, fcfg: FundingConfig, t: Roster, rs: Ledger, n: nat)
    requires n <= |rs| && Resolvable(fcfg, rs, |t.funders|) && (PerEvent(fcfg) ==> t.relayers != [])
    ensures forall a :: a in Funded(w, fcfg, t, rs, n).funded <==>
      a !in Sources(rs) && exists j :: 0 <= j < n && rs[j].feePayer == a
    decreases n
  {
    if n > 0 {
      FundedMarks(w, fcfg, t, rs, n - 1);
      var before, after := Funded(w, fcfg, t, rs, n - 1).funded, Funded(w, fcfg, t, rs, n).funded;
      assert rs[n - 1].feePayer !in Sources(rs) ==> after == before + {rs[n - 1].feePayer};
      assert rs[n - 1].feePayer in Sources(rs) ==> after == before;
    }
  }

  /** One step funds the fee-payer of its record, or changes no event. */
  lemma StepFunds(w: Stream, fcfg: FundingConfig, t: Roster, rs: Ledger, n: nat)
    requires 0 < n <= |rs| && Resolvable(fcfg, rs, |t.funders|) && (PerEvent(fcfg) ==> t.relayers != [])
    ensures StepAdds(w, fcfg, t, rs, n, Funded(w, fcfg, t, rs, n - 1).events, Funded(w, fcfg, t, rs, n).events)
  {
    FundedMarks(w, fcfg, t, rs, n - 1);
    var p, r := Funded(w, fcfg, t, rs, n - 1), rs[n - 1];
    assert r.feePayer !in Sources(rs) ==> (r.feePayer in p.funded <==> !FirstUse(rs, n - 1));
    if Triggers(w, fcfg, t, rs, n - 1) {
      var (f, rng) := FunderFor(w, fcfg, t, r.operator.value, p.rng);
      var e := FundingEvent(w, fcfg, r, f, rng);
      assert Funded(w, fcfg, t, rs, n).events == p.events + [e];
      assert FundedBy(w, fcfg, t, rs, n - 1, e);
    }
  }

  ghost predicate StepAdds(w: Stream, fcfg: FundingConfig, t: Roster, rs: Ledger, n: nat, es: seq<TxRecord>,
      es': seq<TxRecord>)
    requires 0 < n <= |rs| && Resolvable(fcfg, rs, |t.funders|) && (PerEvent(fcfg) ==> t.relayers != [])
  {
    if Triggers(w, fcfg, t, rs, n - 1) then exists e :: es' == es + [e] && FundedBy(w, fcfg, t, rs, n - 1, e) else es' == es
  }

  /** Each fee-payer's first use decides alone whether, when and by whom it is funded. */
  lemma {:induction false} FundedExactlyOnce(w: Stream, fcfg: FundingConfig, t: Roster, rs: Ledger, n: nat)
    requires n <= |rs| && Resolvable(fcfg, rs, |t.funders|) && (PerEvent(fcfg) ==> t.relayers != [])
    ensures FundsExactly(w, fcfg, t, rs, n, Funded(w, fcfg, t, rs, n).events)
    decreases n
  {
    hide FundsExactly, StepAdds, Funded, Resolvable;
    if n == 0 {
      NoneFunded(w, fcfg, t, rs);
    } else {
      FundedExactlyOnce(w, fcfg, t, rs, n - 1);
      StepFunds(w, fcfg, t, rs, n);
      ExactlyNext(w, fcfg, t, rs, n, Funded(w, fcfg, t, rs, n - 1).events, Funded(w, fcfg, t, rs, n).events);
    }
  }

  lemma NoneFunded(w: Stream, fcfg: FundingConfig, t: Roster, rs: Ledger)
    requires Resolvable(fcfg, rs, |t.funders|) && (PerEvent(fcfg) ==> t.relayers != [])
    ensures FundsExactly(w, fcfg, t, rs, 0, Funded(w, fcfg, t, rs, 0).events)
  {
  }

  lemma ExactlyNext(w: Stream, fcfg: FundingConfig, t: Roster, rs: Ledger, n: nat, es: seq<TxRecord>,
      es': seq<TxRecord>)
    requires 0 < n <= |rs| && Resolvable(fcfg, rs, |t.funders|) && (PerEvent(fcfg) ==> t.relayers != [])
    requires FundsExactly(w, fcfg, t, rs, n - 1, es) && StepAdds(w, fcfg, t, rs, n, es, es')
    ensures FundsExactly(w, fcfg, t, rs, n, es')
  {
    hide FunderAt, Resolvable;
    if Triggers(w, fcfg, t, rs, n - 1) {
      var e :| es' == es + [e] && FundedBy(w, fcfg, t, rs, n - 1, e);
      forall k | 0 <= k < |es| ensures es[k].dest != e.dest {
        assert es[k] in es;
      }
    }
  }

  /** Sorting and numbering change neither who is funded nor when. */
  lemma SuffixFundsExactly(w: Stream, fcfg: FundingConfig, rs: Ledger, hubs: seq<AccountId>)
    requires Resolvable(fcfg, rs, |hubs|)
    ensures FundsExactly(w, fcfg, DrawRoster(w, fcfg, hubs), rs, |rs|, Suffix(w, fcfg, rs, hubs))
  {
    var t := DrawRoster(w, fcfg, hubs);
    var es := Funded(w, fcfg, t, rs, |rs|).events;
    FundedExactlyOnce(w, fcfg, t, rs, |rs|);
    SortBySorts(es, ByTimeAndDest());
    var sorted := SortBy(es, ByTimeAndDest());
    DestsStayApart(es, sorted);
    RenumberedFunds(w, fcfg, t, rs, es, Suffix(w, fcfg, rs, hubs), sorted);
  }

  lemma DestsStayApart(es: seq<TxRecord>, sorted: seq<TxRecord>)
    requires multiset(es) == multiset(sorted)
    requires forall j, k :: 0 <= j < k < |es| ==> es[j].dest != es[k].dest
    ensures forall j, k :: 0 <= j < k < |sorted| ==> sorted[j].dest != sorted[k].dest
  {
    NoDupMultiset(es);
    NoDupMultiset(sorted);
    forall j, k | 0 <= j < k < |sorted| ensures sorted[j].dest != sorted[k].dest {
      assert sorted[j] in multiset(sorted) && sorted[k] in multiset(sorted);
      assert sorted[j] in es && sorted[k] in es;
    }
  }

  lemma RenumberedFunds(w: Stream, fcfg: FundingConfig, t: Roster, rs: Ledger, es: seq<TxRecord>,
      suffix: seq<TxRecord>, sorted: seq<TxRecord>)
    requires Resolvable(fcfg, rs, |t.funders|) && (PerEvent(fcfg) ==> t.relayers != [])
    requires FundsExactly(w, fcfg, t, rs, |rs|, es) && forall e :: e in sorted <==> e in es
    requires forall j, k :: 0 <= j < k < |sorted| ==> sorted[j].dest != sorted[k].dest
    requires |suffix| == |sorted|
    requires forall i :: 0 <= i < |sorted| ==> suffix[i] == sorted[i].(sig := suffix[i].sig, slot := suffix[i].slot)
    ensures FundsExactly(w, fcfg, t, rs, |rs|, suffix)
  {
    hide Triggers, FundedBy, Resolvable;
    forall i, k | 0 <= i < |rs| && 0 <= k < |sorted| && FundedBy(w, fcfg, t, rs, i, sorted[k])
      ensures suffix[k] in suffix && FundedBy(w, fcfg, t, rs, i, suffix[k])
    {
      RenumberedOne(w, fcfg, t, rs, i, sorted[k], suffix[k]);
    }
    forall i | 0 <= i < |rs| && Triggers(w, fcfg, t, rs, i)
      ensures exists e :: e in suffix && FundedBy(w, fcfg, t, rs, i, e)
    {
      var e :| e in es && FundedBy(w, fcfg, t, rs, i, e);
      var k :| 0 <= k < |sorted| && sorted[k] == e;
    }
    forall e | e in suffix ensures exists i :: 0 <= i < |rs| && FundedBy(w, fcfg, t, rs, i, e) {
      var k :| 0 <= k < |suffix| && suffix[k] == e;
      assert sorted[k] in es;
    }
  }

  lemma RenumberedOne(w: Stream, fcfg: FundingConfig, t: Roster, rs: Ledger, i: nat, e: TxRecord, e': TxRecord)
    requires i < |rs| && Resolvable(fcfg, rs, |t.funders|) && (PerEvent(fcfg) ==> t.relayers != [])
    requires FundedBy(w, fcfg, t, rs, i, e) && e' == e.(sig := e'.sig, slot := e'.slot)
    ensures FundedBy(w, fcfg, t, rs, i, e')
  {
  }

  /** The suffix is in time order, ties by destination, and its numbers continue the base ledger's. */
  lemma SuffixInOrder(w: Stream, fcfg: FundingConfig, rs: Ledger, hubs: seq<AccountId>)
    requires Resolvable(fcfg, rs, |hubs|)
    ensures var es := Suffix(w, fcfg, rs, hubs);
      && (forall j, k :: 0 <= j < k < |es| ==> es[j].ts < es[k].ts || (es[j].ts == es[k].ts && es[j].dest < es[k].dest))
      && (forall j :: 0 <= j < |es| ==> es[j].sig == MaxSig(rs) + 1 + j && es[j].slot == MaxSlot(rs) + 1 + j)
  {
    var es := Suffix(w, fcfg, rs, hubs);
    SuffixFundsExactly(w, fcfg, rs, hubs);
    var events := Funded(w, fcfg, DrawRoster(w, fcfg, hubs), rs, |rs|).events;
    var sorted := SortBy(events, ByTimeAndDest());
    SortBySorts(events, ByTimeAndDest());
    forall j, k | 0 <= j < k < |es|
      ensures es[j].ts < es[k].ts || (es[j].ts == es[k].ts && es[j].dest < es[k].dest)
    {
      assert ByTimeAndDest()(sorted[j], sorted[k]);
      assert es[j].dest != es[k].dest;
    }
  }

  // ---- a remark on unlabelled records ----

  /** One fee-payer pays for an unlabelled record and then for a labelled one. */
  function UnlabelledFirst(): Ledger {
    [TxRecord(1, 1, 10, 9, 1, 2, 1, Transfer, None), TxRecord(2, 2, 11, 9, 1, 2, 1, Transfer, Some(0))]
  }

  /** It is never funded, whoever would fund it. */
  lemma UnlabelledFirstUseUnfunded(w: Stream, fcfg: FundingConfig, hubs: seq<AccountId>)
    requires Resolvable(fcfg, UnlabelledFirst(), |hubs|)
    ensures Suffix(w, fcfg, UnlabelledFirst(), hubs) == []
  {
    var t, rs := DrawRoster(w, fcfg, hubs), UnlabelledFirst();
    assert Sources(rs) == {1};
    assert Funded(w, fcfg, t, rs, 0) == Progress({}, [], t.rng);
    assert Funded(w, fcfg, t, rs, 1) == Progress({9}, [], t.rng);
    assert Funded(w, fcfg, t, rs, 2) == Progress({9}, [], t.rng);
  }
}
