/** What every run keeps, in every mode: numbering, time order, and who pays and owns what. */
module RunInvariants {
  import opened Types
  import opened Streams
  import opened Engine
  import opened EventLoop
  import opened Emissions

  // ---- numbering, in every mode ----

  /** Record `i` carries `i + 1` as signature and slot, and the counters say how many there are. */
  ghost predicate Stamped(c: Chain) {
    && c.sig == |c.records| && c.slot == |c.records|
    && forall i :: 0 <= i < |c.records| ==> c.records[i].sig == i + 1 && c.records[i].slot == i + 1
  }

  lemma {:induction false} StampedReaches(w: Stream, sh: Shape, ext: seq<AccountId>, x: Ctx, y: Ctx, n: nat)
    requires Reaches(w, sh, ext, x, y, n) && Stamped(x.chain)
    ensures Stamped(y.chain) && x.chain.records <= y.chain.records
    decreases n
  {
    hide Throwaway, FreshBoth, Outward;
    if n > 0 {
      var m :| Emits(w, sh, ext, x, m) && Reaches(w, sh, ext, m, y, n - 1);
      assert m.chain.records == x.chain.records + [Last(m.chain)];
      StampedReaches(w, sh, ext, m, y, n - 1);
    }
  }

  lemma {:induction false} ReachesAdvances(w: Stream, sh: Shape, ext: seq<AccountId>, x: Ctx, y: Ctx, n: nat)
    requires Reaches(w, sh, ext, x, y, n)
    ensures x.rng <= y.rng
    decreases n
  {
    hide Throwaway, FreshBoth, Outward;
    if n > 0 {
      var m :| Emits(w, sh, ext, x, m) && Reaches(w, sh, ext, m, y, n - 1);
      ReachesAdvances(w, sh, ext, m, y, n - 1);
    }
  }

  /** The generator only moves forward. */
  lemma WakeAdvances(w: Stream, s: Setup, r: Run)
    requires Consistent(s, r) && EntriesMatch(s) && !Done(s, r)
    ensures r.rng <= Wake(w, s, r).rng
  {
    hide Reaches;
    var si := Soonest(r.nextAt);
    assert EntryFits(s.sched[si], r.agents);
    ActedGrows(w, s, r, si);
    var x := Waking(r, r.nextAt[si], s.sched[si].agentIdx);
    var n: nat :| Reaches(w, ShapeOf(s.cfg), s.externals, x, Acted(w, s, r, si), n);
    ReachesAdvances(w, ShapeOf(s.cfg), s.externals, x, Acted(w, s, r, si), n);
  }

  /** What an event makes of the acting context. */
  lemma WakeIs(w: Stream, s: Setup, r: Run)
    requires Consistent(s, r) && !Done(s, r)
    ensures var (si, r') := (Soonest(r.nextAt), Wake(w, s, r));
      && si < |s.sched| && s.sched[si].agentIdx < |r.agents|
      && var y := Acted(w, s, r, si);
         r'.agents == r.agents[s.sched[si].agentIdx := y.agent] && r'.chain == y.chain && r'.rng == y.rng + 1
  {
    hide Acted;
    assert EntryFits(s.sched[Soonest(r.nextAt)], r.agents);
  }

  lemma {:induction false} FinishAdvances(w: Stream, s: Setup, r: Run)
    requires Consistent(s, r) && EntriesMatch(s) && Ending(s)
    ensures r.rng <= Finish(w, s, r).rng
    decreases Measure(s.end, r.nextAt)
  {
    hide Wake, Consistent, EntriesMatch;
    if !Done(s, r) {
      WakeProgress(w, s, r);
      WakeAdvances(w, s, r);
      FinishAdvances(w, s, Wake(w, s, r));
    }
  }

  /** A wake only appends, and keeps the numbering. */
  lemma WakeStamped(w: Stream, s: Setup, r: Run)
    requires Consistent(s, r) && EntriesMatch(s) && !Done(s, r) && Stamped(r.chain)
    ensures Stamped(Wake(w, s, r).chain) && r.chain.records <= Wake(w, s, r).chain.records
  {
    var si := Soonest(r.nextAt);
    assert EntryFits(s.sched[si], r.agents);
    ActedGrows(w, s, r, si);
    var x := Waking(r, r.nextAt[si], s.sched[si].agentIdx);
    var n: nat :| Reaches(w, ShapeOf(s.cfg), s.externals, x, Acted(w, s, r, si), n);
    StampedReaches(w, ShapeOf(s.cfg), s.externals, x, Acted(w, s, r, si), n);
  }

  // ---- labels, in every mode ----

  ghost predicate Indexed(agents: seq<Agent>) {
    forall a :: 0 <= a < |agents| ==> agents[a].id == a
  }

  /** Every record is labelled with an existing agent. */
  ghost predicate Signed(agents: seq<Agent>, rs: Ledger) {
    Indexed(agents) && forall r :: r in rs ==> r.operator.Some? && r.operator.value < |agents|
  }

  lemma {:induction false} SignedReaches(w: Stream, sh: Shape, ext: seq<AccountId>, agents: seq<Agent>, x: Ctx,
      y: Ctx, n: nat)
    requires Reaches(w, sh, ext, x, y, n) && Signed(agents, x.chain.records) && x.agent.id < |agents|
    ensures Signed(agents, y.chain.records)
    decreases n
  {
    hide Throwaway, FreshBoth, Outward;
    if n > 0 {
      var m :| Emits(w, sh, ext, x, m) && Reaches(w, sh, ext, m, y, n - 1);
      assert m.chain.records == x.chain.records + [Last(m.chain)];
      assert m.agent.id == x.agent.id;
      SignedReaches(w, sh, ext, agents, m, y, n - 1);
    }
  }

  lemma WakeSigned(w: Stream, s: Setup, r: Run)
    requires Consistent(s, r) && EntriesMatch(s) && !Done(s, r) && Signed(r.agents, r.chain.records)
    ensures Signed(Wake(w, s, r).agents, Wake(w, s, r).chain.records)
  {
    hide Emits, Reaches, Quiet;
    var si := Soonest(r.nextAt);
    var a := s.sched[si].agentIdx;
    assert EntryFits(s.sched[si], r.agents);
    ActedGrows(w, s, r, si);
    var x := Waking(r, r.nextAt[si], a);
    var n: nat :| Reaches(w, ShapeOf(s.cfg), s.externals, x, Acted(w, s, r, si), n);
    SignedReaches(w, ShapeOf(s.cfg), s.externals, r.agents, x, Acted(w, s, r, si), n);
  }

  // ---- time order, when hardened ----

  /** Timestamps strictly increase over the whole ledger and never pass the clock. */
  ghost predicate Ticking(c: Chain) {
    && (forall i, j :: 0 <= i < j < |c.records| ==> c.records[i].ts < c.records[j].ts)
    && (forall i :: 0 <= i < |c.records| ==> c.records[i].ts <= c.clock)
  }

  lemma TickingEmits(w: Stream, sh: Shape, ext: seq<AccountId>, x: Ctx, m: Ctx)
    requires HardenedShape(sh) && Emits(w, sh, ext, x, m) && Ticking(x.chain)
    ensures Ticking(m.chain)
  {
  }

  lemma {:induction false} TickingReaches(w: Stream, sh: Shape, ext: seq<AccountId>, x: Ctx, y: Ctx, n: nat)
    requires HardenedShape(sh) && Reaches(w, sh, ext, x, y, n) && Ticking(x.chain)
    ensures Ticking(y.chain)
    decreases n
  {
    if n > 0 {
      var m :| Emits(w, sh, ext, x, m) && Reaches(w, sh, ext, m, y, n - 1);
      TickingEmits(w, sh, ext, x, m);
      TickingReaches(w, sh, ext, m, y, n - 1);
    }
  }

  lemma WakeTicking(w: Stream, s: Setup, r: Run)
    requires Consistent(s, r) && EntriesMatch(s) && !Done(s, r) && Hardened(s.cfg) && Ticking(r.chain)
    ensures Ticking(Wake(w, s, r).chain)
  {
    var si := Soonest(r.nextAt);
    assert EntryFits(s.sched[si], r.agents);
    ActedGrows(w, s, r, si);
    var x := Waking(r, r.nextAt[si], s.sched[si].agentIdx);
    var n: nat :| Reaches(w, ShapeOf(s.cfg), s.externals, x, Acted(w, s, r, si), n);
    TickingReaches(w, ShapeOf(s.cfg), s.externals, x, Acted(w, s, r, si), n);
  }

  // ---- naive runs: the main account pays for everything ----

  predicate PaidByMain(agents: seq<Agent>, r: TxRecord) {
    r.operator.Some? && r.operator.value < |agents| && r.feePayer == agents[r.operator.value].main
  }

  ghost predicate MainPays(agents: seq<Agent>, rs: Ledger) {
    Indexed(agents) && forall r :: r in rs ==> PaidByMain(agents, r)
  }

  lemma {:induction false} MainPaysReaches(w: Stream, ext: seq<AccountId>, agents: seq<Agent>, k: nat, x: Ctx, y: Ctx,
      n: nat)
    requires Reaches(w, NaiveShape, ext, x, y, n) && k < |agents| && x.agent == agents[k]
    requires MainPays(agents, x.chain.records)
    ensures y.agent == x.agent && MainPays(agents, y.chain.records)
    decreases n
  {
    if n > 0 {
      var m :| Emits(w, NaiveShape, ext, x, m) && Reaches(w, NaiveShape, ext, m, y, n - 1);
      assert m.chain.records == x.chain.records + [Last(m.chain)];
      MainPaysReaches(w, ext, agents, k, m, y, n - 1);
    }
  }

  lemma WakeMainPays(w: Stream, s: Setup, r: Run)
    requires Consistent(s, r) && EntriesMatch(s) && !Done(s, r) && s.cfg.mode == Naive && MainPays(r.agents, r.chain.records)
    ensures Wake(w, s, r).agents == r.agents && MainPays(r.agents, Wake(w, s, r).chain.records)
  {
    var si := Soonest(r.nextAt);
    var a := s.sched[si].agentIdx;
    assert EntryFits(s.sched[si], r.agents);
    ActedGrows(w, s, r, si);
    var x := Waking(r, r.nextAt[si], a);
    var n: nat :| Reaches(w, NaiveShape, s.externals, x, Acted(w, s, r, si), n);
    MainPaysReaches(w, s.externals, r.agents, a, x, Acted(w, s, r, si), n);
  }

  // ---- cooker runs: throwaway fee-payers and disjoint ownership ----

  /** `a` was drawn before position `c`. */
  ghost predicate Below(w: Stream, a: AccountId, c: Rng) {
    exists p: nat :: p < c && w.id(p) == a
  }

  lemma FreshNotBelow(w: Stream, c: Rng, p: nat, d: Rng)
    requires DistinctIds(w, d) && c <= p < d
    ensures !Below(w, w.id(p), c)
  {
  }

  lemma DistinctBefore(w: Stream, c: Rng, d: Rng)
    requires DistinctIds(w, d) && c <= d
    ensures DistinctIds(w, c)
  {
  }

  lemma BelowLater(w: Stream, a: AccountId, c: Rng, d: Rng)
    requires Below(w, a, c) && c <= d
    ensures Below(w, a, d)
  {
  }

  /** Every identifier in sight was drawn before position `c`. */
  ghost predicate Known(w: Stream, ext: seq<AccountId>, agents: seq<Agent>, rs: Ledger, c: Rng) {
    && (forall i :: 0 <= i < |ext| ==> Below(w, ext[i], c))
    && (forall a, j :: 0 <= a < |agents| && 0 <= j < |agents[a].subaccounts| ==> Below(w, agents[a].subaccounts[j], c))
    && (forall r :: r in rs ==> Below(w, r.feePayer, c) && Below(w, r.source, c) && Below(w, r.dest, c))
  }

  /** No account is held twice, and none is an external; the main account is held in place 0. */
  ghost predicate Apart(ext: seq<AccountId>, agents: seq<Agent>) {
    && Indexed(agents)
    && (forall a :: 0 <= a < |agents| ==> agents[a].subaccounts != [] && agents[a].main == agents[a].subaccounts[0])
    && (forall a, i :: 0 <= a < |agents| && 0 <= i < |agents[a].subaccounts| ==> agents[a].subaccounts[i] !in ext)
    && (forall a, i, b, j :: Held(agents, a, i) && Held(agents, b, j) && agents[a].subaccounts[i] == agents[b].subaccounts[j]
         ==> a == b && i == j)
  }

  predicate Held(agents: seq<Agent>, a: int, i: int) {
    0 <= a < |agents| && 0 <= i < |agents[a].subaccounts|
  }

  /** Fee-payers are used once and are neither sources, destinations, externals nor held. */
  ghost predicate Throwaways(ext: seq<AccountId>, agents: seq<Agent>, rs: Ledger) {
    && (forall i, j :: 0 <= i < j < |rs| ==> rs[i].feePayer != rs[j].feePayer)
    && (forall i, j :: 0 <= i < |rs| && 0 <= j < |rs| ==> rs[i].feePayer != rs[j].source && rs[i].feePayer != rs[j].dest)
    && (forall i :: 0 <= i < |rs| ==> rs[i].feePayer !in ext)
    && (forall i, a, j :: 0 <= i < |rs| && Held(agents, a, j) ==> rs[i].feePayer != agents[a].subaccounts[j])
  }

  /** Whatever an operator now holds, only that operator has signed for or sent to. */
  ghost predicate HeldBySigner(agents: seq<Agent>, rs: Ledger) {
    && (forall i, a, j :: 0 <= i < |rs| && Held(agents, a, j) && rs[i].source == agents[a].subaccounts[j] ==> rs[i].operator == Some(a))
    && (forall i, a, j :: 0 <= i < |rs| && Held(agents, a, j) && rs[i].dest == agents[a].subaccounts[j] ==> rs[i].operator == Some(a))
  }

  /** A source has one operator, is no external, and is sent to by its own operator only. */
  ghost predicate OneSigner(ext: seq<AccountId>, n: nat, rs: Ledger) {
    && (forall i :: 0 <= i < |rs| ==> rs[i].operator.Some? && rs[i].operator.value < n && rs[i].source !in ext)
    && (forall i, j :: 0 <= i < |rs| && 0 <= j < |rs| && rs[i].source == rs[j].source ==> rs[i].operator == rs[j].operator)
    && (forall i, j :: 0 <= i < |rs| && 0 <= j < |rs| && rs[i].dest == rs[j].source ==> rs[i].operator == rs[j].operator)
  }

  ghost predicate Owned(ext: seq<AccountId>, agents: seq<Agent>, rs: Ledger) {
    HeldBySigner(agents, rs) && OneSigner(ext, |agents|, rs)
  }

  ghost predicate CookerRun(w: Stream, ext: seq<AccountId>, agents: seq<Agent>, rs: Ledger, c: Rng) {
    Known(w, ext, agents, rs, c) && Apart(ext, agents) && Throwaways(ext, agents, rs) && Owned(ext, agents, rs)
  }

  /** A new record, and what became of the agents: nothing, or one place taken by its destination. */
  ghost predicate Emission(w: Stream, ext: seq<AccountId>, agents: seq<Agent>, agents': seq<Agent>, k: nat, c: Rng,
      d: Rng, r: TxRecord) {
    && k < |agents| && c <= d
    && r.source in agents[k].subaccounts && r.operator == Some(k)
    && !Below(w, r.feePayer, c) && Below(w, r.feePayer, d)
    && ((agents' == agents && (r.dest in ext || r.dest in agents[k].subaccounts))
        || (FreshDest(w, c, d, r) && (agents' == agents || exists j :: Replaced(agents, agents', k, j, r.dest))))
  }

  ghost predicate FreshDest(w: Stream, c: Rng, d: Rng, r: TxRecord) {
    !Below(w, r.dest, c) && Below(w, r.dest, d) && r.dest != r.feePayer
  }

  /** Agent `k` holds `newcomer` in place `j` instead of what it held there. */
  ghost predicate Replaced(agents: seq<Agent>, agents': seq<Agent>, k: nat, j: nat, newcomer: AccountId) {
    && k < |agents| && 0 < j < |agents[k].subaccounts|
    && agents' == agents[k := agents[k].(subaccounts := agents[k].subaccounts[j := newcomer])]
  }

  /** Reading the emission relation as the neutral form the invariants are proved over. */
  lemma EmitsIsEmission(w: Stream, sh: Shape, ext: seq<AccountId>, agents: seq<Agent>, k: nat, x: Ctx, y: Ctx)
    requires DistinctIds(w, y.rng) && sh != NaiveShape && Emits(w, sh, ext, x, y)
    requires k < |agents| && x.agent == agents[k] && Apart(ext, agents)
    ensures y.chain.records == x.chain.records + [Last(y.chain)]
    ensures Emission(w, ext, agents, agents[k := y.agent], k, x.rng, y.rng, Last(y.chain))
  {
    var r := Last(y.chain);
    assert y.chain.records == x.chain.records + [r];
    assert agents[k := agents[k]] == agents;
    if FreshBoth(w, x, y, r) {
      var p: nat, q: nat :| x.rng <= p < y.rng && x.rng <= q < y.rng && p != q && r.feePayer == w.id(p) && r.dest == w.id(q);
      FreshNotBelow(w, x.rng, p, y.rng);
      FreshNotBelow(w, x.rng, q, y.rng);
      assert FreshDest(w, x.rng, y.rng, r);
      if y.agent != x.agent {
        var j :| Succeeds(x, y, r, j);
        assert Replaced(agents, agents[k := y.agent], k, j, r.dest);
      }
    } else {
      var p: nat :| x.rng <= p < y.rng && r.feePayer == w.id(p);
      FreshNotBelow(w, x.rng, p, y.rng);
      assert agents[k].main in agents[k].subaccounts;
    }
  }

  lemma KnownKept(w: Stream, ext: seq<AccountId>, agents: seq<Agent>, agents': seq<Agent>, rs: Ledger, k: nat, c: Rng,
      d: Rng, r: TxRecord)
    requires Known(w, ext, agents, rs, c) && Emission(w, ext, agents, agents', k, c, d, r)
    ensures Known(w, ext, agents', rs + [r], d)
  {
  }

  lemma ApartKept(w: Stream, ext: seq<AccountId>, agents: seq<Agent>, agents': seq<Agent>, rs: Ledger, k: nat, c: Rng,
      d: Rng, r: TxRecord)
    requires Known(w, ext, agents, rs, c) && Apart(ext, agents) && Emission(w, ext, agents, agents', k, c, d, r)
    ensures Apart(ext, agents')
  {
    if agents' != agents {
      var j :| Replaced(agents, agents', k, j, r.dest);
      forall a, i | Held(agents', a, i)
        ensures agents'[a].subaccounts[i] == (if a == k && i == j then r.dest else agents[a].subaccounts[i])
        ensures agents'[a].subaccounts[i] !in ext
        ensures Held(agents, a, i) && ((a == k && i == j) || agents[a].subaccounts[i] != r.dest)
      {
        assert Below(w, agents[a].subaccounts[i], c);
      }
    }
  }

  lemma ThrowawaysKept(w: Stream, ext: seq<AccountId>, agents: seq<Agent>, agents': seq<Agent>, rs: Ledger, k: nat,
      c: Rng, d: Rng, r: TxRecord)
    requires Known(w, ext, agents, rs, c) && Throwaways(ext, agents, rs) && Emission(w, ext, agents, agents', k, c, d, r)
    ensures Throwaways(ext, agents', rs + [r])
  {
  }

  lemma HeldBySignerKept(w: Stream, ext: seq<AccountId>, agents: seq<Agent>, agents': seq<Agent>, rs: Ledger, k: nat,
      c: Rng, d: Rng, r: TxRecord)
    requires Known(w, ext, agents, rs, c) && Apart(ext, agents) && HeldBySigner(agents, rs) && Emission(w, ext, agents, agents', k, c, d, r)
    ensures HeldBySigner(agents', rs + [r])
  {
    var rs' := rs + [r];
    if FreshDest(w, c, d, r) {
      NewcomerUnseen(w, ext, agents, agents', rs, k, c, d, r);
    }
    hide Known, Below;
    forall i, a, j | 0 <= i < |rs'| && Held(agents', a, j) && rs'[i].source == agents'[a].subaccounts[j]
      ensures rs'[i].operator == Some(a)
    {
      assert rs'[i] == r || rs'[i] == rs[i];
      assert Held(agents, a, j);
    }
    forall i, a, j | 0 <= i < |rs'| && Held(agents', a, j) && rs'[i].dest == agents'[a].subaccounts[j]
      ensures rs'[i].operator == Some(a)
    {
      assert rs'[i] == r || rs'[i] == rs[i];
      assert Held(agents, a, j);
    }
  }

  lemma OneSignerKept(w: Stream, ext: seq<AccountId>, agents: seq<Agent>, agents': seq<Agent>, rs: Ledger, k: nat,
      c: Rng, d: Rng, r: TxRecord)
    requires Known(w, ext, agents, rs, c) && Apart(ext, agents) && HeldBySigner(agents, rs) && OneSigner(ext, |agents|, rs)
    requires Emission(w, ext, agents, agents', k, c, d, r)
    ensures OneSigner(ext, |agents|, rs + [r])
  {
  }

  lemma OwnedKept(w: Stream, ext: seq<AccountId>, agents: seq<Agent>, agents': seq<Agent>, rs: Ledger, k: nat, c: Rng,
      d: Rng, r: TxRecord)
    requires Known(w, ext, agents, rs, c) && Apart(ext, agents) && Owned(ext, agents, rs) && Emission(w, ext, agents, agents', k, c, d, r)
    ensures Owned(ext, agents', rs + [r])
  {
    HeldBySignerKept(w, ext, agents, agents', rs, k, c, d, r);
    OneSignerKept(w, ext, agents, agents', rs, k, c, d, r);
    hide HeldBySigner, OneSigner, Known, Apart;
  }

  /** A fresh destination is none of the accounts seen or held before. */
  lemma NewcomerUnseen(w: Stream, ext: seq<AccountId>, agents: seq<Agent>, agents': seq<Agent>, rs: Ledger, k: nat,
      c: Rng, d: Rng, r: TxRecord)
    requires Known(w, ext, agents, rs, c) && Emission(w, ext, agents, agents', k, c, d, r) && FreshDest(w, c, d, r)
    ensures r.dest !in ext
    ensures forall i :: 0 <= i < |rs| ==> rs[i].source != r.dest && rs[i].dest != r.dest
    ensures forall a, j :: Held(agents, a, j) ==> agents[a].subaccounts[j] != r.dest
  {
  }

  lemma CookerEmits(w: Stream, sh: Shape, ext: seq<AccountId>, agents: seq<Agent>, k: nat, x: Ctx, y: Ctx)
    requires DistinctIds(w, y.rng) && sh != NaiveShape && Emits(w, sh, ext, x, y)
    requires k < |agents| && x.agent == agents[k]
    requires CookerRun(w, ext, agents, x.chain.records, x.rng)
    ensures CookerRun(w, ext, agents[k := y.agent], y.chain.records, y.rng)
  {
    var agents', r := agents[k := y.agent], Last(y.chain);
    EmitsIsEmission(w, sh, ext, agents, k, x, y);
    KnownKept(w, ext, agents, agents', x.chain.records, k, x.rng, y.rng, r);
    ApartKept(w, ext, agents, agents', x.chain.records, k, x.rng, y.rng, r);
    ThrowawaysKept(w, ext, agents, agents', x.chain.records, k, x.rng, y.rng, r);
    OwnedKept(w, ext, agents, agents', x.chain.records, k, x.rng, y.rng, r);
  }

  lemma KnownLater(w: Stream, ext: seq<AccountId>, agents: seq<Agent>, rs: Ledger, c: Rng, d: Rng)
    requires CookerRun(w, ext, agents, rs, c) && c <= d
    ensures CookerRun(w, ext, agents, rs, d)
  {
  }

  lemma CookerQuiet(w: Stream, ext: seq<AccountId>, agents: seq<Agent>, k: nat, x: Ctx, y: Ctx)
    requires Quiet(x, y) && k < |agents| && x.agent == agents[k]
    requires CookerRun(w, ext, agents, x.chain.records, x.rng)
    ensures CookerRun(w, ext, agents[k := y.agent], y.chain.records, y.rng)
  {
    assert agents[k := y.agent] == agents;
    KnownLater(w, ext, agents, x.chain.records, x.rng, y.rng);
  }

  lemma {:induction false} CookerReaches(w: Stream, sh: Shape, ext: seq<AccountId>, agents: seq<Agent>, k: nat,
      x: Ctx, y: Ctx, n: nat)
    requires DistinctIds(w, y.rng) && sh != NaiveShape && Reaches(w, sh, ext, x, y, n)
    requires k < |agents| && x.agent == agents[k]
    requires CookerRun(w, ext, agents, x.chain.records, x.rng)
    ensures CookerRun(w, ext, agents[k := y.agent], y.chain.records, y.rng)
    decreases n
  {
    hide CookerRun, Emits, Quiet, DistinctIds;
    if n == 0 {
      CookerQuiet(w, ext, agents, k, x, y);
    } else {
      var m :| Emits(w, sh, ext, x, m) && Reaches(w, sh, ext, m, y, n - 1);
      ReachesAdvances(w, sh, ext, m, y, n - 1);
      DistinctBefore(w, m.rng, y.rng);
      CookerEmits(w, sh, ext, agents, k, x, m);
      CookerReaches(w, sh, ext, agents[k := m.agent], k, m, y, n - 1);
      assert agents[k := m.agent][k := y.agent] == agents[k := y.agent];
    }
  }

  lemma ActedCooker(w: Stream, s: Setup, r: Run, si: nat)
    requires Consistent(s, r) && EntriesMatch(s) && si < |s.sched| && s.sched[si].agentIdx < |r.agents|
    requires s.cfg.mode == Cooker && DistinctIds(w, Acted(w, s, r, si).rng + 1)
    requires CookerRun(w, s.externals, r.agents, r.chain.records, r.rng)
    ensures var y := Acted(w, s, r, si);
      CookerRun(w, s.externals, r.agents[s.sched[si].agentIdx := y.agent], y.chain.records, y.rng + 1)
  {
    hide CookerRun, Emits, Reaches, Quiet, DistinctIds, Acted;
    var a := s.sched[si].agentIdx;
    ActedGrows(w, s, r, si);
    var x, y := Waking(r, r.nextAt[si], a), Acted(w, s, r, si);
    var n: nat :| Reaches(w, ShapeOf(s.cfg), s.externals, x, y, n);
    DistinctBefore(w, y.rng, y.rng + 1);
    CookerReaches(w, ShapeOf(s.cfg), s.externals, r.agents, a, x, y, n);
    KnownLater(w, s.externals, r.agents[a := y.agent], y.chain.records, y.rng, y.rng + 1);
  }

  lemma WakeCooker(w: Stream, s: Setup, r: Run)
    requires Consistent(s, r) && EntriesMatch(s) && !Done(s, r) && s.cfg.mode == Cooker && DistinctIds(w, Wake(w, s, r).rng)
    requires CookerRun(w, s.externals, r.agents, r.chain.records, r.rng)
    ensures CookerRun(w, s.externals, Wake(w, s, r).agents, Wake(w, s, r).chain.records, Wake(w, s, r).rng)
  {
    hide CookerRun, DistinctIds, Wake, Acted, Consistent, EntriesMatch;
    WakeIs(w, s, r);
    ActedCooker(w, s, r, Soonest(r.nextAt));
  }

  // ---- the fresh run ----

  lemma {:induction false} FleetEntriesMatch(w: Stream, cfg: SimConfig, personas: seq<Persona>, n: nat, rng: Rng)
    requires personas != []
    ensures forall e :: e in BuildFleet(w, cfg, personas, n, rng).sched ==> (e.subIdx.Some? <==> Hardened(cfg))
    decreases n
  {
    if n > 0 {
      FleetEntriesMatch(w, cfg, personas, n - 1, rng);
    }
  }

  lemma FreshEntriesMatch(w: Stream, personas: seq<Persona>, cfg: SimConfig)
    requires Runnable(personas)
    ensures EntriesMatch(FreshSetup(w, personas, cfg))
  {
    var s := FreshSetup(w, personas, cfg);
    FleetEntriesMatch(w, cfg, personas, cfg.numAgents, Max(cfg.numExternal, 1));
    forall i | 0 <= i < |s.sched| ensures s.sched[i].subIdx.Some? <==> Hardened(s.cfg) {
      assert s.sched[i] in s.sched;
    }
  }

  lemma {:induction false} ClocksAdvance(w: Stream, cfg: SimConfig, persona: Persona, n: nat, k: nat, rng: Rng)
    requires k <= n
    ensures SubClocks(w, cfg, persona, n, k, rng).2 >= rng
    decreases n - k
  {
    if k < n {
      ClocksAdvance(w, cfg, persona, n, k + 1, rng + 2);
    }
  }

  /** A new agent's accounts are the identifiers drawn from its own stretch of the stream. */
  lemma AgentDraws(w: Stream, cfg: SimConfig, persona: Persona, id: nat, rng: Rng)
    ensures var (agent, _, _, next) := BuildAgent(w, cfg, persona, id, rng);
      && rng + |agent.subaccounts| <= next
      && forall j :: 0 <= j < |agent.subaccounts| ==> agent.subaccounts[j] == w.id(rng + j)
  {
    var n: nat := Max(persona.numSubaccounts, 1);
    ClocksAdvance(w, cfg, persona, n, 0, rng + n);
  }

  /** Adding an agent whose accounts are drawn from `c` on keeps all accounts apart. */
  lemma ApartGrows(w: Stream, ext: seq<AccountId>, agents: seq<Agent>, a: Agent, c: Rng, d: Rng)
    requires DistinctIds(w, d) && Known(w, ext, agents, [], c) && Apart(ext, agents)
    requires FreshAgent(a, |agents|) && c + |a.subaccounts| <= d
    requires forall j :: 0 <= j < |a.subaccounts| ==> a.subaccounts[j] == w.id(c + j)
    ensures Known(w, ext, agents + [a], [], d) && Apart(ext, agents + [a])
  {
    var agents' := agents + [a];
    forall b, j | Held(agents', b, j)
      ensures Below(w, agents'[b].subaccounts[j], d)
      ensures b < |agents| ==> Held(agents, b, j) && Below(w, agents'[b].subaccounts[j], c)
      ensures b == |agents| ==> agents'[b].subaccounts[j] == w.id(c + j) && !Below(w, agents'[b].subaccounts[j], c)
    {
      if b < |agents| {
        BelowLater(w, agents[b].subaccounts[j], c, d);
      } else {
        FreshNotBelow(w, c, c + j, d);
      }
    }
    hide Below;
  }

  lemma {:induction false} FleetApart(w: Stream, cfg: SimConfig, personas: seq<Persona>, n: nat, ext: seq<AccountId>,
      rng: Rng)
    requires personas != [] && DistinctIds(w, BuildFleet(w, cfg, personas, n, rng).rng)
    requires forall i :: 0 <= i < |ext| ==> Below(w, ext[i], rng)
    ensures var f := BuildFleet(w, cfg, personas, n, rng);
      Known(w, ext, f.agents, [], f.rng) && Apart(ext, f.agents)
    decreases n
  {
    hide Known, Apart, Below, DistinctIds, BuildAgent;
    if n == 0 {
      NobodyApart(w, ext, rng);
    } else {
      var f := BuildFleet(w, cfg, personas, n - 1, rng);
      var persona := personas[(n - 1) % |personas|];
      var (agent, _, _, next) := BuildAgent(w, cfg, persona, n - 1, f.rng);
      AgentDraws(w, cfg, persona, n - 1, f.rng);
      DistinctBefore(w, f.rng, next);
      FleetApart(w, cfg, personas, n - 1, ext, rng);
      ApartGrows(w, ext, f.agents, agent, f.rng, next);
    }
  }

  lemma NobodyApart(w: Stream, ext: seq<AccountId>, c: Rng)
    requires forall i :: 0 <= i < |ext| ==> Below(w, ext[i], c)
    ensures Known(w, ext, [], [], c) && Apart(ext, [])
  {
  }

  lemma FreshCooker(w: Stream, personas: seq<Persona>, cfg: SimConfig)
    requires Runnable(personas) && DistinctIds(w, FreshRun(w, personas, cfg).rng)
    ensures var r := FreshRun(w, personas, cfg);
      CookerRun(w, FreshSetup(w, personas, cfg).externals, r.agents, r.chain.records, r.rng)
  {
    var n: nat := Max(cfg.numExternal, 1);
    var ext := DrawIds(w, 0, n);
    forall i | 0 <= i < |ext| ensures Below(w, ext[i], n) {
      assert ext[i] == w.id(i);
    }
    FleetApart(w, cfg, personas, cfg.numAgents, ext, n);
  }

  lemma FreshStart(w: Stream, personas: seq<Persona>, cfg: SimConfig)
    requires Runnable(personas)
    ensures var r := FreshRun(w, personas, cfg);
      Stamped(r.chain) && Ticking(r.chain) && MainPays(r.agents, r.chain.records) && Signed(r.agents, r.chain.records)
  {
  }

  // ---- whole runs ----

  /** Every run only appends, and numbers its records in order. */
  lemma {:induction false} FinishStamped(w: Stream, s: Setup, r: Run)
    requires Consistent(s, r) && EntriesMatch(s) && Ending(s) && Stamped(r.chain)
    ensures Stamped(Finish(w, s, r).chain) && r.chain.records <= Finish(w, s, r).chain.records
    decreases Measure(s.end, r.nextAt)
  {
    if !Done(s, r) {
      WakeProgress(w, s, r);
      WakeStamped(w, s, r);
      FinishStamped(w, s, Wake(w, s, r));
    }
  }

  /** Every record of every run carries the label of one of the agents. */
  lemma {:induction false} FinishSigned(w: Stream, s: Setup, r: Run)
    requires Consistent(s, r) && EntriesMatch(s) && Ending(s) && Signed(r.agents, r.chain.records)
    ensures |Finish(w, s, r).agents| == |r.agents| && Signed(Finish(w, s, r).agents, Finish(w, s, r).chain.records)
    decreases Measure(s.end, r.nextAt)
  {
    if !Done(s, r) {
      WakeProgress(w, s, r);
      WakeSigned(w, s, r);
      FinishSigned(w, s, Wake(w, s, r));
    }
  }

  lemma {:induction false} FinishTicking(w: Stream, s: Setup, r: Run)
    requires Consistent(s, r) && EntriesMatch(s) && Ending(s) && Hardened(s.cfg) && Ticking(r.chain)
    ensures Ticking(Finish(w, s, r).chain)
    decreases Measure(s.end, r.nextAt)
  {
    if !Done(s, r) {
      WakeProgress(w, s, r);
      WakeTicking(w, s, r);
      FinishTicking(w, s, Wake(w, s, r));
    }
  }

  lemma {:induction false} FinishMainPays(w: Stream, s: Setup, r: Run)
    requires Consistent(s, r) && EntriesMatch(s) && Ending(s) && s.cfg.mode == Naive
    requires MainPays(r.agents, r.chain.records)
    ensures Finish(w, s, r).agents == r.agents && MainPays(r.agents, Finish(w, s, r).chain.records)
    decreases Measure(s.end, r.nextAt)
  {
    if !Done(s, r) {
      WakeProgress(w, s, r);
      WakeMainPays(w, s, r);
      FinishMainPays(w, s, Wake(w, s, r));
    }
  }

  lemma {:induction false} FinishCooker(w: Stream, s: Setup, r: Run)
    requires Consistent(s, r) && EntriesMatch(s) && Ending(s) && s.cfg.mode == Cooker
    requires DistinctIds(w, Finish(w, s, r).rng)
    requires CookerRun(w, s.externals, r.agents, r.chain.records, r.rng)
    ensures var f := Finish(w, s, r); CookerRun(w, s.externals, f.agents, f.chain.records, f.rng)
    decreases Measure(s.end, r.nextAt)
  {
    if !Done(s, r) {
      WakeProgress(w, s, r);
      FinishAdvances(w, s, Wake(w, s, r));
      DistinctBefore(w, Wake(w, s, r).rng, Finish(w, s, r).rng);
      WakeCooker(w, s, r);
      FinishCooker(w, s, Wake(w, s, r));
    }
  }
}
