/** Fresh setup and the discrete-event loop, as functions over run states. */
module EventLoop {
  import opened Types
  import opened Streams
  import opened Engine

  datatype FundingPolicy = OperatorHub | DedicatedFunder | SharedRelayers(k: nat)

  datatype FundingConfig = FundingConfig(
    policy: FundingPolicy,
    sticky: bool,
    leadMinSecs: int,
    leadMaxSecs: int,
    topupMin: nat,
    topupMax: nat)

  datatype SimConfig = SimConfig(
    numAgents: nat,
    durationSecs: int,
    startTs: int,
    mode: Mode,
    seed: nat,
    numExternal: nat,
    hardenTiming: bool,
    hardening: Hardening,
    funding: Option<FundingConfig>)

  /** A flat scheduler entry: one per agent, or one per sub-account when hardened. */
  datatype Sched = Sched(agentIdx: nat, subIdx: Option<nat>)

  /** The parts of a run that no wake changes. */
  datatype Setup = Setup(externals: seq<AccountId>, sched: seq<Sched>, cfg: SimConfig, end: int)

  /** The parts a wake changes; `nextAt[i]` is when schedule entry `i` is due. */
  datatype Run = Run(agents: seq<Agent>, nextAt: seq<int>, chain: Chain, rng: Rng, events: nat)

  predicate Hardened(cfg: SimConfig) {
    cfg.mode == Cooker && cfg.hardenTiming
  }

  /** What setting up demands: the personas are taken in turn. */
  predicate Runnable(personas: seq<Persona>) {
    personas != []
  }

  predicate EntryFits(e: Sched, agents: seq<Agent>) {
    && e.agentIdx < |agents|
    && (e.subIdx.Some? ==> e.subIdx.value < |agents[e.agentIdx].subaccounts| && e.subIdx.value < |agents[e.agentIdx].phases|)
  }

  /** Every schedule entry names an existing agent and sub-account. */
  ghost predicate Consistent(s: Setup, r: Run) {
    && |r.nextAt| == |s.sched|
    && s.externals != []
    && (forall a :: 0 <= a < |r.agents| ==> r.agents[a].subaccounts != [])
    && (forall i :: 0 <= i < |s.sched| ==> EntryFits(s.sched[i], r.agents))
  }

  // ---- the event loop ----

  /** The entry due first; ties go to the smaller index. */
  function Soonest(nextAt: seq<int>): (i: nat)
    requires nextAt != []
    ensures i < |nextAt|
    ensures forall j :: 0 <= j < |nextAt| ==> nextAt[i] < nextAt[j] || (nextAt[i] == nextAt[j] && i <= j)
  {
    if |nextAt| == 1 then 0
    else
      var i := Soonest(nextAt[..|nextAt| - 1]);
      if nextAt[|nextAt| - 1] < nextAt[i] then |nextAt| - 1 else i
  }

  predicate Done(s: Setup, r: Run) {
    r.nextAt == [] || r.nextAt[Soonest(r.nextAt)] > s.end
  }

  /** The circadian delay is at least one second. */
  function Delay(w: Stream, persona: Persona, at: int, rng: Rng): (d: int)
    ensures d >= 1
  {
    Max(w.delay(persona.profile, at % 86_400, rng), 1)
  }

  /** The acting context of a wake: the observable clock never runs backwards. */
  function Waking(r: Run, best: int, a: nat): Ctx
    requires a < |r.agents|
  {
    Ctx(r.chain.(clock := Max(best, r.chain.clock)), r.agents[a], r.rng)
  }

  /** The context after the acting agent's transactions. */
  function Acted(w: Stream, s: Setup, r: Run, si: nat): (y: Ctx)
    requires Consistent(s, r) && si < |s.sched|
    ensures y.agent == r.agents[s.sched[si].agentIdx].(subaccounts := y.agent.subaccounts)
    ensures |y.agent.subaccounts| == |r.agents[s.sched[si].agentIdx].subaccounts|
  {
    var e := s.sched[si];
    assert EntryFits(e, r.agents);
    var x := Waking(r, r.nextAt[si], e.agentIdx);
    match e.subIdx
    case None => PerformAction(w, x, s.externals, s.cfg.mode)
    case Some(k) => PerformActionHardened(w, x, k, s.externals, s.cfg.hardening)
  }

  /** When the entry that woke at `best` is due again. */
  function Rescheduled(w: Stream, s: Setup, y: Ctx, e: Sched, best: int): (t: int)
    requires e.subIdx.Some? ==> e.subIdx.value < |y.agent.phases|
    ensures best < I64_MAX ==> t > best
  {
    match e.subIdx
    case None => SatAdd(best, Delay(w, y.agent.persona, best, y.rng))
    case Some(k) =>
      var d := Delay(w, y.agent.persona, SatAdd(best, y.agent.phases[k]), y.rng);
      var n := |y.agent.subaccounts|;
      var scaled := if s.cfg.hardening.holdAggregateRate then d * n else d;
      SatAdd(best, Max(scaled, 1))
  }

  /** One iteration of the loop. */
  function Wake(w: Stream, s: Setup, r: Run): (r': Run)
    requires Consistent(s, r) && !Done(s, r)
    ensures Consistent(s, r')
  {
    var si := Soonest(r.nextAt);
    var e := s.sched[si];
    assert EntryFits(e, r.agents);
    var y := Acted(w, s, r, si);
    var next := Rescheduled(w, s, y, e, r.nextAt[si]);
    var agents := r.agents[e.agentIdx := y.agent];
    assert forall i :: 0 <= i < |s.sched| ==> EntryFits(s.sched[i], r.agents) ==> EntryFits(s.sched[i], agents);
    Run(agents, r.nextAt[si := next], y.chain, y.rng + 1, r.events + 1)
  }

  /** The original stops in the next event instead of completing it. */
  ghost predicate WakePanics(w: Stream, s: Setup, r: Run)
    requires Consistent(s, r) && !Done(s, r)
  {
    var si := Soonest(r.nextAt);
    var e := s.sched[si];
    assert EntryFits(e, r.agents);
    e.subIdx.Some? && Panics(w, Waking(r, r.nextAt[si], e.agentIdx), s.cfg.hardening)
  }

  /** Seconds this entry can still use. */
  function Left(end: int, t: int): nat {
    if t <= end then end + 1 - t else 0
  }

  function Measure(end: int, nextAt: seq<int>): nat {
    if nextAt == [] then 0 else Measure(end, nextAt[..|nextAt| - 1]) + Left(end, nextAt[|nextAt| - 1])
  }

  lemma {:induction false} MeasureUpdate(end: int, nextAt: seq<int>, i: nat, t: int)
    requires i < |nextAt|
    ensures Measure(end, nextAt[i := t]) == Measure(end, nextAt) - Left(end, nextAt[i]) + Left(end, t)
    ensures Measure(end, nextAt) >= Left(end, nextAt[i])
    decreases |nextAt|
  {
    var init := nextAt[..|nextAt| - 1];
    if i == |nextAt| - 1 {
      assert nextAt[i := t][..|nextAt| - 1] == init;
    } else {
      MeasureUpdate(end, init, i, t);
      assert nextAt[i := t][..|nextAt| - 1] == init[i := t];
    }
  }

  /** The end lies before the saturation point, or nothing is scheduled; see Termination.RunEndsIff. */
  predicate Ending(s: Setup) {
    s.end < I64_MAX || s.sched == []
  }

  /** Below the saturation point every wake uses up remaining time. */
  lemma WakeProgress(w: Stream, s: Setup, r: Run)
    requires Consistent(s, r) && !Done(s, r) && Ending(s)
    ensures Measure(s.end, Wake(w, s, r).nextAt) < Measure(s.end, r.nextAt)
    ensures Wake(w, s, r).events == r.events + 1
  {
    var si := Soonest(r.nextAt);
    MeasureUpdate(s.end, r.nextAt, si, Wake(w, s, r).nextAt[si]);
  }

  /** The run taken to its end. */
  function Finish(w: Stream, s: Setup, r: Run): (f: Run)
    requires Consistent(s, r) && Ending(s)
    ensures Consistent(s, f) && Done(s, f)
    decreases Measure(s.end, r.nextAt)
  {
    if Done(s, r) then r
    else
      WakeProgress(w, s, r);
      Finish(w, s, Wake(w, s, r))
  }

  /** The loop ends after at most as many events as there is remaining time. */
  lemma {:induction false} EventBound(w: Stream, s: Setup, r: Run)
    requires Consistent(s, r) && Ending(s)
    ensures r.events <= Finish(w, s, r).events <= r.events + Measure(s.end, r.nextAt)
    decreases Measure(s.end, r.nextAt)
  {
    if !Done(s, r) {
      WakeProgress(w, s, r);
      EventBound(w, s, Wake(w, s, r));
    }
  }

  /** Wake times never decrease from one event to the next. */
  lemma WakesInOrder(w: Stream, s: Setup, r: Run)
    requires Consistent(s, r) && !Done(s, r) && Ending(s)
    ensures var r' := Wake(w, s, r);
      r'.nextAt != [] && r'.nextAt[Soonest(r'.nextAt)] >= r.nextAt[Soonest(r.nextAt)]
  {
  }

  // ---- fresh setup ----

  function DrawIds(w: Stream, rng: Rng, n: nat): (ids: seq<AccountId>)
    ensures |ids| == n
  {
    seq<AccountId>(n, i requires 0 <= i < n => w.id(rng + i))
  }

  /** The phase and first wake time of one sub-account. */
  function SubClock(w: Stream, cfg: SimConfig, persona: Persona, n: nat, rng: Rng): (c: (int, int))
    ensures c.1 > cfg.startTs
  {
    var phase := w.word(rng) % 86_400;
    var d := Delay(w, persona, cfg.startTs + phase, rng + 1);
    (phase, cfg.startTs + Max(if cfg.hardening.holdAggregateRate then d * n else d, 1))
  }

  /** Those of the sub-accounts from number `k` on. */
  function SubClocks(w: Stream, cfg: SimConfig, persona: Persona, n: nat, k: nat,
      rng: Rng): (r: (seq<int>, seq<int>, Rng))
    requires k <= n
    ensures |r.0| == |r.1| == n - k
    ensures forall i :: 0 <= i < n - k ==> r.1[i] > cfg.startTs
    decreases n - k
  {
    if k == n then ([], [], rng)
    else
      var c := SubClock(w, cfg, persona, n, rng);
      var rest := SubClocks(w, cfg, persona, n, k + 1, rng + 2);
      ([c.0] + rest.0, [c.1] + rest.1, rest.2)
  }

  /** One agent with its schedule entries and first wake times. */
  function BuildAgent(w: Stream, cfg: SimConfig, persona: Persona, id: nat,
      rng: Rng): (r: (Agent, seq<Sched>, seq<int>, Rng))
    ensures r.0.subaccounts != [] && r.0.id == id
    ensures r.0.main == r.0.subaccounts[0]
    ensures |r.1| == |r.2| && forall i :: 0 <= i < |r.1| ==> r.2[i] > cfg.startTs
    ensures forall i :: 0 <= i < |r.1| ==> r.1[i].agentIdx == id
    ensures forall i :: 0 <= i < |r.1| ==>
      (r.1[i].subIdx.Some? ==> r.1[i].subIdx.value < |r.0.subaccounts| && r.1[i].subIdx.value < |r.0.phases|)
  {
    var n: nat := Max(persona.numSubaccounts, 1);
    var subs := DrawIds(w, rng, n);
    if !Hardened(cfg) then
      var d := Delay(w, persona, cfg.startTs, rng + n);
      (Agent(id, persona, subs, [], subs[0]), [Sched(id, None)], [cfg.startTs + d], rng + n + 1)
    else
      var clocks := SubClocks(w, cfg, persona, n, 0, rng + n);
      (Agent(id, persona, subs, clocks.0, subs[0]),
       seq(n, k requires 0 <= k < n => Sched(id, Some(k))), clocks.1, clocks.2)
  }

  predicate FreshAgent(a: Agent, id: nat) {
    a.id == id && a.subaccounts != [] && a.main == a.subaccounts[0]
  }

  datatype Fleet = Fleet(agents: seq<Agent>, sched: seq<Sched>, nextAt: seq<int>, rng: Rng)

  function BuildFleet(w: Stream, cfg: SimConfig, personas: seq<Persona>, n: nat, rng: Rng): (f: Fleet)
    requires personas != []
    ensures |f.agents| == n && |f.sched| == |f.nextAt|
    ensures forall a :: 0 <= a < n ==> FreshAgent(f.agents[a], a)
    ensures forall i :: 0 <= i < |f.sched| ==> f.nextAt[i] > cfg.startTs && EntryFits(f.sched[i], f.agents)
    decreases n
  {
    if n == 0 then Fleet([], [], [], rng)
    else
      var f := BuildFleet(w, cfg, personas, n - 1, rng);
      var (agent, sched, nextAt, rng') := BuildAgent(w, cfg, personas[(n - 1) % |personas|], n - 1, f.rng);
      Fleet(f.agents + [agent], f.sched + sched, f.nextAt + nextAt, rng')
  }

  function FreshSetup(w: Stream, personas: seq<Persona>, cfg: SimConfig): Setup
    requires Runnable(personas)
  {
    var ext: nat := Max(cfg.numExternal, 1);
    Setup(DrawIds(w, 0, ext), BuildFleet(w, cfg, personas, cfg.numAgents, ext).sched, cfg, cfg.startTs + cfg.durationSecs)
  }

  function FreshRun(w: Stream, personas: seq<Persona>, cfg: SimConfig): (r: Run)
    requires Runnable(personas)
    ensures Consistent(FreshSetup(w, personas, cfg), r)
  {
    var f := BuildFleet(w, cfg, personas, cfg.numAgents, Max(cfg.numExternal, 1));
    Run(f.agents, f.nextAt, Chain([], cfg.startTs, 0, 0), f.rng, 0)
  }

  lemma {:induction false} FreshMeasure(end: int, start: int, nextAt: seq<int>)
    requires forall i :: 0 <= i < |nextAt| ==> nextAt[i] > start
    ensures Measure(end, nextAt) <= |nextAt| * Max(end - start, 0)
  {
    if nextAt != [] {
      FreshMeasure(end, start, nextAt[..|nextAt| - 1]);
      assert |nextAt| * Max(end - start, 0) == (|nextAt| - 1) * Max(end - start, 0) + Max(end - start, 0);
    }
  }

  /** A fresh run ends after at most one event per schedule entry and second. */
  lemma FreshEventBound(w: Stream, personas: seq<Persona>, cfg: SimConfig)
    requires Runnable(personas) && Ending(FreshSetup(w, personas, cfg))
    ensures var s := FreshSetup(w, personas, cfg);
      Finish(w, s, FreshRun(w, personas, cfg)).events <= |s.sched| * Max(cfg.durationSecs, 0)
  {
    var s, r := FreshSetup(w, personas, cfg), FreshRun(w, personas, cfg);
    EventBound(w, s, r);
    FreshMeasure(s.end, cfg.startTs, r.nextAt);
  }
}
