/** Who takes part in a fresh run, and where in the draw stream it all comes from. */
module Fleets {
  import opened Types
  import opened Streams
  import opened Sorting
  import opened Engine
  import opened EventLoop
  import opened Termination

  /** Agent `a` follows the personas in turn, with at least one account. */
  predicate TakesTurn(agents: seq<Agent>, personas: seq<Persona>, a: nat)
    requires personas != [] && a < |agents|
  {
    && agents[a].id == a && agents[a].persona == personas[a % |personas|]
    && |agents[a].subaccounts| == Max(agents[a].persona.numSubaccounts, 1)
  }

  /** Entry `e` belongs to one of the agents: its only clock, or the clock of one of its sub-accounts. */
  predicate Belongs(cfg: SimConfig, agents: seq<Agent>, e: Sched) {
    && e.agentIdx < |agents|
    && if Hardened(cfg) then e.subIdx.Some? && e.subIdx.value < |agents[e.agentIdx].subaccounts| else e.subIdx == None
  }

  /** Every agent takes its persona in turn, and every clock is scheduled exactly once. */
  ghost predicate Scheduled(cfg: SimConfig, personas: seq<Persona>, agents: seq<Agent>, sched: seq<Sched>)
    requires personas != []
  {
    && (forall a :: 0 <= a < |agents| ==> TakesTurn(agents, personas, a))
    && NoDup(sched) && forall e :: e in sched <==> Belongs(cfg, agents, e)
  }

  lemma {:induction false} FleetScheduled(w: Stream, cfg: SimConfig, personas: seq<Persona>, n: nat, rng: Rng)
    requires personas != []
    ensures var f := BuildFleet(w, cfg, personas, n, rng); |f.agents| == n && Scheduled(cfg, personas, f.agents, f.sched)
    decreases n
  {
    if n > 0 {
      var f := BuildFleet(w, cfg, personas, n - 1, rng);
      FleetScheduled(w, cfg, personas, n - 1, rng);
      var persona := personas[(n - 1) % |personas|];
      AgentScheduled(w, cfg, persona, n - 1, f.rng);
      hide BuildAgent, OfAgent, Scheduled;
      var (agent, sched, _, _) := BuildAgent(w, cfg, persona, n - 1, f.rng);
      ScheduleAppends(cfg, personas, f.agents, agent, f.sched, sched);
    }
  }

  lemma AgentScheduled(w: Stream, cfg: SimConfig, persona: Persona, id: nat, rng: Rng)
    ensures var (agent, sched, _, _) := BuildAgent(w, cfg, persona, id, rng);
      && agent.id == id && agent.persona == persona && |agent.subaccounts| == Max(persona.numSubaccounts, 1)
      && NoDup(sched) && forall e :: e in sched <==> OfAgent(cfg, agent, e)
  {
    hide SubClocks, Delay;
    var (agent, sched, _, _) := BuildAgent(w, cfg, persona, id, rng);
    if Hardened(cfg) {
      forall e | OfAgent(cfg, agent, e) ensures e in sched {
        assert sched[e.subIdx.value] == e;
      }
    }
  }

  predicate OfAgent(cfg: SimConfig, agent: Agent, e: Sched) {
    && e.agentIdx == agent.id
    && if Hardened(cfg) then e.subIdx.Some? && e.subIdx.value < |agent.subaccounts| else e.subIdx == None
  }

  lemma ScheduleAppends(cfg: SimConfig, personas: seq<Persona>, agents: seq<Agent>, agent: Agent, sched: seq<Sched>,
      more: seq<Sched>)
    requires personas != [] && agent.id == |agents| && agent.persona == personas[|agents| % |personas|]
    requires |agent.subaccounts| == Max(agent.persona.numSubaccounts, 1)
    requires Scheduled(cfg, personas, agents, sched)
    requires NoDup(more) && forall e :: e in more <==> OfAgent(cfg, agent, e)
    ensures Scheduled(cfg, personas, agents + [agent], sched + more)
  {
    hide Hardened;
    forall a | 0 <= a < |agents| ensures TakesTurn(agents + [agent], personas, a) {
      assert TakesTurn(agents, personas, a);
    }
    forall e ensures e in sched + more <==> Belongs(cfg, agents + [agent], e) {
      if e.agentIdx < |agents| {
        assert (agents + [agent])[e.agentIdx] == agents[e.agentIdx];
      }
    }
    assert forall i, j :: 0 <= i < |sched| && 0 <= j < |more| ==> sched[i] in sched && more[j] in more;
  }

  // ---- where it is drawn ----

  /** How many draws building an agent of this persona takes. */
  function AgentDraws(cfg: SimConfig, persona: Persona): nat {
    var n := Max(persona.numSubaccounts, 1);
    if Hardened(cfg) then 3 * n else n + 1
  }

  /** Where the draws of agent `a` begin. */
  function AgentStart(cfg: SimConfig, personas: seq<Persona>, a: nat, rng: Rng): Rng
    requires personas != []
  {
    if a == 0 then rng else AgentStart(cfg, personas, a - 1, rng) + AgentDraws(cfg, personas[(a - 1) % |personas|])
  }

  /** The accounts are the first identifiers from `at` on; each has a drawn phase of the day when hardened. */
  ghost predicate DrawnAt(w: Stream, cfg: SimConfig, agent: Agent, at: Rng) {
    var n := |agent.subaccounts|;
    && (forall k :: 0 <= k < n ==> agent.subaccounts[k] == w.id(at + k))
    && (Hardened(cfg) ==> |agent.phases| == n && forall k :: 0 <= k < n ==> agent.phases[k] == w.word(at + n + 2 * k) % 86_400)
  }

  /** Entry `e` is first due after its drawn delay, times the agent's accounts when the rate is held. */
  predicate FirstWake(w: Stream, cfg: SimConfig, agent: Agent, at: Rng, e: Sched, t: int) {
    var n := |agent.subaccounts|;
    match e.subIdx
    case None => t == cfg.startTs + Delay(w, agent.persona, cfg.startTs, at + n)
    case Some(k) =>
      k < |agent.phases| &&
      t == cfg.startTs + Delay(w, agent.persona, cfg.startTs + agent.phases[k], at + n + 2 * k + 1) * Spacing(cfg, n)
  }

  lemma {:induction false} ClocksDrawn(w: Stream, cfg: SimConfig, persona: Persona, n: nat, k: nat, rng: Rng, i: nat)
    requires 1 <= n && k <= n && i < n - k
    ensures var (phases, nextAt, end) := SubClocks(w, cfg, persona, n, k, rng);
      && end == rng + 2 * (n - k) && phases[i] == w.word(rng + 2 * i) % 86_400
      && nextAt[i] == cfg.startTs + Delay(w, persona, cfg.startTs + phases[i], rng + 2 * i + 1) * Spacing(cfg, n)
    decreases n - k
  {
    hide Delay;
    if i > 0 {
      ClocksDrawn(w, cfg, persona, n, k + 1, rng + 2, i - 1);
    } else {
      ClockDrawn(w, cfg, persona, n, rng);
      ClocksEnd(w, cfg, persona, n, k, rng);
    }
  }

  lemma ClockDrawn(w: Stream, cfg: SimConfig, persona: Persona, n: nat, rng: Rng)
    requires n >= 1
    ensures var (phase, at) := SubClock(w, cfg, persona, n, rng);
      && phase == w.word(rng) % 86_400
      && at == cfg.startTs + Delay(w, persona, cfg.startTs + phase, rng + 1) * Spacing(cfg, n)
  {
    var d := Delay(w, persona, cfg.startTs + w.word(rng) % 86_400, rng + 1);
    assert d * n >= n;
  }

  lemma {:induction false} ClocksEnd(w: Stream, cfg: SimConfig, persona: Persona, n: nat, k: nat, rng: Rng)
    requires k <= n
    ensures SubClocks(w, cfg, persona, n, k, rng).2 == rng + 2 * (n - k)
    decreases n - k
  {
    hide SubClock;
    if k < n {
      ClocksEnd(w, cfg, persona, n, k + 1, rng + 2);
    }
  }

  lemma AgentDrawn(w: Stream, cfg: SimConfig, persona: Persona, id: nat, rng: Rng)
    ensures var (agent, sched, nextAt, end) := BuildAgent(w, cfg, persona, id, rng);
      && end == rng + AgentDraws(cfg, persona) && DrawnAt(w, cfg, agent, rng)
      && forall i :: 0 <= i < |sched| ==> FirstWake(w, cfg, agent, rng, sched[i], nextAt[i])
  {
    hide SubClocks, Delay, Spacing;
    var n: nat := Max(persona.numSubaccounts, 1);
    if Hardened(cfg) {
      ClocksEnd(w, cfg, persona, n, 0, rng + n);
      forall k | 0 <= k < n
        ensures var (phases, nextAt, _) := SubClocks(w, cfg, persona, n, 0, rng + n);
          && phases[k] == w.word(rng + n + 2 * k) % 86_400
          && nextAt[k] == cfg.startTs + Delay(w, persona, cfg.startTs + phases[k], rng + n + 2 * k + 1) * Spacing(cfg, n)
      {
        ClocksDrawn(w, cfg, persona, n, 0, rng + n, k);
      }
    }
  }

  /** Every agent is drawn right after its predecessor, with its accounts, phases and first wake times. */
  ghost predicate Drawn(w: Stream, cfg: SimConfig, personas: seq<Persona>, f: Fleet, rng: Rng)
    requires personas != []
  {
    && f.rng == AgentStart(cfg, personas, |f.agents|, rng) && |f.sched| == |f.nextAt|
    && (forall a :: 0 <= a < |f.agents| ==> DrawnAt(w, cfg, f.agents[a], AgentStart(cfg, personas, a, rng)))
    && forall i :: 0 <= i < |f.sched| ==>
         f.sched[i].agentIdx < |f.agents| &&
         FirstWake(w, cfg, f.agents[f.sched[i].agentIdx], AgentStart(cfg, personas, f.sched[i].agentIdx, rng), f.sched[i],
                   f.nextAt[i])
  }

  lemma {:induction false} FleetDrawn(w: Stream, cfg: SimConfig, personas: seq<Persona>, n: nat, rng: Rng)
    requires personas != []
    ensures Drawn(w, cfg, personas, BuildFleet(w, cfg, personas, n, rng), rng)
    decreases n
  {
    if n > 0 {
      var f := BuildFleet(w, cfg, personas, n - 1, rng);
      FleetDrawn(w, cfg, personas, n - 1, rng);
      var persona := personas[(n - 1) % |personas|];
      AgentDrawn(w, cfg, persona, n - 1, f.rng);
      hide BuildAgent, Drawn, DrawnAt, FirstWake, AgentDraws;
      var (agent, sched, nextAt, end) := BuildAgent(w, cfg, persona, n - 1, f.rng);
      DrawnMore(w, cfg, personas, f, agent, sched, nextAt, end, rng);
    }
  }

  lemma DrawnMore(w: Stream, cfg: SimConfig, personas: seq<Persona>, f: Fleet, agent: Agent, sched: seq<Sched>,
      nextAt: seq<int>, end: Rng, rng: Rng)
    requires personas != [] && Drawn(w, cfg, personas, f, rng)
    requires end == f.rng + AgentDraws(cfg, personas[|f.agents| % |personas|]) && DrawnAt(w, cfg, agent, f.rng)
    requires |sched| == |nextAt| && forall i :: 0 <= i < |sched| ==> sched[i].agentIdx == |f.agents|
    requires forall i :: 0 <= i < |sched| ==> FirstWake(w, cfg, agent, f.rng, sched[i], nextAt[i])
    ensures Drawn(w, cfg, personas, Fleet(f.agents + [agent], f.sched + sched, f.nextAt + nextAt, end), rng)
  {
    hide DrawnAt, FirstWake, AgentDraws;
  }

  /** A fresh run: the externals are drawn first, then the agents, one after the other. */
  lemma FreshDrawn(w: Stream, personas: seq<Persona>, cfg: SimConfig)
    requires Runnable(personas)
    ensures var (s, r, ext) := (FreshSetup(w, personas, cfg), FreshRun(w, personas, cfg), Max(cfg.numExternal, 1));
      && |s.externals| == ext && (forall m :: 0 <= m < ext ==> s.externals[m] == w.id(m))
      && s.end == cfg.startTs + cfg.durationSecs && r.chain == Chain([], cfg.startTs, 0, 0) && r.events == 0
      && |r.agents| == cfg.numAgents && Scheduled(cfg, personas, r.agents, s.sched)
      && Drawn(w, cfg, personas, Fleet(r.agents, s.sched, r.nextAt, r.rng), ext)
  {
    hide BuildFleet, Scheduled, Drawn;
    FleetScheduled(w, cfg, personas, cfg.numAgents, Max(cfg.numExternal, 1));
    FleetDrawn(w, cfg, personas, cfg.numAgents, Max(cfg.numExternal, 1));
  }
}
