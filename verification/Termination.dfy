/** When the event loop comes to an end, and when a wake stops the original before that. */
module Termination {
  import opened Types
  import opened Streams
  import opened Splitting
  import opened Engine
  import opened EventLoop

  /** The state after `n` events, or the last one when there are fewer. */
  ghost function After(w: Stream, s: Setup, r: Run, n: nat): (a: Run)
    requires Consistent(s, r)
    ensures Consistent(s, a)
    decreases n
  {
    if n == 0 || Done(s, r) then r else After(w, s, Wake(w, s, r), n - 1)
  }

  /** The loop comes to an end. */
  ghost predicate Ends(w: Stream, s: Setup, r: Run)
    requires Consistent(s, r)
  {
    exists n: nat :: Done(s, After(w, s, r, n))
  }

  /** No wake time exceeds 64 bits. */
  ghost predicate Representable(nextAt: seq<int>) {
    forall i :: 0 <= i < |nextAt| ==> nextAt[i] <= I64_MAX
  }

  /** One event at the saturation point leaves everything as it needs to be for another one. */
  lemma WakeStaysDue(w: Stream, s: Setup, r: Run)
    requires Consistent(s, r) && s.end >= I64_MAX && r.nextAt != [] && Representable(r.nextAt)
    ensures !Done(s, r)
    ensures var r' := Wake(w, s, r); r'.nextAt != [] && Representable(r'.nextAt) && r'.events == r.events + 1
  {
    hide Acted;
  }

  /** At or beyond the saturation point, no number of events ends a loop that has anything scheduled. */
  lemma {:induction false} NeverDone(w: Stream, s: Setup, r: Run, n: nat)
    requires Consistent(s, r) && s.end >= I64_MAX && r.nextAt != [] && Representable(r.nextAt)
    ensures var a := After(w, s, r, n); !Done(s, a) && a.events == r.events + n
    decreases n
  {
    hide Wake, Consistent, Done, Representable;
    WakeStaysDue(w, s, r);
    if n > 0 {
      NeverDone(w, s, Wake(w, s, r), n - 1);
    }
  }

  /** The final state is reached after finitely many events. */
  lemma {:induction false} ReachesFinish(w: Stream, s: Setup, r: Run) returns (n: nat)
    requires Consistent(s, r) && Ending(s)
    ensures After(w, s, r, n) == Finish(w, s, r)
    decreases Measure(s.end, r.nextAt)
  {
    n := 0;
    if !Done(s, r) {
      WakeProgress(w, s, r);
      n := ReachesFinish(w, s, Wake(w, s, r));
      n := n + 1;
    }
  }

  lemma EndsIff(w: Stream, s: Setup, r: Run)
    requires Consistent(s, r) && Representable(r.nextAt)
    ensures Ends(w, s, r) <==> Ending(s)
  {
    if Ending(s) {
      var n := ReachesFinish(w, s, r);
    } else {
      forall n: nat ensures !Done(s, After(w, s, r, n)) {
        NeverDone(w, s, r, n);
      }
    }
  }

  lemma {:induction false} FleetScheduled(w: Stream, cfg: SimConfig, personas: seq<Persona>, n: nat, rng: Rng)
    requires personas != []
    ensures BuildFleet(w, cfg, personas, n, rng).sched == [] <==> n == 0
    decreases n
  {
    if n > 0 {
      FleetScheduled(w, cfg, personas, n - 1, rng);
    }
  }

  lemma EndingIff(w: Stream, personas: seq<Persona>, cfg: SimConfig)
    requires Runnable(personas)
    ensures Ending(FreshSetup(w, personas, cfg)) <==> cfg.startTs + cfg.durationSecs < I64_MAX || cfg.numAgents == 0
  {
    FleetScheduled(w, cfg, personas, cfg.numAgents, Max(cfg.numExternal, 1));
  }

  /** A run ends iff its end is below the largest 64-bit time or there are no agents. */
  lemma RunEndsIff(w: Stream, personas: seq<Persona>, cfg: SimConfig)
    requires Runnable(personas) && Representable(FreshRun(w, personas, cfg).nextAt)
    ensures Ends(w, FreshSetup(w, personas, cfg), FreshRun(w, personas, cfg)) <==>
      cfg.startTs + cfg.durationSecs < I64_MAX || cfg.numAgents == 0
  {
    EndingIff(w, personas, cfg);
    EndsIff(w, FreshSetup(w, personas, cfg), FreshRun(w, personas, cfg));
  }

  /** One naive agent with one account, for as long as the clock can count. */
  function Forever(numAgents: nat): SimConfig {
    SimConfig(numAgents, I64_MAX, 0, Naive, 0, 1, false,
              Hardening(Fraction(1, 1), Fraction(0, 1), 1, 1, false, RotateAccounts), None)
  }

  function OneAccount(): Persona {
    Persona(0, 1, SplitPolicy(1, 1, 1), 1)
  }

  /** That run never ends, and without the agent it ends at once. */
  lemma ForeverNeverEnds()
    ensures var (w, personas) := (Plainest(), [OneAccount()]);
      && !Ends(w, FreshSetup(w, personas, Forever(1)), FreshRun(w, personas, Forever(1)))
      && Ends(w, FreshSetup(w, personas, Forever(0)), FreshRun(w, personas, Forever(0)))
  {
    var w, personas := Plainest(), [OneAccount()];
    assert BuildFleet(w, Forever(1), personas, 0, 1) == Fleet([], [], [], 1);
    assert FreshRun(w, personas, Forever(1)).nextAt == [] + [1];
    assert FreshRun(w, personas, Forever(0)).nextAt == [];
    RunEndsIff(w, personas, Forever(1));
    RunEndsIff(w, personas, Forever(0));
  }

  // ---- when a hub sweep stops the original ----

  /** No event stops the original. */
  ghost predicate Proceeds(w: Stream, s: Setup, r: Run)
    requires Consistent(s, r)
  {
    forall n: nat :: Continues(w, s, After(w, s, r, n))
  }

  ghost predicate Continues(w: Stream, s: Setup, r: Run)
    requires Consistent(s, r)
  {
    Done(s, r) || !WakePanics(w, s, r)
  }

  /** One event of a run that proceeds leaves a run that proceeds. */
  lemma ProceedsNext(w: Stream, s: Setup, r: Run)
    requires Consistent(s, r) && Proceeds(w, s, r) && !Done(s, r)
    ensures !WakePanics(w, s, r) && Proceeds(w, s, Wake(w, s, r))
  {
    hide WakePanics, Wake, Consistent;
    assert After(w, s, r, 0) == r;
    forall n: nat ensures Continues(w, s, After(w, s, Wake(w, s, r), n)) {
      assert After(w, s, Wake(w, s, r), n) == After(w, s, r, n + 1);
    }
  }

  predicate ManyAccounts(s: Setup, r: Run, i: nat)
    requires i < |s.sched| && s.sched[i].agentIdx < |r.agents|
  {
    s.sched[i].subIdx.Some? && |r.agents[s.sched[i].agentIdx].subaccounts| >= 2
  }

  /** No entry with accounts to sweep is due before the end. */
  ghost predicate Harmless(s: Setup, r: Run)
    requires Consistent(s, r)
  {
    forall i {:trigger r.nextAt[i]} :: 0 <= i < |s.sched| && EntryFits(s.sched[i], r.agents) && ManyAccounts(s, r, i) ==>
      r.nextAt[i] > s.end
  }

  lemma HarmlessWake(w: Stream, s: Setup, r: Run)
    requires Consistent(s, r) && Harmless(s, r) && !Done(s, r)
    ensures !WakePanics(w, s, r) && Harmless(s, Wake(w, s, r))
  {
  }

  lemma {:induction false} HarmlessProceeds(w: Stream, s: Setup, r: Run, n: nat)
    requires Consistent(s, r) && Harmless(s, r)
    ensures Continues(w, s, After(w, s, r, n))
    decreases n
  {
    hide Wake, WakePanics, Harmless, Consistent;
    if !Done(s, r) {
      HarmlessWake(w, s, r);
      if n > 0 {
        HarmlessProceeds(w, s, Wake(w, s, r), n - 1);
      }
    }
  }

  /** Every wake draws maintenance, and entry `i`, with accounts to sweep, is due in time: the original stops. */
  lemma {:induction false} PanicReached(w: Stream, s: Setup, r: Run, i: nat) returns (n: nat)
    requires Consistent(s, r) && Ending(s) && i < |s.sched| && EntryFits(s.sched[i], r.agents)
    requires ManyAccounts(s, r, i) && r.nextAt[i] <= s.end
    requires s.cfg.hardening.rebalance == DirectHub && s.cfg.hardening.sweepMaxSources == 0
    requires forall rng: nat :: Chance(w, rng, s.cfg.hardening.consolidationProb.Value())
    ensures !Continues(w, s, After(w, s, r, n))
    decreases Measure(s.end, r.nextAt)
  {
    n := 0;
    assert !Done(s, r);
    if !WakePanics(w, s, r) {
      KeptEntry(w, s, r, i);
      WakeProgress(w, s, r);
      n := PanicReached(w, s, Wake(w, s, r), i);
      n := n + 1;
    }
  }

  /** An event that does not panic although maintenance was drawn belongs to another entry. */
  lemma KeptEntry(w: Stream, s: Setup, r: Run, i: nat)
    requires Consistent(s, r) && !Done(s, r) && i < |s.sched| && EntryFits(s.sched[i], r.agents) && ManyAccounts(s, r, i)
    requires s.cfg.hardening.rebalance == DirectHub && s.cfg.hardening.sweepMaxSources == 0
    requires !WakePanics(w, s, r) && Chance(w, r.rng, s.cfg.hardening.consolidationProb.Value())
    ensures var r' := Wake(w, s, r);
      EntryFits(s.sched[i], r'.agents) && ManyAccounts(s, r', i) && r'.nextAt[i] == r.nextAt[i]
  {
  }

  // ---- the condition in terms of the inputs ----

  /** The least time between two wakes of one of `n` accounts. */
  function Spacing(cfg: SimConfig, n: nat): nat {
    if cfg.hardening.holdAggregateRate then n else 1
  }

  /** An agent of this persona can be due before the end with accounts to sweep. */
  predicate SweepsInTime(p: Persona, cfg: SimConfig) {
    p.numSubaccounts >= 2 && Spacing(cfg, p.numSubaccounts) <= cfg.durationSecs
  }

  /** A hardened run may draw a hub sweep, of at most zero sources, for an agent with accounts to sweep. */
  predicate MayPanic(personas: seq<Persona>, cfg: SimConfig)
    requires Runnable(personas)
  {
    && Hardened(cfg) && cfg.hardening.rebalance == DirectHub && cfg.hardening.sweepMaxSources == 0
    && cfg.hardening.consolidationProb.Value() > 0.0
    && exists a: nat :: a < cfg.numAgents && SweepsInTime(personas[a % |personas|], cfg)
  }

  /** Every agent is due again as soon as it can be. */
  ghost predicate Prompt(w: Stream) {
    forall persona: Persona, at: int, rng: Rng :: Delay(w, persona, at, rng) == 1
  }

  lemma {:induction false} ClockSpaced(w: Stream, cfg: SimConfig, persona: Persona, n: nat, k: nat, rng: Rng, i: nat)
    requires 1 <= n && k <= n && i < n - k
    ensures var at := SubClocks(w, cfg, persona, n, k, rng).1[i];
      at >= cfg.startTs + Spacing(cfg, n) && (Prompt(w) ==> at == cfg.startTs + Spacing(cfg, n))
    decreases n - k
  {
    FirstTime(w, cfg, persona, n, rng);
    hide SubClock, Prompt;
    if i > 0 {
      ClockSpaced(w, cfg, persona, n, k + 1, rng + 2, i - 1);
    }
  }

  lemma FirstTime(w: Stream, cfg: SimConfig, persona: Persona, n: nat, rng: Rng)
    requires n >= 1
    ensures var at := SubClock(w, cfg, persona, n, rng).1;
      at >= cfg.startTs + Spacing(cfg, n) && (Prompt(w) ==> at == cfg.startTs + Spacing(cfg, n))
  {
    var d := Delay(w, persona, cfg.startTs + w.word(rng) % 86_400, rng + 1);
    assert d * n >= n;
  }

  /** What is known of schedule entry `e`, first due at `at`. */
  ghost predicate FirstDue(w: Stream, cfg: SimConfig, personas: seq<Persona>, agents: seq<Agent>, e: Sched, at: int)
    requires personas != []
  {
    && e.agentIdx < |agents| && |agents[e.agentIdx].subaccounts| == Max(personas[e.agentIdx % |personas|].numSubaccounts, 1)
    && (e.subIdx.Some? ==>
         var first := cfg.startTs + Spacing(cfg, |agents[e.agentIdx].subaccounts|);
         Hardened(cfg) && at >= first && (Prompt(w) ==> at == first))
  }

  lemma AgentDue(w: Stream, cfg: SimConfig, personas: seq<Persona>, agents: seq<Agent>, rng: Rng, i: nat)
    requires personas != []
    ensures var (agent, sched, nextAt, _) := BuildAgent(w, cfg, personas[|agents| % |personas|], |agents|, rng);
      i < |sched| ==> FirstDue(w, cfg, personas, agents + [agent], sched[i], nextAt[i])
  {
    hide SubClocks, Prompt, Delay;
    var persona := personas[|agents| % |personas|];
    var n: nat := Max(persona.numSubaccounts, 1);
    if i < n {
      ClockSpaced(w, cfg, persona, n, 0, rng + n, i);
    }
    var (agent, sched, nextAt, _) := BuildAgent(w, cfg, persona, |agents|, rng);
    assert (agents + [agent])[|agents|] == agent;
  }

  lemma {:induction false} FleetDue(w: Stream, cfg: SimConfig, personas: seq<Persona>, n: nat, rng: Rng, i: nat)
    requires personas != []
    ensures var f := BuildFleet(w, cfg, personas, n, rng);
      i < |f.sched| ==> FirstDue(w, cfg, personas, f.agents, f.sched[i], f.nextAt[i])
    decreases n
  {
    hide BuildAgent, Prompt, Spacing;
    if n > 0 {
      var f := BuildFleet(w, cfg, personas, n - 1, rng);
      FleetDue(w, cfg, personas, n - 1, rng, i);
      if i >= |f.sched| {
        AgentDue(w, cfg, personas, f.agents, f.rng, i - |f.sched|);
      }
    }
  }

  lemma AgentEntries(w: Stream, cfg: SimConfig, persona: Persona, id: nat, rng: Rng)
    requires Hardened(cfg)
    ensures var sched := BuildAgent(w, cfg, persona, id, rng).1;
      sched != [] && sched[0].agentIdx == id && sched[0].subIdx.Some?
  {
    hide SubClocks;
  }

  /** In a hardened run every agent has an entry. */
  lemma {:induction false} FleetEntry(w: Stream, cfg: SimConfig, personas: seq<Persona>, n: nat, rng: Rng, a: nat)
    returns (i: nat)
    requires personas != [] && Hardened(cfg) && a < n
    ensures var f := BuildFleet(w, cfg, personas, n, rng);
      i < |f.sched| && f.sched[i].agentIdx == a && f.sched[i].subIdx.Some?
    decreases n
  {
    var f := BuildFleet(w, cfg, personas, n - 1, rng);
    AgentEntries(w, cfg, personas[(n - 1) % |personas|], n - 1, f.rng);
    hide BuildAgent;
    if a == n - 1 {
      i := |f.sched|;
    } else {
      i := FleetEntry(w, cfg, personas, n - 1, rng, a);
    }
  }

  lemma FreshHarmless(w: Stream, personas: seq<Persona>, cfg: SimConfig)
    requires Runnable(personas)
    requires Hardened(cfg) ==> forall a: nat :: a < cfg.numAgents ==> !SweepsInTime(personas[a % |personas|], cfg)
    ensures Harmless(FreshSetup(w, personas, cfg), FreshRun(w, personas, cfg))
  {
    hide BuildFleet;
    var s, r := FreshSetup(w, personas, cfg), FreshRun(w, personas, cfg);
    forall i | 0 <= i < |s.sched| && EntryFits(s.sched[i], r.agents) && ManyAccounts(s, r, i) ensures r.nextAt[i] > s.end {
      FleetDue(w, cfg, personas, cfg.numAgents, Max(cfg.numExternal, 1), i);
      assert !SweepsInTime(personas[s.sched[i].agentIdx % |personas|], cfg);
    }
  }

  /** Unless a sweep may find nothing it may take, no draw stream stops the original. */
  lemma AlwaysProceeds(w: Stream, personas: seq<Persona>, cfg: SimConfig)
    requires Runnable(personas) && !MayPanic(personas, cfg)
    ensures Proceeds(w, FreshSetup(w, personas, cfg), FreshRun(w, personas, cfg))
  {
    var s, r := FreshSetup(w, personas, cfg), FreshRun(w, personas, cfg);
    if cfg.hardening.rebalance == DirectHub && cfg.hardening.sweepMaxSources == 0 && cfg.hardening.consolidationProb.Value() > 0.0 {
      FreshHarmless(w, personas, cfg);
      forall n: nat ensures Continues(w, s, After(w, s, r, n)) {
        HarmlessProceeds(w, s, r, n);
      }
    }
  }

  lemma PlainlyPanics(personas: seq<Persona>, cfg: SimConfig, a: nat)
    requires Runnable(personas) && Ending(FreshSetup(Plainest(), personas, cfg)) && MayPanic(personas, cfg)
    requires a < cfg.numAgents && SweepsInTime(personas[a % |personas|], cfg)
    ensures !Proceeds(Plainest(), FreshSetup(Plainest(), personas, cfg), FreshRun(Plainest(), personas, cfg))
  {
    hide BuildFleet;
    var w := Plainest();
    var s, r := FreshSetup(w, personas, cfg), FreshRun(w, personas, cfg);
    var i := FleetEntry(w, cfg, personas, cfg.numAgents, Max(cfg.numExternal, 1), a);
    FleetDue(w, cfg, personas, cfg.numAgents, Max(cfg.numExternal, 1), i);
    var n := PanicReached(w, s, r, i);
  }

  /** Some draw stream stops the original iff a sweep may find nothing it may take. */
  lemma ProceedsIff(personas: seq<Persona>, cfg: SimConfig)
    requires Runnable(personas) && (cfg.startTs + cfg.durationSecs < I64_MAX || cfg.numAgents == 0)
    ensures (forall w: Stream :: Proceeds(w, FreshSetup(w, personas, cfg), FreshRun(w, personas, cfg)))
      <==> !MayPanic(personas, cfg)
  {
    if MayPanic(personas, cfg) {
      var a: nat :| a < cfg.numAgents && SweepsInTime(personas[a % |personas|], cfg);
      EndingIff(Plainest(), personas, cfg);
      PlainlyPanics(personas, cfg, a);
    } else {
      forall w: Stream ensures Proceeds(w, FreshSetup(w, personas, cfg), FreshRun(w, personas, cfg)) {
        AlwaysProceeds(w, personas, cfg);
      }
    }
  }
}
