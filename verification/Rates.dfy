/** How often agents wake: what holding the aggregate rate guarantees over whole runs. */
module Rates {
  import opened Types
  import opened Streams
  import opened Splitting
  import opened Engine
  import opened EventLoop
  import opened Termination

  /** The least time between two wakes of schedule entry `e`. */
  function EntrySpacing(cfg: SimConfig, agents: seq<Agent>, e: Sched): (g: nat)
    requires EntryFits(e, agents) && agents[e.agentIdx].subaccounts != []
    ensures g >= 1
  {
    if e.subIdx.Some? then Spacing(cfg, |agents[e.agentIdx].subaccounts|) else 1
  }

  /** Delays are those of the persona's profile at the second of the day, also before the epoch, but never zero. */
  lemma DelayOfDay(w: Stream, persona: Persona, day: int, second: nat, rng: Rng)
    requires second < 86_400
    ensures var d := w.delay(persona.profile, second, rng);
      Delay(w, persona, 86_400 * day + second, rng) == if d == 0 then 1 else d
  {
    assert (86_400 * day + second) % 86_400 == second;
  }

  /** The delay drawn after the wake of entry `e` at `best`: a sub-account draws at its own phase of the day. */
  function DrawnDelay(w: Stream, agents: seq<Agent>, e: Sched, best: int, rng: Rng): (d: int)
    requires EntryFits(e, agents)
    ensures d >= 1
  {
    var a := agents[e.agentIdx];
    match e.subIdx
    case None => Delay(w, a.persona, best, rng)
    case Some(k) => Delay(w, a.persona, SatAdd(best, a.phases[k]), rng)
  }

  /**
   * The entry that woke is due again after the delay drawn once the wake is over, times its agent's
   * accounts when the aggregate rate is held; every other entry stays as it is.
   */
  lemma WakeReschedules(w: Stream, s: Setup, r: Run)
    requires Consistent(s, r) && !Done(s, r)
    ensures var (si, r') := (Soonest(r.nextAt), Wake(w, s, r));
      var (e, best) := (s.sched[si], r.nextAt[si]);
      && EntryFits(e, r.agents) && r'.rng >= 1
      && r'.nextAt == r.nextAt[si :=
           SatAdd(best, DrawnDelay(w, r.agents, e, best, r'.rng - 1) * EntrySpacing(s.cfg, r.agents, e))]
  {
    hide Acted, Delay;
    var e := s.sched[Soonest(r.nextAt)];
    assert EntryFits(e, r.agents);
    assert r.agents[e.agentIdx].subaccounts != [];
  }

  /** The spacing of every entry. */
  ghost function Gaps(s: Setup, r: Run): (g: seq<nat>)
    requires Consistent(s, r)
    ensures |g| == |s.sched|
    ensures forall i :: 0 <= i < |g| ==> g[i] >= 1
  {
    seq(|s.sched|, i requires 0 <= i < |s.sched| =>
      assert EntryFits(s.sched[i], r.agents); EntrySpacing(s.cfg, r.agents, s.sched[i]))
  }

  /** No wake changes how many accounts an agent has. */
  lemma WakeKeepsGaps(w: Stream, s: Setup, r: Run)
    requires Consistent(s, r) && !Done(s, r)
    ensures Gaps(s, Wake(w, s, r)) == Gaps(s, r)
  {
    hide Acted, Rescheduled;
    var e := s.sched[Soonest(r.nextAt)];
    assert EntryFits(e, r.agents);
    var r' := Wake(w, s, r);
    forall i | 0 <= i < |s.sched| ensures Gaps(s, r')[i] == Gaps(s, r)[i] {
      assert EntryFits(s.sched[i], r.agents);
    }
  }

  /** How often an entry due at `at` can still wake, `gap` seconds apart. */
  function Turns(end: int, at: int, gap: nat): nat
    requires gap >= 1
  {
    if at <= end then (end - at) / gap + 1 else 0
  }

  ghost function TotalTurns(end: int, nextAt: seq<int>, gaps: seq<nat>): nat
    requires |nextAt| == |gaps| && forall i :: 0 <= i < |gaps| ==> gaps[i] >= 1
  {
    if nextAt == [] then 0
    else
      TotalTurns(end, nextAt[..|nextAt| - 1], gaps[..|nextAt| - 1]) + Turns(end, nextAt[|nextAt| - 1], gaps[|nextAt| - 1])
  }

  lemma {:induction false} TurnsUpdate(end: int, nextAt: seq<int>, gaps: seq<nat>, i: nat, t: int)
    requires |nextAt| == |gaps| && forall j :: 0 <= j < |gaps| ==> gaps[j] >= 1
    requires i < |nextAt|
    ensures TotalTurns(end, nextAt[i := t], gaps) ==
      TotalTurns(end, nextAt, gaps) - Turns(end, nextAt[i], gaps[i]) + Turns(end, t, gaps[i])
    decreases |nextAt|
  {
    hide Turns;
    var n := |nextAt| - 1;
    if i == n {
      assert nextAt[i := t][..n] == nextAt[..n];
    } else {
      TurnsUpdate(end, nextAt[..n], gaps[..n], i, t);
      assert nextAt[i := t][..n] == nextAt[..n][i := t];
    }
  }

  /** Waking uses up a turn. */
  lemma TurnUsed(end: int, best: int, d: int, gap: nat)
    requires gap >= 1 && d >= 1 && best <= end < I64_MAX
    ensures Turns(end, SatAdd(best, d * gap), gap) < Turns(end, best, gap)
  {
    var t := SatAdd(best, d * gap);
    assert d * gap >= gap;
    if t <= end {
      assert end - t <= end - best - gap;
      OneLess(end - best, end - t, gap);
    }
  }

  lemma OneLess(x: nat, y: nat, gap: nat)
    requires gap >= 1 && y + gap <= x
    ensures y / gap + 1 <= x / gap
  {
    var q, p := x / gap, y / gap;
    Distribute(p, 1, gap);
    Distribute(q, 1, gap);
    Cancel(p + 1, q + 1, gap);
  }

  /** Events are bounded by the turns left. */
  lemma {:induction false} TurnBound(w: Stream, s: Setup, r: Run)
    requires Consistent(s, r) && Ending(s)
    ensures Finish(w, s, r).events <= r.events + TotalTurns(s.end, r.nextAt, Gaps(s, r))
    decreases Measure(s.end, r.nextAt)
  {
    if !Done(s, r) {
      WakeProgress(w, s, r);
      WakeUsesTurn(w, s, r);
      hide Wake, Gaps, TotalTurns;
      TurnBound(w, s, Wake(w, s, r));
    }
  }

  lemma WakeUsesTurn(w: Stream, s: Setup, r: Run)
    requires Consistent(s, r) && !Done(s, r) && Ending(s)
    ensures TotalTurns(s.end, Wake(w, s, r).nextAt, Gaps(s, Wake(w, s, r))) < TotalTurns(s.end, r.nextAt, Gaps(s, r))
  {
    hide Wake, Delay;
    WakeKeepsGaps(w, s, r);
    WakeReschedules(w, s, r);
    var si, r' := Soonest(r.nextAt), Wake(w, s, r);
    var e, best := s.sched[si], r.nextAt[si];
    assert EntryFits(e, r.agents);
    var d := DrawnDelay(w, r.agents, e, best, r'.rng - 1);
    TurnUsed(s.end, best, d, Gaps(s, r)[si]);
    hide Turns, TotalTurns, DrawnDelay;
    TurnsUpdate(s.end, r.nextAt, Gaps(s, r), si, r'.nextAt[si]);
  }

  /** A finished run has nothing left that is due. */
  lemma FinishPastEnd(w: Stream, s: Setup, r: Run)
    requires Consistent(s, r) && Ending(s)
    ensures forall i :: 0 <= i < |s.sched| ==> Finish(w, s, r).nextAt[i] > s.end
  {
    var f := Finish(w, s, r);
    assert Done(s, f) && |f.nextAt| == |s.sched|;
  }

  // ---- fresh runs ----

  lemma {:induction false} TurnsSplit(end: int, a: seq<int>, b: seq<int>, g: seq<nat>, h: seq<nat>)
    requires |a| == |g| && |b| == |h|
    requires (forall i :: 0 <= i < |g| ==> g[i] >= 1) && (forall i :: 0 <= i < |h| ==> h[i] >= 1)
    ensures TotalTurns(end, a + b, g + h) == TotalTurns(end, a, g) + TotalTurns(end, b, h)
    decreases |b|
  {
    hide Turns;
    if b == [] {
      assert a + b == a && g + h == g;
    } else {
      var n := |b| - 1;
      TurnsSplit(end, a, b[..n], g, h[..n]);
      assert (a + b)[..|a| + n] == a + b[..n] && (g + h)[..|a| + n] == g + h[..n];
    }
  }

  function Even(gap: nat, n: nat): (g: seq<nat>)
    ensures |g| == n && forall i :: 0 <= i < n ==> g[i] == gap
  {
    seq(n, i => gap)
  }

  /** Entries that all start one gap after the start share the time between them. */
  lemma {:induction false} TurnsShared(start: int, duration: nat, nextAt: seq<int>, gap: nat)
    requires gap >= 1 && forall i :: 0 <= i < |nextAt| ==> nextAt[i] >= start + gap
    ensures TotalTurns(start + duration, nextAt, Even(gap, |nextAt|)) <= |nextAt| * (duration / gap)
    decreases |nextAt|
  {
    if nextAt != [] {
      var n := |nextAt| - 1;
      TurnsShared(start, duration, nextAt[..n], gap);
      assert Even(gap, |nextAt|)[..n] == Even(gap, n);
      if nextAt[n] <= start + duration {
        OneLess(duration, start + duration - nextAt[n], gap);
      }
      Distribute(n, 1, duration / gap);
    }
  }

  /** The gaps of entries as a fleet's agents give them. */
  ghost function FleetGaps(cfg: SimConfig, sched: seq<Sched>, agents: seq<Agent>): (g: seq<nat>)
    requires forall i :: 0 <= i < |sched| ==> EntryFits(sched[i], agents)
    requires forall a :: 0 <= a < |agents| ==> agents[a].subaccounts != []
    ensures |g| == |sched| && forall i :: 0 <= i < |g| ==> g[i] >= 1
  {
    seq(|sched|, i requires 0 <= i < |sched| => EntrySpacing(cfg, agents, sched[i]))
  }

  /** How many turns the accounts of one persona get in a run that lasts `duration`. */
  function PersonaTurns(cfg: SimConfig, persona: Persona): nat {
    var duration := Max(cfg.durationSecs, 0);
    if Hardened(cfg) && !cfg.hardening.holdAggregateRate then Max(persona.numSubaccounts, 1) * duration else duration
  }

  /** An agent alone makes no more events than its persona has turns. */
  lemma AgentTurns(w: Stream, cfg: SimConfig, persona: Persona, id: nat, rng: Rng)
    ensures var (agent, sched, nextAt, _) := BuildAgent(w, cfg, persona, id, rng);
      var n := Max(persona.numSubaccounts, 1);
      var gap := if Hardened(cfg) then Spacing(cfg, n) else 1;
      && |nextAt| == |sched| && |agent.subaccounts| == n && gap >= 1
      && (forall i :: 0 <= i < |sched| ==> (sched[i].subIdx.Some? <==> Hardened(cfg)))
      && TotalTurns(cfg.startTs + cfg.durationSecs, nextAt, Even(gap, |nextAt|)) <= PersonaTurns(cfg, persona)
  {
    hide Delay, TotalTurns;
    var n: nat := Max(persona.numSubaccounts, 1);
    var gap := if Hardened(cfg) then Spacing(cfg, n) else 1;
    var nextAt := BuildAgent(w, cfg, persona, id, rng).2;
    if Hardened(cfg) {
      forall i | 0 <= i < n ensures nextAt[i] >= cfg.startTs + gap {
        ClockSpaced(w, cfg, persona, n, 0, rng + n, i);
      }
    }
    if cfg.durationSecs < 0 {
      NoTurns(cfg.startTs + cfg.durationSecs, nextAt, gap);
    } else {
      TurnsShared(cfg.startTs, cfg.durationSecs, nextAt, gap);
      Shared(cfg.durationSecs, n);
    }
  }

  lemma Shared(duration: nat, n: nat)
    requires n >= 1
    ensures n * (duration / n) <= duration && duration / 1 == duration
  {
  }

  lemma {:induction false} NoTurns(end: int, nextAt: seq<int>, gap: nat)
    requires gap >= 1 && forall i :: 0 <= i < |nextAt| ==> nextAt[i] > end
    ensures TotalTurns(end, nextAt, Even(gap, |nextAt|)) == 0
    decreases |nextAt|
  {
    if nextAt != [] {
      NoTurns(end, nextAt[..|nextAt| - 1], gap);
      assert Even(gap, |nextAt|)[..|nextAt| - 1] == Even(gap, |nextAt| - 1);
    }
  }

  /** The turns of the first `n` agents' personas, which are taken in turn. */
  function AllTurns(cfg: SimConfig, personas: seq<Persona>, n: nat): nat
    requires personas != []
  {
    if n == 0 then 0 else AllTurns(cfg, personas, n - 1) + PersonaTurns(cfg, personas[(n - 1) % |personas|])
  }

  lemma {:induction false} FleetTurns(w: Stream, cfg: SimConfig, personas: seq<Persona>, n: nat, rng: Rng)
    requires personas != []
    ensures var f := BuildFleet(w, cfg, personas, n, rng);
      TotalTurns(cfg.startTs + cfg.durationSecs, f.nextAt, FleetGaps(cfg, f.sched, f.agents)) <= AllTurns(cfg, personas, n)
    decreases n
  {
    hide BuildAgent, PersonaTurns, TotalTurns, Spacing, FleetGaps, Hardened;
    if n == 0 {
      NoTurns(cfg.startTs + cfg.durationSecs, [], 1);
      assert Even(1, 0) == [];
    } else {
      var persona := personas[(n - 1) % |personas|];
      var f := BuildFleet(w, cfg, personas, n - 1, rng);
      FleetTurns(w, cfg, personas, n - 1, rng);
      AgentTurns(w, cfg, persona, n - 1, f.rng);
      var (agent, sched, nextAt, _) := BuildAgent(w, cfg, persona, n - 1, f.rng);
      var gap := if Hardened(cfg) then Spacing(cfg, |agent.subaccounts|) else 1;
      GapsAppend(cfg, f.sched, f.agents, agent, sched, gap);
      TurnsSplit(cfg.startTs + cfg.durationSecs, f.nextAt, nextAt, FleetGaps(cfg, f.sched, f.agents), Even(gap, |nextAt|));
    }
  }

  /** One more agent leaves the gaps of the others and adds its own. */
  lemma GapsAppend(cfg: SimConfig, sched: seq<Sched>, agents: seq<Agent>, agent: Agent, more: seq<Sched>, gap: nat)
    requires forall i :: 0 <= i < |sched| ==> EntryFits(sched[i], agents)
    requires forall a :: 0 <= a < |agents| ==> agents[a].subaccounts != []
    requires agent.subaccounts != [] && forall i :: 0 <= i < |more| ==> EntryFits(more[i], agents + [agent])
    requires gap == if Hardened(cfg) then Spacing(cfg, |agent.subaccounts|) else 1
    requires forall i :: 0 <= i < |more| ==> more[i].agentIdx == |agents| && (more[i].subIdx.Some? <==> Hardened(cfg))
    ensures forall i :: 0 <= i < |sched| ==> EntryFits(sched[i], agents + [agent])
    ensures FleetGaps(cfg, sched + more, agents + [agent]) == FleetGaps(cfg, sched, agents) + Even(gap, |more|)
  {
    hide Spacing, Hardened;
    var all := agents + [agent];
    assert all[|agents|] == agent;
  }

  /**
   * A run makes at most as many events as its agents' personas have turns: one per agent and second
   * when the aggregate rate is held or every agent has one clock, however many accounts it has.
   */
  lemma AggregateRate(w: Stream, personas: seq<Persona>, cfg: SimConfig)
    requires Runnable(personas) && Ending(FreshSetup(w, personas, cfg))
    ensures var f := Finish(w, FreshSetup(w, personas, cfg), FreshRun(w, personas, cfg));
      && f.events <= AllTurns(cfg, personas, cfg.numAgents)
      && (!Hardened(cfg) || cfg.hardening.holdAggregateRate ==> f.events <= cfg.numAgents * Max(cfg.durationSecs, 0))
  {
    hide BuildFleet, Finish, TotalTurns, Ending;
    var s, r := FreshSetup(w, personas, cfg), FreshRun(w, personas, cfg);
    TurnBound(w, s, r);
    FleetTurns(w, cfg, personas, cfg.numAgents, Max(cfg.numExternal, 1));
    assert Gaps(s, r) == FleetGaps(cfg, s.sched, r.agents);
    if !Hardened(cfg) || cfg.hardening.holdAggregateRate {
      HeldTurns(cfg, personas, cfg.numAgents);
    }
  }

  lemma {:induction false} HeldTurns(cfg: SimConfig, personas: seq<Persona>, n: nat)
    requires personas != [] && (!Hardened(cfg) || cfg.hardening.holdAggregateRate)
    ensures AllTurns(cfg, personas, n) == n * Max(cfg.durationSecs, 0)
  {
    if n > 0 {
      HeldTurns(cfg, personas, n - 1);
      Distribute(n - 1, 1, Max(cfg.durationSecs, 0));
    }
  }
}
