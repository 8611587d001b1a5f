/** A funded run is the unfunded one with something appended. */
module FundedRuns {
  import opened Types
  import opened Streams
  import opened Engine
  import opened EventLoop
  import opened Termination
  import opened Funding
  import opened Simulation

  /** The same configuration with another funding policy, or none. */
  function WithFunding(cfg: SimConfig, funding: Option<FundingConfig>): SimConfig {
    cfg.(funding := funding)
  }

  lemma {:induction false} SameClocks(w: Stream, cfg: SimConfig, f: Option<FundingConfig>, persona: Persona, n: nat,
      k: nat, rng: Rng)
    requires k <= n
    ensures SubClocks(w, WithFunding(cfg, f), persona, n, k, rng) == SubClocks(w, cfg, persona, n, k, rng)
    decreases n - k
  {
    hide Delay;
    if k < n {
      SameClocks(w, cfg, f, persona, n, k + 1, rng + 2);
    }
  }

  lemma {:induction false} SameFleet(w: Stream, cfg: SimConfig, f: Option<FundingConfig>, personas: seq<Persona>, n: nat,
      rng: Rng)
    requires personas != []
    ensures BuildFleet(w, WithFunding(cfg, f), personas, n, rng) == BuildFleet(w, cfg, personas, n, rng)
    decreases n
  {
    if n > 0 {
      SameFleet(w, cfg, f, personas, n - 1, rng);
      var g := BuildFleet(w, cfg, personas, n - 1, rng);
      SameAgent(w, cfg, f, personas[(n - 1) % |personas|], n - 1, g.rng);
      hide BuildAgent;
    }
  }

  lemma SameAgent(w: Stream, cfg: SimConfig, f: Option<FundingConfig>, persona: Persona, id: nat, rng: Rng)
    ensures BuildAgent(w, WithFunding(cfg, f), persona, id, rng) == BuildAgent(w, cfg, persona, id, rng)
  {
    hide SubClocks, Delay;
    var n: nat := Max(persona.numSubaccounts, 1);
    SameClocks(w, cfg, f, persona, n, 0, rng + n);
  }

  /** `t` differs from `s` at most in the funding policy. */
  predicate SameBut(s: Setup, t: Setup) {
    t == s.(cfg := WithFunding(s.cfg, t.cfg.funding))
  }

  lemma SameWake(w: Stream, s: Setup, t: Setup, r: Run)
    requires SameBut(s, t) && Consistent(s, r)
    ensures Consistent(t, r) && (Done(t, r) <==> Done(s, r))
    ensures !Done(s, r) ==> Wake(w, t, r) == Wake(w, s, r) && (WakePanics(w, t, r) <==> WakePanics(w, s, r))
  {
    hide PerformAction, PerformActionHardened, Delay, Panics;
  }

  lemma {:induction false} SameAfter(w: Stream, s: Setup, t: Setup, r: Run, n: nat)
    requires SameBut(s, t) && Consistent(s, r) && Consistent(t, r)
    ensures After(w, t, r, n) == After(w, s, r, n)
    decreases n
  {
    hide Wake, SameBut, Consistent, Done;
    SameWake(w, s, t, r);
    if n > 0 && !Done(s, r) {
      SameWake(w, s, t, Wake(w, s, r));
      SameAfter(w, s, t, Wake(w, s, r), n - 1);
    }
  }

  lemma {:induction false} SameFinish(w: Stream, s: Setup, t: Setup, r: Run)
    requires SameBut(s, t) && Consistent(s, r) && Consistent(t, r) && Ending(s) && Ending(t)
    ensures Finish(w, t, r) == Finish(w, s, r)
    decreases Measure(s.end, r.nextAt)
  {
    hide Wake, SameBut, Consistent, Done;
    SameWake(w, s, t, r);
    if !Done(s, r) {
      WakeProgress(w, s, r);
      SameWake(w, s, t, Wake(w, s, r));
      SameFinish(w, s, t, Wake(w, s, r));
    }
  }

  lemma SameProceeds(w: Stream, s: Setup, t: Setup, r: Run)
    requires SameBut(s, t) && Consistent(s, r) && Consistent(t, r)
    ensures Proceeds(w, t, r) <==> Proceeds(w, s, r)
  {
    hide SameBut, Consistent, Done, WakePanics, After;
    forall n: nat ensures Continues(w, t, After(w, t, r, n)) <==> Continues(w, s, After(w, s, r, n)) {
      SameAfter(w, s, t, r, n);
      SameWake(w, s, t, After(w, s, r, n));
    }
  }

  /** What the funding policy is changes neither whether a run completes nor the state it ends in. */
  lemma SameRun(world: World, personas: seq<Persona>, cfg: SimConfig, f: Option<FundingConfig>)
    ensures Accepted(world, personas, WithFunding(cfg, f)) <==> Accepted(world, personas, cfg)
    ensures Accepted(world, personas, cfg) ==> Golden(world, personas, WithFunding(cfg, f)) == Golden(world, personas, cfg)
  {
    hide BuildFleet, Proceeds, Finish, Ending;
    if Runnable(personas) {
      var w := Actions(world, cfg);
      SameFleet(w, cfg, f, personas, cfg.numAgents, Max(cfg.numExternal, 1));
      var s, t, r := FreshSetup(w, personas, cfg), FreshSetup(w, personas, WithFunding(cfg, f)), FreshRun(w, personas, cfg);
      assert SameBut(s, t) && FreshRun(w, personas, WithFunding(cfg, f)) == r;
      SameProceeds(w, s, t, r);
      SameEnding(s, t);
      if Ending(s) {
        SameFinish(w, s, t, r);
      }
    }
  }

  lemma SameEnding(s: Setup, t: Setup)
    requires SameBut(s, t)
    ensures Ending(t) <==> Ending(s)
  {
  }

  /** The unfunded ledger comes first, byte for byte; without a policy and in naive mode it is all. */
  lemma FundingOnlyAppends(world: World, personas: seq<Persona>, cfg: SimConfig)
    requires Accepted(world, personas, cfg)
    ensures Accepted(world, personas, WithFunding(cfg, None))
    ensures var base := Simulate(world, personas, WithFunding(cfg, None));
      && base <= Simulate(world, personas, cfg) && base == Golden(world, personas, cfg).chain.records
      && (cfg.funding == None || cfg.mode == Naive ==> Simulate(world, personas, cfg) == base)
  {
    hide Accepted, Golden, Suffix;
    SameRun(world, personas, cfg, None);
    GoldenSigned(world, personas, cfg);
    GoldenSigned(world, personas, WithFunding(cfg, None));
  }
}
