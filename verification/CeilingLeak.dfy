/** Uniting whole windows links operators: a run of two agents in which they pay one second apart. */
module CeilingLeak {
  import opened Types
  import opened Streams
  import opened Graph
  import opened Groups
  import opened Rules
  import opened Metric
  import opened Engine
  import opened EventLoop
  import opened Residual
  import opened Simulation
  import opened PlainRuns
  import opened Crossings

  function Calm(): Fraction {
    Fraction(0, 1)
  }

  function AgentAt(id: AgentId, account: AccountId): Agent {
    Agent(id, PlainPersona(1), [account], [0], account)
  }

  function TwoRecords(): Ledger {
    [TxRecord(1, 1, 2, 12, 1, 0, 1, Transfer, Some(0)), TxRecord(2, 2, 3, 20, 4, 0, 1, Transfer, Some(1))]
  }

  function State(n: nat, nextAt: seq<int>, clock: int, rng: Rng): Run
    requires n <= 2
  {
    Run([AgentAt(0, 1), AgentAt(1, 4)], nextAt, Chain(TwoRecords()[..n], clock, n, n), rng, n)
  }

  lemma CalmStart()
    ensures FreshSetup(Plainest(), [PlainPersona(1)], TwoAgents(Calm()))
      == Setup([0], [Sched(0, Some(0)), Sched(1, Some(0))], TwoAgents(Calm()), 1)
    ensures FreshRun(Plainest(), [PlainPersona(1)], TwoAgents(Calm())) == State(0, [1, 1], 0, 7)
  {
    hide FreshSetup, FreshRun;
    PlainStart((p: nat) => 0, Calm(), 1);
    assert Entries(0, 1) + Entries(1, 1) == [Sched(0, Some(0)), Sched(1, Some(0))];
    assert Times(2, 1) == [1, 1] && TwoRecords()[..0] == [];
    assert PlainAgent(0, 1, 1) == AgentAt(0, 1) && PlainAgent(1, 1, 4) == AgentAt(1, 4);
  }

  lemma CalmEvent(s: Setup, r: Run, r': Run, n: nat)
    requires s == Setup([0], [Sched(0, Some(0)), Sched(1, Some(0))], TwoAgents(Calm()), 1) && n < 2
    requires r == State(n, if n == 0 then [1, 1] else [2, 1], if n == 0 then 0 else 2, 8 * n + 7)
    requires r' == State(n + 1, if n == 0 then [2, 1] else [2, 2], n + 2, 8 * n + 15)
    ensures Consistent(s, r) && !Done(s, r) && Wake(Plainest(), s, r) == r'
  {
    hide PerformActionHardened;
    var agent := r.agents[n];
    var x := Waking(r, 1, n);
    PlainAct((p: nat) => 0, x.chain, agent, 0, r.rng, s.cfg.hardening);
    var y := PerformActionHardened(Plainest(), x, 0, [0], s.cfg.hardening);
    PlainEvent((p: nat) => 0, Calm(), s, r, n, n, 0, y);
    assert r.agents[n := agent] == r.agents && r.nextAt[n := 2] == r'.nextAt;
    assert TwoRecords()[..n] + [TwoRecords()[n]] == TwoRecords()[..n + 1];
  }

  function CalmWorld(): World {
    WorldOf(Plainest())
  }

  /** The run makes two wakes and ends. */
  lemma CalmFinish(s: Setup)
    requires s == Setup([0], [Sched(0, Some(0)), Sched(1, Some(0))], TwoAgents(Calm()), 1)
    ensures Consistent(s, State(0, [1, 1], 0, 7))
    ensures Finish(Plainest(), s, State(0, [1, 1], 0, 7)) == State(2, [2, 2], 3, 23)
  {
    var r0, r1, r2 := State(0, [1, 1], 0, 7), State(1, [2, 1], 2, 15), State(2, [2, 2], 3, 23);
    CalmEvent(s, r0, r1, 0);
    CalmEvent(s, r1, r2, 1);
    hide Wake, Consistent;
    FinishStep(Plainest(), s, r0, r1);
    FinishStep(Plainest(), s, r1, r2);
    assert Done(s, r2) by { assert Soonest([2, 2]) == 0; }
  }

  lemma CalmRun()
    ensures Hidden(CalmWorld(), [PlainPersona(1)], TwoAgents(Calm()))
    ensures Simulate(CalmWorld(), [PlainPersona(1)], TwoAgents(Calm())) == TwoRecords()
  {
    hide Finish, FreshSetup, FreshRun, Simulate, DistinctRun, Consistent;
    PlainHidden((p: nat) => 0, Calm(), 1);
    CalmStart();
    CalmFinish(FreshSetup(Plainest(), [PlainPersona(1)], TwoAgents(Calm())));
    UnfundedLedger(CalmWorld(), [PlainPersona(1)], TwoAgents(Calm()));
    assert TwoRecords()[..2] == TwoRecords();
  }

  /** Both records fall into one window group, whose two sources are then united. */
  lemma WindowUnited(adv: AdversaryConfig)
    requires adv.useWindowed && adv.windowSecs >= 1 && adv.burstMaxSources >= 2
    ensures (1, 4) in CeilingEdges(TwoRecords(), adv, ConfiguredGroups(TwoRecords(), adv))
  {
    var rs, groups := TwoRecords(), Windows(TwoRecords(), adv.windowSecs);
    assert Near(rs, adv.windowSecs, 0, 1);
    assert (0, 1) in NearEdges(rs, adv.windowSecs);
    Edge(NearEdges(rs, adv.windowSecs), 0, 1);
    WindowGroupsAreComponents(rs, adv.windowSecs, 0, 1);
    var k :| 0 <= k < |groups| && 0 in groups[k] && 1 in groups[k];
    hide Windows, NearEdges;
    var sources := GroupSources(rs, groups[k]);
    WindowIndices(rs, adv.windowSecs);
    assert At(rs, 0).source == 1 && At(rs, 1).source == 4;
    assert sources == {1, 4} by {
      forall s | s in sources ensures s in {1, 4} {
        var i :| i in groups[k] && At(rs, i).source == s;
        assert i == 0 || i == 1;
      }
    }
    assert CeilingGroup(rs, adv, groups[k]);
    assert InCeilingGroup(rs, adv, groups, 1, 4);
    assert rs[0] in rs && rs[1] in rs;
  }

  lemma TwoOwners()
    ensures var owner := Ownership(TwoRecords()); 1 in owner && 4 in owner && owner[1] == 0 && owner[4] == 1
  {
    assert TwoRecords()[..2] == TwoRecords();
    LabelKept(TwoRecords(), 0, 2);
    LabelKept(TwoRecords(), 1, 2);
  }

  lemma UnitedWindowsCross(on: RuleSet, adv: AdversaryConfig)
    requires UnitesWindows(on, adv)
    ensures Hidden(CalmWorld(), [PlainPersona(1)], TwoAgents(Calm()))
    ensures Crosses(Simulate(CalmWorld(), [PlainPersona(1)], TwoAgents(Calm())), on, adv, 1, 4)
  {
    hide Crosses, TwoRecords, Simulate, Ownership, CeilingEdges, Hidden, Golden;
    CalmRun();
    TwoOwners();
    WindowUnited(adv);
    UnitedCross(TwoRecords(), on, adv, 1, 4);
  }

  lemma UnitedCross(rs: Ledger, on: RuleSet, adv: AdversaryConfig, a: AccountId, b: AccountId)
    requires on.burstUnionCeiling && (a, b) in CeilingEdges(rs, adv, ConfiguredGroups(rs, adv))
    requires var owner := Ownership(rs); a in owner && b in owner && owner[a] != owner[b]
    ensures Crosses(rs, on, adv, a, b)
  {
    hide FeeEdges, HubEdges, PeelEdges, ActivationEdges, CopayRule, CoactEdges, FunderEdges, CeilingEdges, Ownership, Connected;
    assert (a, b) in RuleEdges(rs, on, adv);
    Edge(RuleEdges(rs, on, adv), a, b);
  }
}
