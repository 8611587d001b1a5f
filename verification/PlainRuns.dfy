/** Wakes of agents whose draws are all as small as they can be, for concrete runs. */
module PlainRuns {
  import opened Types
  import opened Streams
  import opened Splitting
  import opened Engine
  import opened EventLoop

  /** A persona that never splits a payment. */
  function PlainPersona(numSubaccounts: nat): Persona {
    Persona(0, numSubaccounts, SplitPolicy(1, 1, 1), 1)
  }

  /** The next record of a chain, one second later: one lamport from `source` to `dest`. */
  function PaidNext(c: Chain, feePayer: AccountId, source: AccountId, dest: AccountId, op: AgentId): Chain {
    Chain(c.records + [TxRecord(c.sig + 1, c.slot + 1, c.clock + 1, feePayer, source, dest, 1, Transfer, Some(op))],
          c.clock + 1, c.slot + 1, c.sig + 1)
  }

  /** Without maintenance a wake pays the external once. */
  lemma PlainAct(unit: nat -> Unit, c: Chain, agent: Agent, k: nat, rng: Rng, h: Hardening)
    requires k < |agent.subaccounts| && agent.persona.split == SplitPolicy(1, 1, 1)
    requires !Chance(Plain(unit), rng, h.consolidationProb.Value())
    ensures PerformActionHardened(Plain(unit), Ctx(c, agent, rng), k, [0], h)
      == Ctx(PaidNext(c, rng + 5, agent.subaccounts[k], 0, agent.id), agent, rng + 7)
  {
    var w, account := Plain(unit), agent.subaccounts[k];
    var x := Ctx(c, agent, rng + 1);
    assert ActingTx(w, x, account, [0]) == PlannedTx(account, 0, 1, Transfer);
    assert Emitted(w, rng + 4, 1, agent.persona.split) == [1];
    assert SplitAmount(w, rng + 4, 1, agent.persona.split).1 == rng + 4;
    var m := HardenedPart(w, x.(rng := rng + 4), account, 0, Transfer, 1);
    assert [1][1..] == [];
    assert HardenedParts(w, x.(rng := rng + 4), account, 0, Transfer, [1]) == m;
    assert ActOutward(w, x, account, [0]) == m;
    assert NumDecoys(w, m.rng) == 0;
  }

  /** With maintenance drawn, the second of two accounts moves into a successor. */
  lemma PlainRotation(unit: nat -> Unit, c: Chain, agent: Agent, k: nat, rng: Rng, h: Hardening)
    requires k < |agent.subaccounts| == 2 && h.rebalance == RotateAccounts
    requires h.sweepMinSources == 1 && h.sweepMaxSources == 1
    requires Chance(Plain(unit), rng, h.consolidationProb.Value())
    ensures PerformActionHardened(Plain(unit), Ctx(c, agent, rng), k, [0], h)
      == Ctx(PaidNext(c, rng + 5, agent.subaccounts[1], rng + 2, agent.id),
             agent.(subaccounts := [agent.subaccounts[0], rng + 2]), rng + 6)
  {
    var w := Plain(unit);
    var x := Ctx(c, agent, rng + 1);
    OnlyIndex(w, rng + 1);
    assert RotationDraw(w, rng + 1, 2, h) == ([1], rng + 2);
    var y := Succession(w, x.(rng := rng + 2), 1);
    assert [1][1..] == [];
    assert Successions(w, x.(rng := rng + 2), [1]) == y;
    assert RotateSome(w, x, h) == y;
    assert agent.subaccounts[1 := rng + 2] == [agent.subaccounts[0], rng + 2];
  }

  /** Of two accounts only the second is operational. */
  lemma OnlyIndex(w: Stream, rng: Rng)
    ensures Chosen(w, rng, 2, 1) == [1]
  {
    var idxs := Chosen(w, rng, 2, 1);
    assert idxs == [idxs[0]];
  }

  function Times(n: nat, x: int): (s: seq<int>)
    ensures |s| == n && forall i :: 0 <= i < n ==> s[i] == x
  {
    seq(n, i => x)
  }

  /** A hardened agent with small draws: its accounts count up, and all of them are due after one second. */
  function PlainAgent(id: AgentId, n: nat, rng: Rng): Agent
    requires n >= 1
  {
    Agent(id, PlainPersona(n), seq(n, i requires 0 <= i < n => rng + i), Times(n, 0), rng)
  }

  lemma {:induction false} PlainClocks(unit: nat -> Unit, cfg: SimConfig, persona: Persona, n: nat, k: nat, rng: Rng)
    requires k <= n && !cfg.hardening.holdAggregateRate && cfg.startTs == 0
    ensures SubClocks(Plain(unit), cfg, persona, n, k, rng) == (Times(n - k, 0), Times(n - k, 1), rng + 2 * (n - k))
    decreases n - k
  {
    if k < n {
      PlainClocks(unit, cfg, persona, n, k + 1, rng + 2);
      assert SubClock(Plain(unit), cfg, persona, n, rng) == (0, 1);
      assert [0] + Times(n - k - 1, 0) == Times(n - k, 0);
      assert [1] + Times(n - k - 1, 1) == Times(n - k, 1);
    }
  }

  lemma PlainBuild(unit: nat -> Unit, cfg: SimConfig, n: nat, id: AgentId, rng: Rng)
    requires n >= 1 && Hardened(cfg) && !cfg.hardening.holdAggregateRate && cfg.startTs == 0
    ensures BuildAgent(Plain(unit), cfg, PlainPersona(n), id, rng)
      == (PlainAgent(id, n, rng), seq(n, k requires 0 <= k < n => Sched(id, Some(k))), Times(n, 1), rng + 3 * n)
  {
    PlainClocks(unit, cfg, PlainPersona(n), n, 0, rng + n);
    assert DrawIds(Plain(unit), rng, n) == PlainAgent(id, n, rng).subaccounts;
  }

  /** Two rotating agents for one second. */
  function TwoAgents(prob: Fraction): SimConfig {
    SimConfig(2, 1, 0, Cooker, 0, 1, true, Hardening(Fraction(1, 1), prob, 1, 1, false, RotateAccounts), None)
  }

  function Entries(id: AgentId, n: nat): seq<Sched> {
    seq(n, k requires 0 <= k < n => Sched(id, Some(k)))
  }

  /** One more agent of the only persona. */
  lemma OneMore(w: Stream, cfg: SimConfig, persona: Persona, k: nat, rng: Rng, f: Fleet,
      r: (Agent, seq<Sched>, seq<int>, Rng))
    requires BuildFleet(w, cfg, [persona], k, rng) == f && BuildAgent(w, cfg, persona, k, f.rng) == r
    ensures BuildFleet(w, cfg, [persona], k + 1, rng) == Fleet(f.agents + [r.0], f.sched + r.1, f.nextAt + r.2, r.3)
  {
    hide BuildAgent;
    assert [persona][k % 1] == persona;
  }

  lemma PlainFirst(unit: nat -> Unit, prob: Fraction, n: nat)
    requires n >= 1
    ensures BuildFleet(Plain(unit), TwoAgents(prob), [PlainPersona(n)], 1, 1)
      == Fleet([PlainAgent(0, n, 1)], Entries(0, n), Times(n, 1), 3 * n + 1)
  {
    hide BuildAgent, BuildFleet, PlainAgent, PlainPersona;
    var w, p, cfg := Plain(unit), PlainPersona(n), TwoAgents(prob);
    NoFleet(w, cfg, p, 1);
    PlainBuild(unit, cfg, n, 0, 1);
    OneMore(w, cfg, p, 0, 1, Fleet([], [], [], 1), (PlainAgent(0, n, 1), Entries(0, n), Times(n, 1), 3 * n + 1));
    assert [] + Entries(0, n) == Entries(0, n) && [] + Times(n, 1) == Times(n, 1);
    assert [] + [PlainAgent(0, n, 1)] == [PlainAgent(0, n, 1)];
  }

  lemma NoFleet(w: Stream, cfg: SimConfig, persona: Persona, rng: Rng)
    ensures BuildFleet(w, cfg, [persona], 0, rng) == Fleet([], [], [], rng)
  {
  }

  lemma PlainFleet(unit: nat -> Unit, prob: Fraction, n: nat)
    requires n >= 1
    ensures BuildFleet(Plain(unit), TwoAgents(prob), [PlainPersona(n)], 2, 1)
      == Fleet([PlainAgent(0, n, 1), PlainAgent(1, n, 3 * n + 1)], Entries(0, n) + Entries(1, n), Times(2 * n, 1), 6 * n + 1)
  {
    hide BuildAgent, BuildFleet, PlainAgent, PlainPersona;
    var w, p, cfg := Plain(unit), PlainPersona(n), TwoAgents(prob);
    PlainFirst(unit, prob, n);
    PlainBuild(unit, cfg, n, 1, 3 * n + 1);
    OneMore(w, cfg, p, 1, 1, Fleet([PlainAgent(0, n, 1)], Entries(0, n), Times(n, 1), 3 * n + 1),
            (PlainAgent(1, n, 3 * n + 1), Entries(1, n), Times(n, 1), 6 * n + 1));
    assert Times(n, 1) + Times(n, 1) == Times(2 * n, 1);
  }

  /** They start with `n` accounts each, numbered after the one external. */
  lemma PlainStart(unit: nat -> Unit, prob: Fraction, n: nat)
    requires n >= 1
    ensures var (w, personas, cfg) := (Plain(unit), [PlainPersona(n)], TwoAgents(prob));
      && FreshSetup(w, personas, cfg) == Setup([0], Entries(0, n) + Entries(1, n), cfg, 1)
      && FreshRun(w, personas, cfg) ==
           Run([PlainAgent(0, n, 1), PlainAgent(1, n, 3 * n + 1)], Times(2 * n, 1), Chain([], 0, 0, 0), 6 * n + 1, 0)
  {
    PlainFleet(unit, prob, n);
    hide BuildFleet;
    assert DrawIds(Plain(unit), 0, 1) == [0];
  }

  /** One event of such a run at its first second: `y` is what the acting agent leaves. */
  lemma PlainEvent(unit: nat -> Unit, prob: Fraction, s: Setup, r: Run, si: nat, a: nat, k: nat, y: Ctx)
    requires Consistent(s, r) && s.cfg == TwoAgents(prob) && s.externals == [0] && s.end == 1
    requires si < |s.sched| && s.sched[si] == Sched(a, Some(k)) && r.nextAt[si] == 1
    requires forall j :: 0 <= j < |r.nextAt| ==> r.nextAt[j] > (if j < si then 1 else 0)
    requires a < |r.agents| && k < |r.agents[a].subaccounts| && y.agent.phases == r.agents[a].phases
    requires y == PerformActionHardened(Plain(unit), Waking(r, 1, a), k, [0], s.cfg.hardening)
    ensures !Done(s, r)
    ensures Wake(Plain(unit), s, r) == Run(r.agents[a := y.agent], r.nextAt[si := 2], y.chain, y.rng + 1, r.events + 1)
  {
    hide PerformActionHardened;
    assert EntryFits(s.sched[si], r.agents);
    assert Soonest(r.nextAt) == si;
  }

  /** Running on from the next state. */
  lemma FinishStep(w: Stream, s: Setup, r: Run, r': Run)
    requires Consistent(s, r) && Ending(s) && !Done(s, r) && Wake(w, s, r) == r'
    ensures Consistent(s, r') && Finish(w, s, r) == Finish(w, s, r')
  {
    hide Wake, Consistent, Done;
  }

  lemma FinishDone(w: Stream, s: Setup, r: Run)
    requires Consistent(s, r) && Ending(s) && Done(s, r)
    ensures Finish(w, s, r) == r
  {
  }
}
