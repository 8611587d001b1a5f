/**
 * Following peel chains over time links operators: a run of two agents that each move an account into
 * a successor, from which they then pay the same external.
 */
module PeelLeak {
  import opened Types
  import opened Streams
  import opened Graph
  import opened Rules
  import opened Metric
  import opened Engine
  import opened EventLoop
  import opened Residual
  import opened Simulation
  import opened PlainRuns
  import opened Crossings

  function Half(): Fraction {
    Fraction(1, 2)
  }

  /** Maintenance is drawn at the two positions where the agents wake for the first time. */
  function Coin(): nat -> Unit {
    (p: nat) => if p == 13 || p == 28 then 0 else UNIT_STEPS - 1
  }

  lemma CoinChance(rng: Rng)
    ensures Chance(Plain(Coin()), rng, Half().Value()) <==> rng == 13 || rng == 28
  {
    assert Half().Value() == 0.5;
  }

  function Paid(i: nat, feePayer: AccountId, source: AccountId, dest: AccountId, op: AgentId): TxRecord {
    TxRecord(i, i, i + 1, feePayer, source, dest, 1, Transfer, Some(op))
  }

  function FourRecords(): Ledger {
    [Paid(1, 18, 2, 15, 0), Paid(2, 25, 15, 0, 0), Paid(3, 33, 8, 30, 1), Paid(4, 40, 30, 0, 1)]
  }

  /** Agent 0 holds 1 and `x`, agent 1 holds 7 and `y`. */
  function Pair(x: AccountId, y: AccountId): seq<Agent> {
    [Agent(0, PlainPersona(2), [1, x], [0, 0], 1), Agent(1, PlainPersona(2), [7, y], [0, 0], 7)]
  }

  /** The state after `n` events. */
  function State(n: nat): Run
    requires n <= 4
  {
    Run(Pair(if n == 0 then 2 else 15, if n <= 2 then 8 else 30),
        [if n >= 1 then 2 else 1, if n >= 2 then 2 else 1, if n >= 3 then 2 else 1, if n >= 4 then 2 else 1],
        Chain(FourRecords()[..n], if n == 0 then 0 else n + 1, n, n),
        [13, 20, 28, 35, 43][n], n)
  }

  predicate IsPlan(s: Setup) {
    s == Setup([0], [Sched(0, Some(0)), Sched(0, Some(1)), Sched(1, Some(0)), Sched(1, Some(1))], TwoAgents(Half()), 1)
  }

  lemma CoinStart()
    ensures IsPlan(FreshSetup(Plain(Coin()), [PlainPersona(2)], TwoAgents(Half())))
    ensures FreshRun(Plain(Coin()), [PlainPersona(2)], TwoAgents(Half())) == State(0)
  {
    hide FreshSetup, FreshRun;
    PlainStart(Coin(), Half(), 2);
    assert Entries(0, 2) + Entries(1, 2) == [Sched(0, Some(0)), Sched(0, Some(1)), Sched(1, Some(0)), Sched(1, Some(1))];
    assert Times(4, 1) == [1, 1, 1, 1] && FourRecords()[..0] == [];
    assert PlainAgent(0, 2, 1) == Pair(2, 8)[0] && PlainAgent(1, 2, 7) == Pair(2, 8)[1];
  }

  lemma StateConsistent(s: Setup, n: nat)
    requires IsPlan(s) && n <= 4
    ensures Consistent(s, State(n))
  {
  }

  /** What the agent of event `n` leaves. */
  ghost predicate Leaves(s: Setup, n: nat, y: Ctx)
    requires IsPlan(s) && n < 4
  {
    var (r, r') := (State(n), State(n + 1));
    && y == PerformActionHardened(Plain(Coin()), Waking(r, 1, n / 2), n % 2, [0], s.cfg.hardening)
    && y.agent == r'.agents[n / 2] && y.chain == r'.chain && y.rng + 1 == r'.rng
  }

  lemma RecordNext(n: nat)
    requires n < 4
    ensures State(n + 1).chain.records == State(n).chain.records + [FourRecords()[n]]
  {
    assert FourRecords()[..n] + [FourRecords()[n]] == FourRecords()[..n + 1];
  }

  /** The even events are rotations. */
  lemma CoinRotates(s: Setup, n: nat) returns (y: Ctx)
    requires IsPlan(s) && (n == 0 || n == 2)
    ensures Leaves(s, n, y)
  {
    hide PerformActionHardened, Chance;
    var r := State(n);
    var x := Waking(r, 1, n / 2);
    CoinChance(r.rng);
    RecordNext(n);
    y := PerformActionHardened(Plain(Coin()), x, n % 2, [0], s.cfg.hardening);
    PlainRotation(Coin(), x.chain, r.agents[n / 2], 0, r.rng, s.cfg.hardening);
  }

  /** The odd ones are payments. */
  lemma CoinPays(s: Setup, n: nat) returns (y: Ctx)
    requires IsPlan(s) && (n == 1 || n == 3)
    ensures Leaves(s, n, y)
  {
    hide PerformActionHardened, Chance;
    var r := State(n);
    var x := Waking(r, 1, n / 2);
    CoinChance(r.rng);
    RecordNext(n);
    y := PerformActionHardened(Plain(Coin()), x, n % 2, [0], s.cfg.hardening);
    PlainAct(Coin(), x.chain, r.agents[n / 2], 1, r.rng, s.cfg.hardening);
  }

  lemma CoinEvent(s: Setup, n: nat)
    requires IsPlan(s) && n < 4
    ensures Consistent(s, State(n)) && !Done(s, State(n)) && Wake(Plain(Coin()), s, State(n)) == State(n + 1)
  {
    hide PerformActionHardened, Wake;
    var r, r' := State(n), State(n + 1);
    StateConsistent(s, n);
    var y;
    if n % 2 == 0 {
      y := CoinRotates(s, n);
    } else {
      y := CoinPays(s, n);
    }
    PlainEvent(Coin(), Half(), s, r, n, n / 2, n % 2, y);
    assert r.agents[n / 2 := y.agent] == r'.agents && r.nextAt[n := 2] == r'.nextAt;
  }

  lemma CoinFinish(s: Setup)
    requires IsPlan(s)
    ensures Consistent(s, State(0)) && Finish(Plain(Coin()), s, State(0)) == State(4)
  {
    hide Wake, Consistent, Finish;
    var w := Plain(Coin());
    CoinEvent(s, 0);
    CoinEvent(s, 1);
    CoinEvent(s, 2);
    CoinEvent(s, 3);
    FinishStep(w, s, State(0), State(1));
    FinishStep(w, s, State(1), State(2));
    FinishStep(w, s, State(2), State(3));
    FinishStep(w, s, State(3), State(4));
    FinishDone(w, s, State(4)) by { assert Soonest([2, 2, 2, 2]) == 0; }
  }

  function CoinWorld(): World {
    WorldOf(Plain(Coin()))
  }

  lemma CoinRun()
    ensures Hidden(CoinWorld(), [PlainPersona(2)], TwoAgents(Half()))
    ensures Simulate(CoinWorld(), [PlainPersona(2)], TwoAgents(Half())) == FourRecords()
  {
    hide Finish, FreshSetup, FreshRun, Simulate, DistinctRun, Consistent;
    PlainHidden(Coin(), Half(), 2);
    CoinStart();
    CoinFinish(FreshSetup(Plain(Coin()), [PlainPersona(2)], TwoAgents(Half())));
    UnfundedLedger(CoinWorld(), [PlainPersona(2)], TwoAgents(Half()));
    assert FourRecords()[..4] == FourRecords();
  }

  // ---- what the rule makes of it ----

  /** Both chains end in the external. */
  lemma PeelsMeet(adv: AdversaryConfig)
    requires adv.temporalWindowSecs >= 1
    ensures (2, 0) in PeelEdges(FourRecords(), adv) && (8, 0) in PeelEdges(FourRecords(), adv)
  {
    var rs := FourRecords();
    assert rs[0] in rs && rs[1] in rs && Peels(rs[0], rs[1], adv);
    assert rs[2] in rs && rs[3] in rs && Peels(rs[2], rs[3], adv);
  }

  lemma TwoOwners()
    ensures var owner := Ownership(FourRecords()); 2 in owner && 8 in owner && owner[2] == 0 && owner[8] == 1
  {
    assert FourRecords()[..4] == FourRecords();
    LabelKept(FourRecords(), 0, 4);
    LabelKept(FourRecords(), 2, 4);
  }

  lemma FollowedPeelsCross(on: RuleSet, adv: AdversaryConfig)
    requires FollowsPeels(on, adv)
    ensures Hidden(CoinWorld(), [PlainPersona(2)], TwoAgents(Half()))
    ensures Crosses(Simulate(CoinWorld(), [PlainPersona(2)], TwoAgents(Half())), on, adv, 2, 8)
  {
    hide FourRecords, Simulate, Ownership, PeelEdges, RuleEdges, Hidden, Golden, Connected;
    CoinRun();
    TwoOwners();
    PeelsMeet(adv);
    PeelsMeeting(FourRecords(), on, adv, 2, 8, 0);
  }
}
