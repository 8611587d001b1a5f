/**
 * The engine as it runs: one mutable run state, a binary heap of wake times, and loops. Every
 * method is proved equal to the function of the same name in Engine or EventLoop.
 */
module Runtime {
  import opened Types
  import opened Streams
  import opened Splitting
  import opened Engine
  import opened EventLoop
  import opened Termination

  /** Wake times with their schedule index. */
  type Heap = multiset<(int, nat)>

  /** The heap holds every schedule index exactly once, at its wake time. */
  ghost predicate HeapOf(heap: Heap, nextAt: seq<int>) {
    forall at: int, si: nat :: heap[(at, si)] == if si < |nextAt| && nextAt[si] == at then 1 else 0
  }

  lemma HeapAt(heap: Heap, nextAt: seq<int>, at: int, si: nat)
    requires HeapOf(heap, nextAt)
    ensures heap[(at, si)] == if si < |nextAt| && nextAt[si] == at then 1 else 0
  {
  }

  /** The wake times determine the heap, so a rebuilt heap pops in the same order. */
  lemma HeapUnique(a: Heap, b: Heap, nextAt: seq<int>)
    requires HeapOf(a, nextAt) && HeapOf(b, nextAt)
    ensures a == b
  {
    forall e: (int, nat) ensures a[e] == b[e] {
      HeapAt(a, nextAt, e.0, e.1);
      HeapAt(b, nextAt, e.0, e.1);
      assert e == (e.0, e.1);
    }
  }

  /** Earlier first, ties by index. */
  predicate Before(a: (int, nat), b: (int, nat)) {
    a.0 < b.0 || (a.0 == b.0 && a.1 <= b.1)
  }

  predicate IsTop(heap: Heap, e: (int, nat)) {
    e in heap && forall f :: f in heap ==> Before(e, f)
  }

  lemma TopIsSoonest(heap: Heap, nextAt: seq<int>, e: (int, nat))
    requires HeapOf(heap, nextAt) && nextAt != []
    ensures IsTop(heap, e) <==> e == (nextAt[Soonest(nextAt)], Soonest(nextAt))
  {
  }

  lemma EmptyHeap(heap: Heap, nextAt: seq<int>)
    requires HeapOf(heap, nextAt)
    ensures heap == multiset{} <==> nextAt == []
  {
    if nextAt != [] {
      HeapAt(heap, nextAt, nextAt[0], 0);
    } else {
      forall e: (int, nat) ensures e !in heap {
        HeapAt(heap, nextAt, e.0, e.1);
        assert e == (e.0, e.1);
      }
    }
  }

  /** Pushing an entry back at another time. */
  lemma HeapPush(heap: Heap, nextAt: seq<int>, si: nat, t: int)
    requires HeapOf(heap, nextAt) && si < |nextAt|
    ensures HeapOf(heap - multiset{(nextAt[si], si)} + multiset{(t, si)}, nextAt[si := t])
  {
  }

  /** Entries pushed for one more schedule index. */
  lemma HeapExtend(heap: Heap, nextAt: seq<int>, t: int)
    requires HeapOf(heap, nextAt)
    ensures HeapOf(heap + multiset{(t, |nextAt|)}, nextAt + [t])
  {
  }

  method HeapFrom(nextAt: seq<int>) returns (heap: Heap)
    ensures HeapOf(heap, nextAt)
  {
    heap := multiset{};
    for i := 0 to |nextAt|
      invariant HeapOf(heap, nextAt[..i])
    {
      HeapExtend(heap, nextAt[..i], nextAt[i]);
      assert nextAt[..i] + [nextAt[i]] == nextAt[..i + 1];
      heap := heap + multiset{(nextAt[i], i)};
    }
    assert nextAt[..|nextAt|] == nextAt;
  }

  // ---- fresh setup ----

  /** Clocks already built, followed by those still to come. */
  ghost function Followed(phases: seq<int>, nextAt: seq<int>, rest: (seq<int>, seq<int>, Rng)): (seq<int>, seq<int>, Rng) {
    (phases + rest.0, nextAt + rest.1, rest.2)
  }

  /** Building sub-account `k` moves it from the clocks to come to those built. */
  lemma ClockBuilt(w: Stream, cfg: SimConfig, persona: Persona, n: nat, k: nat, rng: Rng, phases: seq<int>,
      nextAt: seq<int>)
    requires k < n
    ensures var c := SubClock(w, cfg, persona, n, rng);
      Followed(phases, nextAt, SubClocks(w, cfg, persona, n, k, rng))
        == Followed(phases + [c.0], nextAt + [c.1], SubClocks(w, cfg, persona, n, k + 1, rng + 2))
  {
    hide SubClock;
    var c, rest := SubClock(w, cfg, persona, n, rng), SubClocks(w, cfg, persona, n, k + 1, rng + 2);
    assert phases + ([c.0] + rest.0) == phases + [c.0] + rest.0;
    assert nextAt + ([c.1] + rest.1) == nextAt + [c.1] + rest.1;
  }

  lemma AllClocksBuilt(w: Stream, cfg: SimConfig, persona: Persona, n: nat, rng: Rng, phases: seq<int>, nextAt: seq<int>)
    ensures Followed(phases, nextAt, SubClocks(w, cfg, persona, n, n, rng)) == (phases, nextAt, rng)
    ensures Followed([], [], SubClocks(w, cfg, persona, n, 0, rng)) == SubClocks(w, cfg, persona, n, 0, rng)
  {
    assert phases + [] == phases && nextAt + [] == nextAt;
    var all := SubClocks(w, cfg, persona, n, 0, rng);
    assert [] + all.0 == all.0 && [] + all.1 == all.1;
  }

  method BuildSubClocks(w: Stream, cfg: SimConfig, persona: Persona, n: nat, start: Rng)
    returns (phases: seq<int>, nextAt: seq<int>, rng: Rng)
    ensures (phases, nextAt, rng) == SubClocks(w, cfg, persona, n, 0, start)
  {
    hide SubClock, SubClocks, Followed;
    phases, nextAt, rng := [], [], start;
    AllClocksBuilt(w, cfg, persona, n, start, [], []);
    for k := 0 to n
      invariant Followed(phases, nextAt, SubClocks(w, cfg, persona, n, k, rng)) == SubClocks(w, cfg, persona, n, 0, start)
    {
      ClockBuilt(w, cfg, persona, n, k, rng, phases, nextAt);
      var (phase, at) := SubClock(w, cfg, persona, n, rng);
      phases, nextAt, rng := phases + [phase], nextAt + [at], rng + 2;
    }
    AllClocksBuilt(w, cfg, persona, n, rng, phases, nextAt);
  }

  method BuildOne(w: Stream, cfg: SimConfig, persona: Persona, id: nat, start: Rng)
    returns (agent: Agent, sched: seq<Sched>, nextAt: seq<int>, rng: Rng)
    ensures (agent, sched, nextAt, rng) == BuildAgent(w, cfg, persona, id, start)
  {
    var n: nat := Max(persona.numSubaccounts, 1);
    var subs := DrawIds(w, start, n);
    rng := start + n;
    if !Hardened(cfg) {
      var d := Delay(w, persona, cfg.startTs, rng);
      agent := Agent(id, persona, subs, [], subs[0]);
      sched, nextAt, rng := [Sched(id, None)], [cfg.startTs + d], rng + 1;
    } else {
      var phases;
      phases, nextAt, rng := BuildSubClocks(w, cfg, persona, n, rng);
      agent := Agent(id, persona, subs, phases, subs[0]);
      sched := seq(n, k requires 0 <= k < n => Sched(id, Some(k)));
    }
  }

  method BuildAll(w: Stream, cfg: SimConfig, personas: seq<Persona>, start: Rng) returns (f: Fleet)
    requires personas != []
    ensures f == BuildFleet(w, cfg, personas, cfg.numAgents, start)
  {
    var agents: seq<Agent>, sched: seq<Sched>, nextAt: seq<int>, rng := [], [], [], start;
    for id := 0 to cfg.numAgents
      invariant Fleet(agents, sched, nextAt, rng) == BuildFleet(w, cfg, personas, id, start)
    {
      var agent, entries, times, next := BuildOne(w, cfg, personas[id % |personas|], id, rng);
      agents, sched, nextAt, rng := agents + [agent], sched + entries, nextAt + times, next;
    }
    f := Fleet(agents, sched, nextAt, rng);
  }

  // ---- the run state ----

  class RunState {
    const w: Stream
    const s: Setup
    var agents: seq<Agent>
    var heap: Heap
    var records: Ledger
    var clock: int
    var slot: nat
    var sig: nat
    var rng: Rng
    var events: nat
    ghost var nextAt: seq<int>

    ghost function Model(): Run
      reads this
    {
      Run(agents, nextAt, Chain(records, clock, slot, sig), rng, events)
    }

    ghost predicate Valid()
      reads this
    {
      Consistent(s, Model()) && HeapOf(heap, nextAt)
    }

    /** The context agent `a` acts in. */
    ghost function At(a: nat): Ctx
      requires a < |agents|
      reads this
    {
      Ctx(Chain(records, clock, slot, sig), agents[a], rng)
    }

    /** A fresh run from the personas and the configuration. */
    constructor (w: Stream, personas: seq<Persona>, cfg: SimConfig)
      requires Runnable(personas)
      ensures Valid() && this.w == w && s == FreshSetup(w, personas, cfg) && Model() == FreshRun(w, personas, cfg)
    {
      var ext: nat := Max(cfg.numExternal, 1);
      var fleet := BuildAll(w, cfg, personas, ext);
      var h := HeapFrom(fleet.nextAt);
      this.w := w;
      s := Setup(DrawIds(w, 0, ext), fleet.sched, cfg, cfg.startTs + cfg.durationSecs);
      agents, nextAt, heap, rng := fleet.agents, fleet.nextAt, h, fleet.rng;
      records, clock, slot, sig, events := [], cfg.startTs, 0, 0, 0;
    }

    method Record(tx: PlannedTx, feePayer: AccountId, operator: AgentId)
      modifies this`records, this`slot, this`sig
      ensures Chain(records, clock, slot, sig) == Engine.Record(old(Chain(records, clock, slot, sig)), tx, feePayer, operator)
    {
      sig := sig + 1;
      slot := slot + 1;
      records := records + [TxRecord(sig, slot, clock, feePayer, tx.source, tx.dest, tx.amount, tx.kind, Some(operator))];
    }

    // ---- the single-clock path ----

    method RecordPart(a: nat, dest: AccountId, kind: ActionKind, part: nat)
      requires a < |agents| && agents[a].subaccounts != []
      modifies this`records, this`slot, this`sig, this`rng
      ensures At(a) == EmitPart(w, old(At(a)), dest, kind, part)
    {
      var agent := agents[a];
      var feePayer := w.id(rng);
      var source := agent.subaccounts[Index(w, rng + 1, |agent.subaccounts|)];
      rng := rng + 2;
      Record(PlannedTx(source, dest, part, kind), feePayer, agent.id);
    }

    method EmitWithNoise(a: nat, p: PlannedTx, mode: Mode)
      requires a < |agents| && agents[a].subaccounts != []
      modifies this`records, this`slot, this`sig, this`rng
      ensures At(a) == Engine.EmitWithNoise(w, old(At(a)), p, mode)
    {
      hide SplitAmount, EmitPart;
      var agent := agents[a];
      match mode
      case Naive => Record(p, agent.main, agent.id);
      case Cooker =>
        var parts;
        parts, rng := Split(w, rng, p.amount, agent.persona.split);
        if parts == [] {
          parts := [p.amount];
        }
        ghost var goal := EmitParts(w, At(a), p.dest, p.kind, parts);
        for i := 0 to |parts|
          invariant EmitParts(w, At(a), p.dest, p.kind, parts[i..]) == goal
        {
          RecordPart(a, p.dest, p.kind, parts[i]);
          assert parts[i..][1..] == parts[i + 1..];
        }
    }

    /** One dust payment from a drawn sub-account to a drawn external. */
    method InterleaveDecoy(a: nat)
      requires a < |agents| && agents[a].subaccounts != [] && s.externals != []
      modifies this`records, this`slot, this`sig, this`rng
      ensures var y := old(At(a));
        At(a) == Engine.EmitWithNoise(w, y.(rng := y.rng + 3), DecoyTx(w, y, s.externals), Cooker)
    {
      hide Engine.EmitWithNoise, DustAmount, Index;
      var from := agents[a].subaccounts[Index(w, rng, |agents[a].subaccounts|)];
      var to := s.externals[Index(w, rng + 1, |s.externals|)];
      var p := PlannedTx(from, to, DustAmount(w, rng + 2, agents[a].persona), Dust);
      rng := rng + 3;
      EmitWithNoise(a, p, Cooker);
    }

    method InterleaveDecoys(a: nat)
      requires a < |agents| && agents[a].subaccounts != [] && s.externals != []
      modifies this`records, this`slot, this`sig, this`rng
      ensures At(a) == WithDecoys(w, old(At(a)), s.externals, Cooker)
    {
      hide Engine.EmitWithNoise, DecoyTx, NumDecoys;
      var n := NumDecoys(w, rng);
      rng := rng + 1;
      ghost var goal := Decoys(w, At(a), s.externals, n);
      while n > 0
        invariant Decoys(w, At(a), s.externals, n) == goal
      {
        InterleaveDecoy(a);
        n := n - 1;
      }
    }

    method MaybeRebalance(a: nat, mode: Mode)
      requires a < |agents| && agents[a].subaccounts != []
      modifies this`records, this`slot, this`sig, this`rng
      ensures At(a) == Engine.MaybeRebalance(w, old(At(a)), mode)
    {
      var agent := agents[a];
      var u := rng;
      rng := rng + 1;
      match mode
      case Naive =>
        if Chance(w, u, 0.12) {
          FunnelAll(a);
        }
      case Cooker =>
        if Chance(w, u, 0.08) {
          var from := agent.subaccounts[Index(w, rng, |agent.subaccounts|)];
          var tx := PlannedTx(from, w.id(rng + 1), Range(w, rng + 2, 1_000, 200_000), Transfer);
          Record(tx, w.id(rng + 3), agent.id);
          rng := rng + 4;
        }
    }

    method FunnelAll(a: nat)
      requires a < |agents|
      modifies this`records, this`slot, this`sig, this`rng
      ensures At(a) == Funnel(w, old(At(a)), agents[a].subaccounts)
    {
      var agent := agents[a];
      var subs := agent.subaccounts;
      for i := 0 to |subs|
        invariant Funnel(w, At(a), subs[i..]) == Funnel(w, old(At(a)), subs)
      {
        assert subs[i..][1..] == subs[i + 1..];
        if subs[i] != agent.main {
          var amount := Range(w, rng, 1_000, 100_000);
          rng := rng + 1;
          Record(PlannedTx(subs[i], agent.main, amount, Consolidate), agent.main, agent.id);
        }
      }
    }

    method PerformAction(a: nat)
      requires a < |agents| && agents[a].subaccounts != [] && s.externals != []
      modifies this`records, this`slot, this`sig, this`rng
      ensures At(a) == Engine.PerformAction(w, old(At(a)), s.externals, s.cfg.mode)
    {
      hide Engine.EmitWithNoise, Engine.MaybeRebalance, Decoys, ChooseAction, SampleAmount;
      var kind := ChooseAction(w, rng);
      var source := agents[a].subaccounts[Index(w, rng + 1, |agents[a].subaccounts|)];
      var counterparty := s.externals[Index(w, rng + 2, |s.externals|)];
      var amount := SampleAmount(w, rng + 3);
      rng := rng + 4;
      EmitWithNoise(a, Plan(kind, source, counterparty, amount), s.cfg.mode);
      if s.cfg.mode == Cooker {
        InterleaveDecoys(a);
      }
      MaybeRebalance(a, s.cfg.mode);
    }

    // ---- the hardened path ----

    /** Draws a gap and moves the clock on by it. */
    method Tick()
      modifies this`clock, this`rng
      ensures clock == old(clock) + Gap(w, old(rng)) && rng == old(rng) + 1
    {
      clock := clock + Gap(w, rng);
      rng := rng + 1;
    }

    method ActPart(a: nat, source: AccountId, dest: AccountId, kind: ActionKind, part: nat)
      requires a < |agents|
      modifies this`records, this`slot, this`sig, this`rng, this`clock
      ensures At(a) == HardenedPart(w, old(At(a)), source, dest, kind, part)
    {
      Tick();
      var feePayer := w.id(rng);
      rng := rng + 1;
      Record(PlannedTx(source, dest, part, kind), feePayer, agents[a].id);
    }

    method Act(a: nat, source: AccountId)
      requires a < |agents| && s.externals != []
      modifies this`records, this`slot, this`sig, this`rng, this`clock
      ensures At(a) == ActOutward(w, old(At(a)), source, s.externals)
    {
      hide SplitAmount, HardenedPart, ChooseAction, SampleAmount;
      var agent := agents[a];
      var kind := ChooseAction(w, rng);
      var counterparty := s.externals[Index(w, rng + 1, |s.externals|)];
      var p := Plan(kind, source, counterparty, SampleAmount(w, rng + 2));
      rng := rng + 3;
      var parts;
      parts, rng := Split(w, rng, p.amount, agent.persona.split);
      if parts == [] {
        parts := [p.amount];
      }
      ghost var goal := HardenedParts(w, At(a), source, p.dest, p.kind, parts);
      for i := 0 to |parts|
        invariant HardenedParts(w, At(a), source, p.dest, p.kind, parts[i..]) == goal
      {
        ActPart(a, source, p.dest, p.kind, parts[i]);
        assert parts[i..][1..] == parts[i + 1..];
      }
    }

    method ActDecoy(a: nat, source: AccountId)
      requires a < |agents| && s.externals != []
      modifies this`records, this`slot, this`sig, this`rng, this`clock
      ensures At(a) == HardenedDecoy(w, old(At(a)), source, s.externals)
    {
      Tick();
      var to := s.externals[Index(w, rng, |s.externals|)];
      var dust := DustAmount(w, rng + 1, agents[a].persona);
      var feePayer := w.id(rng + 2);
      rng := rng + 3;
      Record(PlannedTx(source, to, dust, Dust), feePayer, agents[a].id);
    }

    method ActDecoys(a: nat, source: AccountId)
      requires a < |agents| && s.externals != []
      modifies this`records, this`slot, this`sig, this`rng, this`clock
      ensures var y := old(At(a));
        At(a) == HardenedDecoys(w, y.(rng := y.rng + 1), source, s.externals, NumDecoys(w, y.rng))
    {
      hide HardenedDecoy, NumDecoys;
      var n := NumDecoys(w, rng);
      rng := rng + 1;
      ghost var goal := HardenedDecoys(w, At(a), source, s.externals, n);
      while n > 0
        invariant HardenedDecoys(w, At(a), source, s.externals, n) == goal
      {
        ActDecoy(a, source);
        n := n - 1;
      }
    }

    /** Draws `k` distinct operational sub-accounts by a partial shuffle. */
    method Choose(n: nat, k: nat) returns (idxs: seq<nat>)
      requires n >= 1 && k <= n - 1
      modifies this`rng
      ensures idxs == Chosen(w, old(rng), n, k) && rng == old(rng) + k
    {
      hide Swapped, OperationalIndices;
      idxs := OperationalIndices(n);
      for i := 0 to k
        invariant |idxs| == n - 1 && rng == old(rng) + i
        invariant Shuffled(w, rng, idxs, i, k) == Shuffled(w, old(rng), OperationalIndices(n), 0, k)
      {
        var j := i + Index(w, rng, n - 1 - i);
        rng := rng + 1;
        idxs := Swapped(idxs, i, j);
      }
      idxs := idxs[..k];
    }

    method ChooseTouched(n: nat, kmin: nat, kmax: nat) returns (idxs: seq<nat>)
      requires kmin <= kmax <= n - 1
      modifies this`rng
      ensures var (k, rng1) := TouchCount(w, old(rng), kmin, kmax); idxs == Chosen(w, rng1, n, k) && rng == rng1 + k
    {
      var k := kmax;
      if kmin < kmax {
        k := Range(w, rng, kmin, kmax);
        rng := rng + 1;
      }
      idxs := Choose(n, k);
    }

    method Succeed(a: nat, j: nat)
      requires a < |agents| && 0 < j < |agents[a].subaccounts|
      modifies this`records, this`slot, this`sig, this`rng, this`clock, this`agents
      ensures a < |agents| && agents == old(agents)[a := agents[a]]
      ensures At(a) == Succession(w, old(At(a)), j)
    {
      var source := agents[a].subaccounts[j];
      var successor := w.id(rng);
      rng := rng + 1;
      Tick();
      var amount := SampleAmount(w, rng);
      Record(PlannedTx(source, successor, amount, Transfer), w.id(rng + 1), agents[a].id);
      rng := rng + 2;
      agents := agents[a := agents[a].(subaccounts := agents[a].subaccounts[j := successor])];
    }

    method Rotate(a: nat)
      requires a < |agents|
      modifies this`records, this`slot, this`sig, this`rng, this`clock, this`agents
      ensures a < |agents| && agents == old(agents)[a := agents[a]]
      ensures At(a) == RotateSome(w, old(At(a)), s.cfg.hardening)
    {
      hide Chosen, TouchCount, Succession;
      var n := |agents[a].subaccounts|;
      if n < 2 {
        return;
      }
      var kmax := Clamp(s.cfg.hardening.sweepMaxSources, 1, n - 1);
      var kmin := Clamp(s.cfg.hardening.sweepMinSources, 1, kmax);
      var idxs := ChooseTouched(n, kmin, kmax);
      ghost var goal := Successions(w, At(a), idxs);
      for i := 0 to |idxs|
        invariant a < |agents| && agents == old(agents)[a := agents[a]] && |agents[a].subaccounts| == n
        invariant Operational(idxs[i..], n) && Successions(w, At(a), idxs[i..]) == goal
      {
        assert idxs[i..][0] == idxs[i] && idxs[i..][1..] == idxs[i + 1..];
        Succeed(a, idxs[i]);
      }
    }

    method Collect(a: nat, j: nat)
      requires a < |agents| && j < |agents[a].subaccounts|
      modifies this`records, this`slot, this`sig, this`rng, this`clock
      ensures At(a) == Collection(w, old(At(a)), j)
    {
      Tick();
      var amount := SampleAmount(w, rng);
      var feePayer := w.id(rng + 1);
      rng := rng + 2;
      Record(PlannedTx(agents[a].subaccounts[j], agents[a].main, amount, Transfer), feePayer, agents[a].id);
    }

    method Sweep(a: nat)
      requires a < |agents| && !SweepPanics(agents[a], s.cfg.hardening)
      modifies this`records, this`slot, this`sig, this`rng, this`clock
      ensures At(a) == ConsolidateSweep(w, old(At(a)), s.cfg.hardening)
    {
      hide Chosen, TouchCount, Collection;
      var n := |agents[a].subaccounts|;
      if n < 2 {
        return;
      }
      var kmax := Min(s.cfg.hardening.sweepMaxSources, n - 1);
      var kmin := Clamp(s.cfg.hardening.sweepMinSources, 1, kmax);
      var idxs := ChooseTouched(n, kmin, kmax);
      ghost var goal := Collections(w, At(a), idxs);
      for i := 0 to |idxs|
        invariant Operational(idxs[i..], n) && Collections(w, At(a), idxs[i..]) == goal
      {
        assert idxs[i..][0] == idxs[i] && idxs[i..][1..] == idxs[i + 1..];
        Collect(a, idxs[i]);
      }
    }

    method PerformActionHardened(a: nat, k: nat)
      requires a < |agents| && k < |agents[a].subaccounts| && s.externals != [] && !Panics(w, At(a), s.cfg.hardening)
      modifies this`records, this`slot, this`sig, this`rng, this`clock, this`agents
      ensures a < |agents| && agents == old(agents)[a := agents[a]]
      ensures At(a) == Engine.PerformActionHardened(w, old(At(a)), k, s.externals, s.cfg.hardening)
    {
      hide ActOutward, HardenedDecoys, NumDecoys, RotateSome, ConsolidateSweep, Chance;
      var source := agents[a].subaccounts[k];
      var u := rng;
      rng := rng + 1;
      if Chance(w, u, s.cfg.hardening.consolidationProb.Value()) {
        match s.cfg.hardening.rebalance
        case RotateAccounts => Rotate(a);
        case DirectHub => Sweep(a);
      } else {
        Act(a, source);
        ActDecoys(a, source);
      }
    }

    // ---- the event loop ----

    /** The top of the heap: the entry due first, if any. */
    method Peek() returns (top: Option<(int, nat)>)
      requires Valid()
      ensures top.None? <==> nextAt == []
      ensures top.Some? ==> top.value == (nextAt[Soonest(nextAt)], Soonest(nextAt))
    {
      EmptyHeap(heap, nextAt);
      if heap == multiset{} {
        return None;
      }
      TopIsSoonest(heap, nextAt, (nextAt[Soonest(nextAt)], Soonest(nextAt)));
      var e :| IsTop(heap, e);
      TopIsSoonest(heap, nextAt, e);
      top := Some(e);
    }

    method IsDone() returns (done: bool)
      requires Valid()
      ensures done == Done(s, Model())
    {
      var top := Peek();
      done := top.None? || top.value.0 > s.end;
    }

    /** One event: pop the entry due first, act, push it back later. */
    method Wake()
      requires Valid() && !Done(s, Model()) && !WakePanics(w, s, Model())
      modifies this
      ensures Valid() && Model() == EventLoop.Wake(w, s, old(Model()))
    {
      hide Engine.PerformAction, Engine.PerformActionHardened, Rescheduled;
      var top := Peek();
      var (best, si) := top.value;
      heap := heap - multiset{(best, si)};
      var e := s.sched[si];
      assert EntryFits(e, agents);
      var a := e.agentIdx;
      clock := Max(best, clock);
      ghost var x := At(a);
      match e.subIdx {
        case None => PerformAction(a);
        case Some(k) => PerformActionHardened(a, k);
      }
      assert At(a) == Acted(w, s, old(Model()), si) && agents == old(agents)[a := agents[a]];
      Reschedule(a, e, best, si);
    }

    /** Pushes entry `si` back at its next wake time. */
    method Reschedule(a: nat, e: Sched, best: int, si: nat)
      requires a < |agents| && (e.subIdx.Some? ==> e.subIdx.value < |agents[a].phases|)
      requires si < |nextAt| && nextAt[si] == best
      requires exists whole: Heap :: HeapOf(whole, nextAt) && heap == whole - multiset{(best, si)}
      modifies this`heap, this`nextAt, this`rng, this`events
      ensures nextAt == old(nextAt)[si := Rescheduled(w, s, old(At(a)), e, best)]
      ensures HeapOf(heap, nextAt) && rng == old(rng) + 1 && events == old(events) + 1
    {
      var agent := agents[a];
      var d;
      match e.subIdx {
        case None => d := Delay(w, agent.persona, best, rng);
        case Some(k) =>
          d := Delay(w, agent.persona, SatAdd(best, agent.phases[k]), rng);
          if s.cfg.hardening.holdAggregateRate {
            d := d * |agent.subaccounts|;
          }
      }
      rng := rng + 1;
      var next := SatAdd(best, Max(d, 1));
      ghost var whole: Heap :| HeapOf(whole, nextAt) && heap == whole - multiset{(best, si)};
      HeapPush(whole, nextAt, si, next);
      heap := heap + multiset{(next, si)};
      nextAt := nextAt[si := next];
      events := events + 1;
    }

    /** The loop without a durable sink. */
    method RunCore()
      requires Valid() && Ending(s) && Proceeds(w, s, Model())
      modifies this
      ensures Valid() && Model() == Finish(w, s, old(Model()))
    {
      var done := IsDone();
      while !done
        invariant Valid() && done == Done(s, Model())
        invariant Finish(w, s, Model()) == Finish(w, s, old(Model())) && Proceeds(w, s, Model())
        decreases Measure(s.end, nextAt)
      {
        WakeProgress(w, s, Model());
        ProceedsNext(w, s, Model());
        Wake();
        done := IsDone();
      }
    }
  }
}
