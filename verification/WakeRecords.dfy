/** What a whole wake records, from the draws it makes; and how much a run records at least. */
module WakeRecords {
  import opened Types
  import opened Streams
  import opened Splitting
  import opened Sorting
  import opened Engine
  import opened EventLoop
  import opened Emissions
  import opened RunInvariants
  import opened WakeEffects

  // ---- one planned transfer ----

  /** A memo moves nothing and stays with its source; everything else goes to the counterparty. */
  predicate Planned(kind: ActionKind, source: AccountId, counterparty: AccountId, amount: nat, p: PlannedTx) {
    && p.source == source
    && (kind == Memo ==> p.dest == source && p.amount == 0 && p.kind == Memo)
    && (kind != Memo ==> p.dest == counterparty && p.amount == amount)
    && (kind == Stake || kind == Swap ==> p.kind == kind)
    && (kind == Transfer || kind == Dust || kind == Consolidate ==> p.kind == Transfer)
  }

  /** `rs` moves exactly `p` in one record or more, all labelled with the agent. */
  ghost predicate Carries(agent: Agent, rs: Ledger, p: PlannedTx) {
    && rs != [] && Total(Amounts(rs)) == p.amount
    && forall i :: 0 <= i < |rs| ==> rs[i].dest == p.dest && rs[i].kind == p.kind && rs[i].operator == Some(agent.id)
  }

  /** The parts are those of the split drawn at `rng`. */
  ghost predicate SplitAt(w: Stream, agent: Agent, rs: Ledger, p: PlannedTx, rng: Rng) {
    Amounts(rs) == Emitted(w, rng, p.amount, agent.persona.split)
  }

  /** Every record has a fee-payer and a source of its own, drawn two positions apart from `rng` on. */
  ghost predicate Scattered(w: Stream, agent: Agent, rs: Ledger, rng: Rng) {
    agent.subaccounts != [] && forall i :: 0 <= i < |rs| ==>
      && rs[i].feePayer == w.id(rng + 2 * i)
      && rs[i].source == agent.subaccounts[Index(w, rng + 2 * i + 1, |agent.subaccounts|)]
  }

  /** All records bear one time. */
  ghost predicate AllAt(rs: Ledger, ts: int) {
    forall i :: 0 <= i < |rs| ==> rs[i].ts == ts
  }

  /** `rs` is what the single-clock cooker makes of `p` between the two positions. */
  ghost predicate CookerEmission(w: Stream, agent: Agent, rs: Ledger, p: PlannedTx, rng: Rng, next: Rng) {
    var start := SplitAmount(w, rng, p.amount, agent.persona.split).1;
    && Carries(agent, rs, p) && SplitAt(w, agent, rs, p, rng) && Scattered(w, agent, rs, start)
    && next == start + 2 * |rs|
  }

  /** `y` continues `x` with records `rs`, all at the clock of `x`. */
  ghost predicate Continues(x: Ctx, y: Ctx, rs: Ledger) {
    && y.agent == x.agent && y.chain.clock == x.chain.clock
    && y.chain.records == x.chain.records + rs && AllAt(rs, x.chain.clock)
  }

  /** Draws made before the first record do not matter. */
  lemma ContinuesFrom(x: Ctx, rng: Rng, y: Ctx, rs: Ledger)
    requires Continues(x.(rng := rng), y, rs)
    ensures Continues(x, y, rs) && y.agent == x.agent
  {
  }

  lemma ContinuesTrans(x: Ctx, y: Ctx, z: Ctx, rs: Ledger, more: Ledger)
    requires Continues(x, y, rs) && Continues(y, z, more)
    ensures Continues(x, z, rs + more)
  {
    assert x.chain.records + rs + more == x.chain.records + (rs + more);
  }

  /** The records of single-clock parts. */
  function PartRecords(w: Stream, x: Ctx, dest: AccountId, kind: ActionKind, parts: seq<nat>): (rs: Ledger)
    requires x.agent.subaccounts != []
    ensures |rs| == |parts|
  {
    seq(|parts|, i requires 0 <= i < |parts| =>
      TxRecord(x.chain.sig + 1 + i, x.chain.slot + 1 + i, x.chain.clock, w.id(x.rng + 2 * i),
               x.agent.subaccounts[Index(w, x.rng + 2 * i + 1, |x.agent.subaccounts|)], dest, parts[i], kind, Some(x.agent.id)))
  }

  lemma {:induction false} EmitPartsAre(w: Stream, x: Ctx, dest: AccountId, kind: ActionKind, parts: seq<nat>)
    requires x.agent.subaccounts != []
    ensures var y := EmitParts(w, x, dest, kind, parts);
      && y.chain.records == x.chain.records + PartRecords(w, x, dest, kind, parts)
      && y.chain.clock == x.chain.clock && y.rng == x.rng + 2 * |parts|
    decreases |parts|
  {
    if parts != [] {
      var m := EmitPart(w, x, dest, kind, parts[0]);
      EmitPartsAre(w, m, dest, kind, parts[1..]);
      PartFirst(w, x, dest, kind, parts);
      assert x.chain.records + [PartRecords(w, x, dest, kind, parts)[0]] + PartRecords(w, m, dest, kind, parts[1..])
        == x.chain.records + PartRecords(w, x, dest, kind, parts);
    }
  }

  lemma PartFirst(w: Stream, x: Ctx, dest: AccountId, kind: ActionKind, parts: seq<nat>)
    requires x.agent.subaccounts != [] && parts != []
    ensures var m := EmitPart(w, x, dest, kind, parts[0]);
      var rs := PartRecords(w, x, dest, kind, parts);
      m.chain.records == x.chain.records + [rs[0]] && rs == [rs[0]] + PartRecords(w, m, dest, kind, parts[1..])
  {
  }

  lemma EmissionRecorded(w: Stream, x: Ctx, p: PlannedTx) returns (rs: Ledger)
    requires x.agent.subaccounts != []
    ensures var y := EmitWithNoise(w, x, p, Cooker);
      Continues(x, y, rs) && CookerEmission(w, x.agent, rs, p, x.rng, y.rng)
  {
    hide SplitAmount, Emitted, EmitParts, Total;
    var parts := Emitted(w, x.rng, p.amount, x.agent.persona.split);
    var m := x.(rng := SplitAmount(w, x.rng, p.amount, x.agent.persona.split).1);
    rs := PartRecords(w, m, p.dest, p.kind, parts);
    EmitPartsAre(w, m, p.dest, p.kind, parts);
    EmissionConserves(w, x.rng, p.amount, x.agent.persona.split);
    assert Amounts(rs) == parts;
  }

  // ---- decoys ----

  /** The decoy drawn at `rng`: dust for a drawn external. */
  predicate DustDrawn(w: Stream, agent: Agent, externals: seq<AccountId>, rng: Rng, p: PlannedTx)
    requires externals != []
  {
    && p.kind == Dust && p.dest == externals[Index(w, rng + 1, |externals|)]
    && p.amount == Range(w, rng + 2, 1, Max(agent.persona.dustLamportsMax, 1))
  }

  /** `rs` makes `n` dust payments, drawn one after the other between the two positions. */
  ghost predicate Dusted(w: Stream, agent: Agent, externals: seq<AccountId>, rs: Ledger, n: nat, rng: Rng, next: Rng)
    requires externals != []
    decreases n
  {
    if n == 0 then rs == [] && next == rng
    else exists p, m: nat, mid: nat :: DustFirst(w, agent, externals, rs, m, p, rng, mid) && Dusted(w, agent, externals, rs[m..], n - 1, mid, next)
  }

  ghost predicate DustFirst(w: Stream, agent: Agent, externals: seq<AccountId>, rs: Ledger, m: nat, p: PlannedTx, rng: Rng,
      mid: Rng)
    requires externals != []
    ensures DustFirst(w, agent, externals, rs, m, p, rng, mid) ==> 0 < m <= |rs|
  {
    m <= |rs| && DustDrawn(w, agent, externals, rng, p) && CookerEmission(w, agent, rs[..m], p, rng + 3, mid)
  }

  lemma DustMore(w: Stream, agent: Agent, externals: seq<AccountId>, first: Ledger, rest: Ledger, n: nat, p: PlannedTx,
      rng: Rng, mid: Rng, next: Rng)
    requires externals != [] && n > 0 && DustDrawn(w, agent, externals, rng, p)
    requires CookerEmission(w, agent, first, p, rng + 3, mid) && Dusted(w, agent, externals, rest, n - 1, mid, next)
    ensures Dusted(w, agent, externals, first + rest, n, rng, next) && first != []
  {
    hide SplitAt, Scattered, Emitted, SplitAmount;
    var rs := first + rest;
    assert rs[..|first|] == first && rs[|first|..] == rest;
    assert DustFirst(w, agent, externals, rs, |first|, p, rng, mid);
  }

  lemma DecoyRecorded(w: Stream, x: Ctx, externals: seq<AccountId>) returns (rs: Ledger)
    requires x.agent.subaccounts != [] && externals != []
    ensures var (p, y) := (DecoyTx(w, x, externals), EmitWithNoise(w, x.(rng := x.rng + 3), DecoyTx(w, x, externals), Cooker));
      && Continues(x, y, rs) && DustDrawn(w, x.agent, externals, x.rng, p)
      && CookerEmission(w, x.agent, rs, p, x.rng + 3, y.rng)
  {
    hide EmitWithNoise, CookerEmission, Continues;
    var p := DecoyTx(w, x, externals);
    rs := EmissionRecorded(w, x.(rng := x.rng + 3), p);
    ContinuesFrom(x, x.rng + 3, EmitWithNoise(w, x.(rng := x.rng + 3), p, Cooker), rs);
  }

  lemma NoDust(w: Stream, x: Ctx, externals: seq<AccountId>)
    requires x.agent.subaccounts != [] && externals != []
    ensures Continues(x, x, []) && Dusted(w, x.agent, externals, [], 0, x.rng, x.rng)
  {
  }

  lemma {:induction false} DecoysRecorded(w: Stream, x: Ctx, externals: seq<AccountId>, n: nat) returns (rs: Ledger)
    requires x.agent.subaccounts != [] && externals != []
    ensures var y := Decoys(w, x, externals, n);
      Continues(x, y, rs) && Dusted(w, x.agent, externals, rs, n, x.rng, y.rng) && |rs| >= n
    decreases n
  {
    hide EmitWithNoise, CookerEmission, Continues, DustDrawn, DecoyTx, Dusted;
    if n == 0 {
      rs := [];
      NoDust(w, x, externals);
    } else {
      var p := DecoyTx(w, x, externals);
      var y := EmitWithNoise(w, x.(rng := x.rng + 3), p, Cooker);
      var first := DecoyRecorded(w, x, externals);
      var rest := DecoysRecorded(w, y, externals, n - 1);
      ContinuesTrans(x, y, Decoys(w, y, externals, n - 1), first, rest);
      rs := first + rest;
      DustMore(w, x.agent, externals, first, rest, n, p, x.rng, y.rng, Decoys(w, y, externals, n - 1).rng);
    }
  }

  // ---- the naive wake ----

  /** The sub-accounts other than the main account, in order. */
  function Others(subs: seq<AccountId>, main: AccountId): (os: seq<AccountId>)
    ensures forall a :: a in os <==> a in subs && a != main
  {
    if subs == [] then []
    else if subs[0] == main then Others(subs[1..], main)
    else [subs[0]] + Others(subs[1..], main)
  }

  /** `r` pays from `other` into the main account. */
  predicate Consolidates(agent: Agent, other: AccountId, r: TxRecord) {
    && r.source == other && r.dest == r.feePayer == agent.main && r.kind == Consolidate
    && 1_000 <= r.amount <= 100_000 && r.operator == Some(agent.id)
  }

  lemma {:induction false} FunnelRecorded(w: Stream, x: Ctx, subs: seq<AccountId>) returns (rs: Ledger)
    ensures var y := Funnel(w, x, subs);
      && Continues(x, y, rs) && |rs| == |Others(subs, x.agent.main)| && y.rng == x.rng + |rs|
      && forall i :: 0 <= i < |rs| ==>
           Consolidates(x.agent, Others(subs, x.agent.main)[i], rs[i]) && rs[i].amount == Range(w, x.rng + i, 1_000, 100_000)
    decreases |subs|
  {
    if subs == [] {
      rs := [];
    } else if subs[0] == x.agent.main {
      rs := FunnelRecorded(w, x, subs[1..]);
    } else {
      var tx := PlannedTx(subs[0], x.agent.main, Range(w, x.rng, 1_000, 100_000), Consolidate);
      var y := Commit(x, tx, x.agent.main, x.rng + 1);
      var rest := FunnelRecorded(w, y, subs[1..]);
      var first := y.chain.records[|x.chain.records|];
      rs := [first] + rest;
      ContinuesTrans(x, y, Funnel(w, y, subs[1..]), [first], rest);
      forall i | 0 < i < |rs|
        ensures Consolidates(x.agent, Others(subs, x.agent.main)[i], rs[i]) && rs[i].amount == Range(w, x.rng + i, 1_000, 100_000)
      {
        assert rs[i] == rest[i - 1];
      }
    }
  }

  /** Where the action of a single-clock wake comes from: four draws. */
  ghost predicate ActionDrawn(w: Stream, x: Ctx, externals: seq<AccountId>, p: PlannedTx)
    requires x.agent.subaccounts != [] && externals != []
  {
    Planned(ChooseAction(w, x.rng), x.agent.subaccounts[Index(w, x.rng + 1, |x.agent.subaccounts|)],
            externals[Index(w, x.rng + 2, |externals|)], SampleAmount(w, x.rng + 3), p)
  }

  lemma DrawnIsDrawn(w: Stream, x: Ctx, externals: seq<AccountId>)
    requires x.agent.subaccounts != [] && externals != []
    ensures ActionDrawn(w, x, externals, DrawnAction(w, x, externals))
  {
  }

  /**
   * A naive wake records the drawn action, paid by the main account, and when it draws a
   * consolidation, one payment from every other sub-account into the main account.
   */
  lemma NaiveWake(w: Stream, x: Ctx, externals: seq<AccountId>) returns (p: PlannedTx, r: TxRecord, funnel: Ledger)
    requires x.agent.subaccounts != [] && externals != []
    ensures ActionDrawn(w, x, externals, p)
    ensures Continues(x, PerformAction(w, x, externals, Naive), [r] + funnel)
    ensures Carries(x.agent, [r], p) && r.source == p.source && r.feePayer == x.agent.main
    ensures var others := Others(x.agent.subaccounts, x.agent.main);
      if Chance(w, x.rng + 4, 0.12) then
        |funnel| == |others| && forall i :: 0 <= i < |others| ==> Consolidates(x.agent, others[i], funnel[i])
      else funnel == []
  {
    hide Funnel, Others, Consolidates, DrawnAction, ActionDrawn;
    p := DrawnAction(w, x, externals);
    DrawnIsDrawn(w, x, externals);
    var y := EmitWithNoise(w, x.(rng := x.rng + 4), p, Naive);
    r := y.chain.records[|x.chain.records|];
    assert Continues(x, y, [r]);
    OneCarries(x.agent, r, p);
    funnel := [];
    if Chance(w, x.rng + 4, 0.12) {
      funnel := FunnelRecorded(w, y.(rng := y.rng + 1), x.agent.subaccounts);
    }
    ContinuesTrans(x, y, PerformAction(w, x, externals, Naive), [r], funnel);
  }

  lemma OneCarries(agent: Agent, r: TxRecord, p: PlannedTx)
    requires r.amount == p.amount && r.dest == p.dest && r.kind == p.kind && r.operator == Some(agent.id)
    ensures Carries(agent, [r], p)
  {
    assert Amounts([r]) == [p.amount] && [p.amount][..0] == [];
  }

  // ---- the single-clock cooker wake ----

  /** A churn moves a bounded amount from a drawn sub-account into a fresh one. */
  ghost predicate Churns(w: Stream, agent: Agent, r: TxRecord, rng: Rng)
    requires agent.subaccounts != []
  {
    && r.source == agent.subaccounts[Index(w, rng + 1, |agent.subaccounts|)] && r.dest == w.id(rng + 2)
    && r.amount == Range(w, rng + 3, 1_000, 200_000) && r.feePayer == w.id(rng + 4)
    && r.kind == Transfer && r.operator == Some(agent.id)
  }

  lemma ChurnRecorded(w: Stream, x: Ctx) returns (rs: Ledger)
    requires x.agent.subaccounts != []
    ensures Continues(x, MaybeRebalance(w, x, Cooker), rs)
    ensures if Chance(w, x.rng, 0.08) then |rs| == 1 && Churns(w, x.agent, rs[0], x.rng) else rs == []
  {
    var y := MaybeRebalance(w, x, Cooker);
    rs := if Chance(w, x.rng, 0.08) then [y.chain.records[|x.chain.records|]] else [];
  }

  /**
   * A cooker wake records the drawn action in the parts of its split, each from a drawn source and paid
   * by a fresh fee-payer, then as many dust payments as it draws, then at most one churn.
   */
  lemma CookerWake(w: Stream, x: Ctx, externals: seq<AccountId>)
    returns (p: PlannedTx, action: Ledger, dust: Ledger, churn: Ledger, at: Rng, last: Rng)
    requires x.agent.subaccounts != [] && externals != []
    ensures ActionDrawn(w, x, externals, p)
    ensures Continues(x, PerformAction(w, x, externals, Cooker), action + dust + churn)
    ensures CookerEmission(w, x.agent, action, p, x.rng + 4, at)
    ensures Dusted(w, x.agent, externals, dust, NumDecoys(w, at), at + 1, last) && |dust| >= NumDecoys(w, at)
    ensures if Chance(w, last, 0.08) then |churn| == 1 && Churns(w, x.agent, churn[0], last) else churn == []
  {
    hide EmitWithNoise, CookerEmission, Continues, Decoys, Dusted, MaybeRebalance, NumDecoys, Churns, DrawnAction, ActionDrawn;
    p := DrawnAction(w, x, externals);
    DrawnIsDrawn(w, x, externals);
    var y := EmitWithNoise(w, x.(rng := x.rng + 4), p, Cooker);
    action := EmissionRecorded(w, x.(rng := x.rng + 4), p);
    ContinuesFrom(x, x.rng + 4, y, action);
    at := y.rng;
    dust := DecoysRecorded(w, y.(rng := y.rng + 1), externals, NumDecoys(w, y.rng));
    var z := WithDecoys(w, y, externals, Cooker);
    ContinuesFrom(y, y.rng + 1, z, dust);
    last := z.rng;
    churn := ChurnRecorded(w, z);
    ContinuesTrans(x, y, z, action, dust);
    ContinuesTrans(x, z, PerformAction(w, x, externals, Cooker), action + dust, churn);
  }

  // ---- the hardened wake ----

  /** The clock after the last of `rs`. */
  function ClockAfter(clock: int, rs: Ledger): int {
    if rs == [] then clock else rs[|rs| - 1].ts
  }

  /** Record `i` comes after its predecessor by the gap drawn for it. */
  ghost predicate Timed(w: Stream, clock: int, rs: Ledger, rng: Rng, step: nat) {
    forall i :: 0 <= i < |rs| ==> rs[i].ts == ClockAfter(clock, rs[..i]) + Gap(w, rng + step * i)
  }

  /** `y` continues `x` with records `rs`, each at its own later time, all signed by `source`. */
  ghost predicate Follows(w: Stream, x: Ctx, y: Ctx, rs: Ledger, rng: Rng, step: nat) {
    && y.agent == x.agent && y.chain.records == x.chain.records + rs && y.chain.clock == ClockAfter(x.chain.clock, rs)
    && Timed(w, x.chain.clock, rs, rng, step)
    && forall i :: 0 <= i < |rs| ==> rs[i].operator == Some(x.agent.id)
  }

  lemma NothingFollows(w: Stream, x: Ctx, step: nat)
    ensures Follows(w, x, x, [], x.rng, step)
  {
  }

  /** One record and then the others. */
  lemma FollowsMore(w: Stream, x: Ctx, m: Ctx, y: Ctx, r: TxRecord, rest: Ledger, step: nat)
    requires m.agent == x.agent && m.chain.records == x.chain.records + [r] && m.chain.clock == r.ts
    requires r.ts == x.chain.clock + Gap(w, x.rng) && r.operator == Some(x.agent.id)
    requires m.rng == x.rng + step && Follows(w, m, y, rest, m.rng, step)
    ensures Follows(w, x, y, [r] + rest, x.rng, step)
  {
    assert x.chain.records + [r] + rest == x.chain.records + ([r] + rest);
    TimedMore(w, x.chain.clock, r, rest, x.rng, step);
    hide Timed;
  }

  lemma TimedMore(w: Stream, clock: int, r: TxRecord, rest: Ledger, rng: Rng, step: nat)
    requires r.ts == clock + Gap(w, rng) && Timed(w, r.ts, rest, rng + step, step)
    ensures Timed(w, clock, [r] + rest, rng, step)
  {
    hide Gap;
    var rs := [r] + rest;
    forall i | 0 <= i < |rs| ensures rs[i].ts == ClockAfter(clock, rs[..i]) + Gap(w, rng + step * i) {
      if i > 0 {
        assert rs[i] == rest[i - 1];
        assert rs[..i] == [r] + rest[..i - 1];
        Distribute(i - 1, 1, step);
      } else {
        assert step * i == 0;
      }
    }
  }

  ghost predicate SignedBy(rs: Ledger, source: AccountId) {
    forall i :: 0 <= i < |rs| ==> rs[i].source == source
  }

  /** Each part has a fresh fee-payer of its own. */
  ghost predicate PartsOf(w: Stream, rs: Ledger, dest: AccountId, kind: ActionKind, parts: seq<nat>, rng: Rng) {
    && Amounts(rs) == parts
    && forall i :: 0 <= i < |rs| ==> rs[i].dest == dest && rs[i].kind == kind && rs[i].feePayer == w.id(rng + 2 * i + 1)
  }

  lemma {:induction false} HardenedPartsAre(w: Stream, x: Ctx, source: AccountId, dest: AccountId, kind: ActionKind,
      parts: seq<nat>) returns (rs: Ledger)
    ensures var y := HardenedParts(w, x, source, dest, kind, parts);
      && Follows(w, x, y, rs, x.rng, 2) && SignedBy(rs, source) && PartsOf(w, rs, dest, kind, parts, x.rng)
      && y.rng == x.rng + 2 * |rs|
    decreases |parts|
  {
    hide Follows, PartsOf;
    if parts == [] {
      rs := [];
      NothingFollows(w, x, 2);
      NoParts(w, x, dest, kind);
    } else {
      var m := HardenedPart(w, x, source, dest, kind, parts[0]);
      var rest := HardenedPartsAre(w, m, source, dest, kind, parts[1..]);
      var r := m.chain.records[|x.chain.records|];
      rs := [r] + rest;
      FollowsMore(w, x, m, HardenedParts(w, m, source, dest, kind, parts[1..]), r, rest, 2);
      PartsMore(w, x, r, rest, dest, kind, parts);
    }
  }

  lemma NoParts(w: Stream, x: Ctx, dest: AccountId, kind: ActionKind)
    ensures PartsOf(w, [], dest, kind, [], x.rng)
  {
  }

  lemma PartsMore(w: Stream, x: Ctx, r: TxRecord, rest: Ledger, dest: AccountId, kind: ActionKind, parts: seq<nat>)
    requires parts != [] && r.amount == parts[0] && r.dest == dest && r.kind == kind && r.feePayer == w.id(x.rng + 1)
    requires PartsOf(w, rest, dest, kind, parts[1..], x.rng + 2)
    ensures PartsOf(w, [r] + rest, dest, kind, parts, x.rng)
  {
    var rs := [r] + rest;
    assert Amounts(rs) == [r.amount] + Amounts(rest);
    forall i | 0 <= i < |rs| ensures rs[i].dest == dest && rs[i].kind == kind && rs[i].feePayer == w.id(x.rng + 2 * i + 1) {
      if i > 0 {
        assert rs[i] == rest[i - 1];
      }
    }
  }

  /** Each is a dust payment to a drawn external, paid by a fresh fee-payer. */
  ghost predicate DustAt(w: Stream, agent: Agent, externals: seq<AccountId>, rs: Ledger, rng: Rng)
    requires externals != []
  {
    forall i :: 0 <= i < |rs| ==>
      && rs[i].kind == Dust && rs[i].dest == externals[Index(w, rng + 4 * i + 1, |externals|)]
      && rs[i].amount == Range(w, rng + 4 * i + 2, 1, Max(agent.persona.dustLamportsMax, 1))
      && rs[i].feePayer == w.id(rng + 4 * i + 3)
  }

  lemma {:induction false} HardenedDecoysAre(w: Stream, x: Ctx, source: AccountId, externals: seq<AccountId>, n: nat)
    returns (rs: Ledger)
    requires externals != []
    ensures var y := HardenedDecoys(w, x, source, externals, n);
      && Follows(w, x, y, rs, x.rng, 4) && SignedBy(rs, source) && DustAt(w, x.agent, externals, rs, x.rng) && |rs| == n
    decreases n
  {
    hide Follows, DustAt;
    if n == 0 {
      rs := [];
      NothingFollows(w, x, 4);
      NoDustAt(w, x, externals);
    } else {
      var m := HardenedDecoy(w, x, source, externals);
      var rest := HardenedDecoysAre(w, m, source, externals, n - 1);
      var r := m.chain.records[|x.chain.records|];
      DecoyIsDust(w, x, source, externals);
      assert m.chain.records[|x.chain.records|..] == [r];
      rs := [r] + rest;
      FollowsMore(w, x, m, HardenedDecoys(w, m, source, externals, n - 1), r, rest, 4);
      DustAtMore(w, x, externals, r, rest);
    }
  }

  lemma NoDustAt(w: Stream, x: Ctx, externals: seq<AccountId>)
    requires externals != []
    ensures DustAt(w, x.agent, externals, [], x.rng)
  {
  }

  lemma DecoyIsDust(w: Stream, x: Ctx, source: AccountId, externals: seq<AccountId>)
    requires externals != []
    ensures DustAt(w, x.agent, externals, HardenedDecoy(w, x, source, externals).chain.records[|x.chain.records|..], x.rng)
  {
  }

  lemma DustAtMore(w: Stream, x: Ctx, externals: seq<AccountId>, r: TxRecord, rest: Ledger)
    requires externals != [] && DustAt(w, x.agent, externals, [r], x.rng) && DustAt(w, x.agent, externals, rest, x.rng + 4)
    ensures DustAt(w, x.agent, externals, [r] + rest, x.rng)
  {
    hide Range;
    var rs := [r] + rest;
    forall i | 0 <= i < |rs|
      ensures rs[i].kind == Dust && rs[i].dest == externals[Index(w, x.rng + 4 * i + 1, |externals|)]
      ensures rs[i].amount == Range(w, x.rng + 4 * i + 2, 1, Max(x.agent.persona.dustLamportsMax, 1))
      ensures rs[i].feePayer == w.id(x.rng + 4 * i + 3)
    {
      if i > 0 {
        assert rs[i] == rest[i - 1];
      } else {
        assert rs[i] == [r][0];
      }
    }
  }

  lemma FollowsTrans(w: Stream, x: Ctx, y: Ctx, z: Ctx, rs: Ledger, more: Ledger)
    requires y.agent == x.agent && y.chain.records == x.chain.records + rs
    requires z.agent == y.agent && z.chain.records == y.chain.records + more
    ensures z.agent == x.agent && z.chain.records == x.chain.records + (rs + more)
  {
  }

  /** No maintenance is drawn: the wake acts outward. */
  predicate Acts(w: Stream, x: Ctx, h: Hardening) {
    !Chance(w, x.rng, h.consolidationProb.Value())
  }

  /**
   * A hardened wake without maintenance: the acting sub-account makes the drawn action in the parts of
   * its split and then as many dust payments as it draws, every record later than the one before it by
   * a drawn gap and paid by a fresh fee-payer.
   */
  lemma HardenedWake(w: Stream, x: Ctx, sub: nat, externals: seq<AccountId>, h: Hardening)
    returns (p: PlannedTx, action: Ledger, dust: Ledger, start: Rng, at: Rng)
    requires sub < |x.agent.subaccounts| && externals != [] && Acts(w, x, h)
    ensures var source := x.agent.subaccounts[sub];
      && Planned(ChooseAction(w, x.rng + 1), source, externals[Index(w, x.rng + 2, |externals|)],
                 SampleAmount(w, x.rng + 3), p)
      && SignedBy(action + dust, source)
    ensures Carries(x.agent, action, p) && SplitAt(w, x.agent, action, p, x.rng + 4)
    ensures start == SplitAmount(w, x.rng + 4, p.amount, x.agent.persona.split).1 && at == start + 2 * |action|
    ensures PartsOf(w, action, p.dest, p.kind, Amounts(action), start) && Timed(w, x.chain.clock, action, start, 2)
    ensures DustAt(w, x.agent, externals, dust, at + 1) && |dust| == NumDecoys(w, at)
    ensures Timed(w, ClockAfter(x.chain.clock, action), dust, at + 1, 4)
    ensures var y := PerformActionHardened(w, x, sub, externals, h);
      && y.agent == x.agent && y.chain.records == x.chain.records + (action + dust)
      && forall r :: r in dust ==> r.operator == Some(x.agent.id)
  {
    hide HardenedParts, HardenedDecoys, PartsOf, DustAt, Timed, SplitAmount, Emitted, Total, NumDecoys, ActingTx;
    var source := x.agent.subaccounts[sub];
    var x1 := x.(rng := x.rng + 1);
    p := ActingTx(w, x1, source, externals);
    ActingIsDrawn(w, x1, source, externals);
    start := SplitAmount(w, x.rng + 4, p.amount, x.agent.persona.split).1;
    var parts := Emitted(w, x.rng + 4, p.amount, x.agent.persona.split);
    action := HardenedPartsAre(w, x1.(rng := start), source, p.dest, p.kind, parts);
    ActionCarries(w, x.agent, action, p, x.rng + 4, start);
    var y := ActOutward(w, x1, source, externals);
    at := y.rng;
    dust := HardenedDecoysAre(w, y.(rng := y.rng + 1), source, externals, NumDecoys(w, y.rng));
    FollowsTrans(w, x, y, OutwardWake(w, x1, source, externals), action, dust);
  }

  lemma ActingIsDrawn(w: Stream, x: Ctx, source: AccountId, externals: seq<AccountId>)
    requires externals != []
    ensures Planned(ChooseAction(w, x.rng), source, externals[Index(w, x.rng + 1, |externals|)],
                    SampleAmount(w, x.rng + 2), ActingTx(w, x, source, externals))
  {
  }

  lemma ActionCarries(w: Stream, agent: Agent, rs: Ledger, p: PlannedTx, rng: Rng, start: Rng)
    requires PartsOf(w, rs, p.dest, p.kind, Emitted(w, rng, p.amount, agent.persona.split), start)
    requires forall i :: 0 <= i < |rs| ==> rs[i].operator == Some(agent.id)
    ensures Carries(agent, rs, p) && SplitAt(w, agent, rs, p, rng) && PartsOf(w, rs, p.dest, p.kind, Amounts(rs), start)
  {
    hide Emitted, Total;
    EmissionConserves(w, rng, p.amount, agent.persona.split);
  }

  // ---- maintenance ----

  /** `k` lies between the two limits as far as `n` accounts allow. */
  predicate Touches(k: nat, n: nat, lo: nat, hi: nat) {
    && 1 <= k <= n - 1
    && (1 <= hi ==> k <= hi)
    && (hi == 0 ==> k == 1)
    && (lo <= hi && lo <= n - 1 ==> lo <= k)
    && (hi <= lo && 1 <= hi <= n - 1 ==> k == hi)
    && (n - 1 <= lo && n - 1 <= hi ==> k == n - 1)
  }

  /** A rotation draws distinct sub-accounts, as many as its limits say. */
  lemma RotationTouches(w: Stream, rng: Rng, n: nat, h: Hardening) returns (idxs: seq<nat>, next: Rng)
    requires n >= 2
    ensures (idxs, next) == RotationDraw(w, rng, n, h)
    ensures NoDup(idxs) && Operational(idxs, n) && Touches(|idxs|, n, h.sweepMinSources, h.sweepMaxSources)
  {
    hide Chosen, NoDup;
    var kmax := Clamp(h.sweepMaxSources, 1, n - 1);
    var (k, rng1) := TouchCount(w, rng, Clamp(h.sweepMinSources, 1, kmax), kmax);
    ChosenDistinct(w, rng1, n, k);
    idxs, next := Chosen(w, rng1, n, k), rng1 + k;
  }

  lemma SweepTouches(w: Stream, rng: Rng, n: nat, h: Hardening) returns (idxs: seq<nat>, next: Rng)
    requires n >= 2 && h.sweepMaxSources >= 1
    ensures (idxs, next) == SweepDraw(w, rng, n, h)
    ensures NoDup(idxs) && Operational(idxs, n) && Touches(|idxs|, n, h.sweepMinSources, h.sweepMaxSources)
  {
    hide Chosen, NoDup;
    var kmax := Min(h.sweepMaxSources, n - 1);
    var (k, rng1) := TouchCount(w, rng, Clamp(h.sweepMinSources, 1, kmax), kmax);
    ChosenDistinct(w, rng1, n, k);
    idxs, next := Chosen(w, rng1, n, k), rng1 + k;
  }

  /** Each chosen sub-account pays a drawn amount into the hub, through a fresh fee-payer. */
  ghost predicate Collects(w: Stream, agent: Agent, rs: Ledger, idxs: seq<nat>, rng: Rng)
    requires Operational(idxs, |agent.subaccounts|)
  {
    |rs| == |idxs| && forall i :: 0 <= i < |rs| ==>
      && rs[i].source == agent.subaccounts[idxs[i]] && rs[i].dest == agent.main && rs[i].kind == Transfer
      && rs[i].amount == SampleAmount(w, rng + 3 * i + 1) && rs[i].feePayer == w.id(rng + 3 * i + 2)
  }

  lemma {:induction false} CollectionsAre(w: Stream, x: Ctx, idxs: seq<nat>) returns (rs: Ledger)
    requires Operational(idxs, |x.agent.subaccounts|)
    ensures Follows(w, x, Collections(w, x, idxs), rs, x.rng, 3) && Collects(w, x.agent, rs, idxs, x.rng)
    decreases |idxs|
  {
    hide Follows, Collects;
    if idxs == [] {
      rs := [];
      NothingFollows(w, x, 3);
      NoneCollected(w, x);
    } else {
      var m := Collection(w, x, idxs[0]);
      var r := m.chain.records[|x.chain.records|];
      CollectionCollects(w, x, idxs[0]);
      assert m.chain.records[|x.chain.records|..] == [r];
      var rest := CollectionsAre(w, m, idxs[1..]);
      rs := [r] + rest;
      FollowsMore(w, x, m, Collections(w, m, idxs[1..]), r, rest, 3);
      CollectsMore(w, x, r, rest, idxs);
    }
  }

  lemma NoneCollected(w: Stream, x: Ctx)
    ensures Collects(w, x.agent, [], [], x.rng)
  {
  }

  lemma CollectionCollects(w: Stream, x: Ctx, j: nat)
    requires 0 < j < |x.agent.subaccounts|
    ensures Collects(w, x.agent, Collection(w, x, j).chain.records[|x.chain.records|..], [j], x.rng)
  {
  }

  lemma CollectsMore(w: Stream, x: Ctx, r: TxRecord, rest: Ledger, idxs: seq<nat>)
    requires idxs != [] && Operational(idxs, |x.agent.subaccounts|)
    requires Collects(w, x.agent, [r], [idxs[0]], x.rng) && Collects(w, x.agent, rest, idxs[1..], x.rng + 3)
    ensures Collects(w, x.agent, [r] + rest, idxs, x.rng)
  {
    hide SampleAmount;
    var rs := [r] + rest;
    forall i | 0 <= i < |rs|
      ensures rs[i].source == x.agent.subaccounts[idxs[i]] && rs[i].dest == x.agent.main && rs[i].kind == Transfer
      ensures rs[i].amount == SampleAmount(w, x.rng + 3 * i + 1) && rs[i].feePayer == w.id(x.rng + 3 * i + 2)
    {
      if i > 0 {
        assert rs[i] == rest[i - 1] && idxs[i] == idxs[1..][i - 1];
      } else {
        assert rs[i] == [r][0];
      }
    }
  }

  /** A hub sweep collects from exactly the sources it draws. */
  lemma SweepCollects(w: Stream, x: Ctx, h: Hardening) returns (rs: Ledger)
    requires |x.agent.subaccounts| >= 2 && h.sweepMaxSources >= 1
    ensures var (idxs, rng) := SweepDraw(w, x.rng, |x.agent.subaccounts|, h);
      Follows(w, x.(rng := rng), ConsolidateSweep(w, x, h), rs, rng, 3) && Collects(w, x.agent, rs, idxs, rng)
  {
    hide SweepDraw, Collections, Follows, Collects;
    var (idxs, rng) := SweepDraw(w, x.rng, |x.agent.subaccounts|, h);
    rs := CollectionsAre(w, x.(rng := rng), idxs);
  }

  /**
   * A hardened wake with maintenance does what the configured strategy says to a drawn number of distinct
   * sub-accounts, or nothing when there is only one.
   */
  lemma MaintenanceWake(w: Stream, x: Ctx, sub: nat, externals: seq<AccountId>, h: Hardening)
    returns (idxs: seq<nat>, rng: Rng, rs: Ledger)
    requires sub < |x.agent.subaccounts| && externals != [] && !Acts(w, x, h) && !Panics(w, x, h)
    ensures var (n, y) := (|x.agent.subaccounts|, PerformActionHardened(w, x, sub, externals, h));
      if n < 2 then y == x.(rng := y.rng)
      else
        && NoDup(idxs) && Operational(idxs, n) && Touches(|idxs|, n, h.sweepMinSources, h.sweepMaxSources)
        && match h.rebalance
           case RotateAccounts => Rotated(w, x.(rng := rng), y, idxs)
           case DirectHub => Follows(w, x.(rng := rng), y, rs, rng, 3) && Collects(w, x.agent, rs, idxs, rng)
  {
    hide RotationDraw, SweepDraw, Successions, Collections, Rotated, Follows, Collects, NoDup, Touches, Operational;
    idxs, rng, rs := [], 0, [];
    var n, x1 := |x.agent.subaccounts|, x.(rng := x.rng + 1);
    if n >= 2 {
      match h.rebalance
      case RotateAccounts =>
        idxs, rng := RotationTouches(w, x1.rng, n, h);
        RotateSomeRotates(w, x1, h);
      case DirectHub =>
        idxs, rng := SweepTouches(w, x1.rng, n, h);
        rs := SweepCollects(w, x1, h);
    }
  }

  // ---- whole runs ----

  lemma SingleClockAppends(w: Stream, x: Ctx, externals: seq<AccountId>, mode: Mode)
    requires x.agent.subaccounts != [] && externals != []
    ensures x.chain.records < PerformAction(w, x, externals, mode).chain.records
  {
    hide PerformAction, SplitAmount, Dusted, Churns, Scattered, SplitAt, ActionDrawn, Consolidates;
    match mode
    case Naive => var p, r, funnel := NaiveWake(w, x, externals);
    case Cooker => var p, action, dust, churn, at, last := CookerWake(w, x, externals);
  }

  lemma HardenedAppends(w: Stream, x: Ctx, sub: nat, externals: seq<AccountId>, h: Hardening)
    requires sub < |x.agent.subaccounts| && externals != [] && Acts(w, x, h)
    ensures x.chain.records < PerformActionHardened(w, x, sub, externals, h).chain.records
  {
    hide PerformActionHardened, SplitAmount, SplitAt, PartsOf, DustAt, Timed, SignedBy, Planned, Acts;
    var p, action, dust, start, at := HardenedWake(w, x, sub, externals, h);
  }

  /** The observable time of the event that is due. */
  function EventTime(r: Run): int
    requires r.nextAt != []
  {
    Max(r.nextAt[Soonest(r.nextAt)], r.chain.clock)
  }

  /** The records added from number `n` on are all stamped with `clock`, or all later when hardened. */
  ghost predicate StampedFrom(rs: Ledger, n: nat, clock: int, hardened: bool) {
    forall i :: n <= i < |rs| ==> if hardened then rs[i].ts > clock else rs[i].ts == clock
  }

  lemma {:induction false} ReachesLater(w: Stream, sh: Shape, ext: seq<AccountId>, x: Ctx, y: Ctx, n: nat)
    requires HardenedShape(sh) && Reaches(w, sh, ext, x, y, n)
    ensures x.chain.records <= y.chain.records && StampedFrom(y.chain.records, |x.chain.records|, x.chain.clock, true)
    decreases n
  {
    hide Emits, StampedFrom;
    if n == 0 {
      NoneStamped(x);
    } else {
      var m :| Emits(w, sh, ext, x, m) && Reaches(w, sh, ext, m, y, n - 1);
      OneLater(w, sh, ext, x, m);
      ReachesLater(w, sh, ext, m, y, n - 1);
      LaterStill(x, m, y);
    }
  }

  lemma NoneStamped(x: Ctx)
    ensures StampedFrom(x.chain.records, |x.chain.records|, x.chain.clock, true)
  {
  }

  lemma OneLater(w: Stream, sh: Shape, ext: seq<AccountId>, x: Ctx, m: Ctx)
    requires HardenedShape(sh) && Emits(w, sh, ext, x, m)
    ensures |m.chain.records| == |x.chain.records| + 1 && x.chain.records <= m.chain.records
    ensures StampedFrom(m.chain.records, |x.chain.records|, x.chain.clock, true) && m.chain.clock > x.chain.clock
  {
    hide FreshBoth, Throwaway, Succeeds;
  }

  lemma LaterStill(x: Ctx, m: Ctx, y: Ctx)
    requires x.chain.records <= m.chain.records && m.chain.records <= y.chain.records && m.chain.clock > x.chain.clock
    requires StampedFrom(m.chain.records, |x.chain.records|, x.chain.clock, true)
    requires StampedFrom(y.chain.records, |m.chain.records|, m.chain.clock, true)
    ensures StampedFrom(y.chain.records, |x.chain.records|, x.chain.clock, true)
  {
    forall i | |x.chain.records| <= i < |y.chain.records| ensures y.chain.records[i].ts > x.chain.clock {
      if i < |m.chain.records| {
        assert y.chain.records[i] == m.chain.records[i];
      }
    }
  }

  /**
   * An event's records bear its own time, or that of the chain if it is later; hardened ones come after it,
   * one after the other.
   */
  lemma EventTimes(w: Stream, s: Setup, r: Run)
    requires Consistent(s, r) && EntriesMatch(s) && !Done(s, r)
    ensures var r' := Wake(w, s, r);
      && r.chain.records <= r'.chain.records
      && StampedFrom(r'.chain.records, |r.chain.records|, EventTime(r), Hardened(s.cfg))
  {
    hide PerformAction, PerformActionHardened, Rescheduled, Hardened, StampedFrom, Reaches;
    var si := Soonest(r.nextAt);
    var e := s.sched[si];
    assert EntryFits(e, r.agents);
    assert r.agents[e.agentIdx].subaccounts != [];
    var x := Waking(r, r.nextAt[si], e.agentIdx);
    match e.subIdx
    case None => SingleClockTimes(w, x, s.externals, s.cfg.mode);
    case Some(k) =>
      var sh := if s.cfg.hardening.rebalance == RotateAccounts then RotateShape else HubShape;
      var y := PerformActionHardened(w, x, k, s.externals, s.cfg.hardening);
      PerformActionHardenedGrows(w, x, k, s.externals, s.cfg.hardening);
      var n: nat :| Reaches(w, sh, s.externals, x, y, n);
      ReachesLater(w, sh, s.externals, x, y, n);
  }

  lemma SingleClockTimes(w: Stream, x: Ctx, externals: seq<AccountId>, mode: Mode)
    requires x.agent.subaccounts != [] && externals != []
    ensures var y := PerformAction(w, x, externals, mode);
      x.chain.records <= y.chain.records && StampedFrom(y.chain.records, |x.chain.records|, x.chain.clock, false)
  {
    hide PerformAction, SplitAmount, Dusted, Churns, Scattered, SplitAt, ActionDrawn, Consolidates, CookerEmission;
    var y := PerformAction(w, x, externals, mode);
    match mode
    case Naive =>
      var p, r, funnel := NaiveWake(w, x, externals);
      StampedAfter(x, y, [r] + funnel);
    case Cooker =>
      var p, action, dust, churn, at, last := CookerWake(w, x, externals);
      StampedAfter(x, y, action + dust + churn);
  }

  lemma StampedAfter(x: Ctx, y: Ctx, rs: Ledger)
    requires Continues(x, y, rs)
    ensures x.chain.records <= y.chain.records && StampedFrom(y.chain.records, |x.chain.records|, x.chain.clock, false)
  {
  }

  /** Every event records something, except when a hardened one draws maintenance. */
  lemma EventAppends(w: Stream, s: Setup, r: Run)
    requires Consistent(s, r) && EntriesMatch(s) && !Done(s, r)
    ensures var (si, r') := (Soonest(r.nextAt), Wake(w, s, r));
      && EntryFits(s.sched[si], r.agents)
      && (!Hardened(s.cfg) || Acts(w, Waking(r, r.nextAt[si], s.sched[si].agentIdx), s.cfg.hardening) ==>
            r.chain.records < r'.chain.records)
  {
    hide PerformAction, PerformActionHardened, Rescheduled, Acts, Hardened;
    var si := Soonest(r.nextAt);
    var e := s.sched[si];
    assert EntryFits(e, r.agents);
    assert r.agents[e.agentIdx].subaccounts != [];
    var x := Waking(r, r.nextAt[si], e.agentIdx);
    match e.subIdx
    case None => SingleClockAppends(w, x, s.externals, s.cfg.mode);
    case Some(k) =>
      if Acts(w, x, s.cfg.hardening) {
        HardenedAppends(w, x, k, s.externals, s.cfg.hardening);
      }
  }

  /** Without hardening a run records at least as much as it has events. */
  lemma {:induction false} FinishRecords(w: Stream, s: Setup, r: Run)
    requires Consistent(s, r) && EntriesMatch(s) && Ending(s) && !Hardened(s.cfg)
    ensures |Finish(w, s, r).chain.records| - |r.chain.records| >= Finish(w, s, r).events - r.events
    decreases Measure(s.end, r.nextAt)
  {
    if !Done(s, r) {
      WakeProgress(w, s, r);
      EventAppends(w, s, r);
      hide Wake, EntriesMatch, Consistent;
      FinishRecords(w, s, Wake(w, s, r));
    }
  }

  lemma RunRecords(w: Stream, personas: seq<Persona>, cfg: SimConfig)
    requires Runnable(personas) && Ending(FreshSetup(w, personas, cfg)) && !Hardened(cfg)
    ensures var f := Finish(w, FreshSetup(w, personas, cfg), FreshRun(w, personas, cfg)); |f.chain.records| >= f.events
  {
    hide BuildFleet, EntriesMatch, Finish;
    FreshEntriesMatch(w, personas, cfg);
    FinishRecords(w, FreshSetup(w, personas, cfg), FreshRun(w, personas, cfg));
  }

  // ---- every choice can be drawn ----

  /** Every action, every positive amount and gap, and every number of decoys up to 64 is drawn by some stream. */
  lemma EveryDraw(w: Stream, rng: Rng, kind: ActionKind, amount: nat, decoys: nat)
    requires amount >= 1 && decoys <= 64
    ensures exists v: Stream :: ChooseAction(v, rng) == kind
    ensures exists v: Stream :: SampleAmount(v, rng) == amount && Gap(v, rng) == amount
    ensures exists v: Stream :: NumDecoys(v, rng) == decoys
  {
    var code: nat := match kind case Transfer => 0 case Stake => 1 case Swap => 2 case Memo => 3 case Dust => 4 case Consolidate => 5;
    var v := w.(word := (p: nat) => code);
    assert v.word(rng) % 6 == code && ChooseAction(v, rng) == kind;
    v := w.(word := (p: nat) => amount - 1);
    assert SampleAmount(v, rng) == amount && Gap(v, rng) == amount;
    v := w.(word := (p: nat) => decoys);
    assert NumDecoys(v, rng) == decoys;
  }

  /** The two streams draw the same from position `rng` on. */
  ghost predicate AgreeFrom(v: Stream, w: Stream, rng: Rng) {
    forall p: nat, m: nat :: p >= rng ==> v.below(p, m) == w.below(p, m)
  }

  lemma AgreeNext(v: Stream, w: Stream, rng: Rng, m: nat)
    requires AgreeFrom(v, w, rng) && m > 0
    ensures AgreeFrom(v, w, rng + 1) && Index(v, rng, m) == Index(w, rng, m)
  {
  }

  /** The shuffle looks at no draw before its position. */
  lemma {:induction false} ShuffledSame(v: Stream, w: Stream, rng: Rng, idxs: seq<nat>, i: nat, k: nat)
    requires i <= k <= |idxs| && AgreeFrom(v, w, rng)
    ensures Shuffled(v, rng, idxs, i, k) == Shuffled(w, rng, idxs, i, k)
    decreases k - i
  {
    hide Swapped, AgreeFrom, Index;
    if i < k {
      AgreeNext(v, w, rng, |idxs| - i);
      ShuffledSame(v, w, rng + 1, Swapped(idxs, i, i + Index(w, rng, |idxs| - i)), i + 1, k);
    }
  }

  /** Some stream moves any distinct elements, in any order, to the places drawn next. */
  lemma {:induction false} ShuffleReaches(w: Stream, rng: Rng, idxs: seq<nat>, i: nat, t: seq<nat>) returns (v: Stream)
    requires i + |t| <= |idxs| && NoDup(idxs) && NoDup(t) && forall x :: x in t ==> x in idxs[i..]
    ensures Shuffled(v, rng, idxs, i, i + |t|)[..i + |t|] == idxs[..i] + t
    decreases |t|
  {
    hide Swapped, AgreeFrom, NoDup, Index, WithDraw;
    v := w;
    if t != [] {
      var j := Whereabouts(idxs, i, t);
      var next := Swapped(idxs, i, j);
      var u := ShuffleReaches(w, rng + 1, next, i + 1, t[1..]);
      v := WithDraw(u, rng, j - i);
      Redrawn(u, rng, j - i, |idxs| - i);
      ShuffledSame(v, u, rng + 1, next, i + 1, i + |t|);
      assert next[..i + 1] + t[1..] == idxs[..i] + t;
    }
  }

  function Redraw(u: Stream, rng: Rng, d: nat, p: nat, m: nat): nat {
    if p == rng then d else u.below(p, m)
  }

  /** The same stream but for what is drawn at `rng`. */
  function WithDraw(u: Stream, rng: Rng, d: nat): Stream {
    u.(below := (p: nat, m: nat) => Redraw(u, rng, d, p, m))
  }

  lemma Redrawn(u: Stream, rng: Rng, d: nat, m: nat)
    requires d < m
    ensures AgreeFrom(WithDraw(u, rng, d), u, rng + 1) && Index(WithDraw(u, rng, d), rng, m) == d
  {
  }

  /** Where the first of `t` is, and what swapping it forward leaves for the others. */
  lemma Whereabouts(idxs: seq<nat>, i: nat, t: seq<nat>) returns (j: nat)
    requires t != [] && i < |idxs| && NoDup(idxs) && NoDup(t) && forall x :: x in t ==> x in idxs[i..]
    ensures i <= j < |idxs| && idxs[j] == t[0]
    ensures var next := Swapped(idxs, i, j);
      && NoDup(next) && NoDup(t[1..]) && (forall x :: x in t[1..] ==> x in next[i + 1..])
      && next[..i + 1] == idxs[..i] + [t[0]]
  {
    assert t[0] in t;
    j :| i <= j < |idxs| && idxs[j] == t[0];
    var next := Swapped(idxs, i, j);
    NoDupMultiset(idxs);
    NoDupMultiset(next);
    forall x | x in t[1..] ensures x in next[i + 1..] {
      MovedOn(idxs, i, j, t, x);
    }
  }

  lemma MovedOn(idxs: seq<nat>, i: nat, j: nat, t: seq<nat>, x: nat)
    requires i <= j < |idxs| && t != [] && idxs[j] == t[0] && NoDup(t) && x in t[1..]
    requires forall y :: y in t ==> y in idxs[i..]
    ensures x in Swapped(idxs, i, j)[i + 1..]
  {
    var m :| 1 <= m < |t| && t[m] == x;
    assert t[m] in t && x != t[0];
    var q :| i <= q < |idxs| && idxs[q] == x;
    var next := Swapped(idxs, i, j);
    if q == i {
      assert next[j] == x && next[i + 1..][j - (i + 1)] == x;
    } else {
      assert next[q] == x && next[i + 1..][q - (i + 1)] == x;
    }
  }

  /** Every list of distinct operational sub-accounts is chosen by some stream. */
  lemma EveryChoice(w: Stream, rng: Rng, n: nat, t: seq<nat>)
    requires n >= 1 && |t| <= n - 1 && NoDup(t) && Operational(t, n)
    ensures exists v: Stream :: Chosen(v, rng, n, |t|) == t
  {
    var idxs := OperationalIndices(n);
    forall x | x in t ensures x in idxs[0..] {
      assert idxs[x - 1] == x;
    }
    var v := ShuffleReaches(w, rng, idxs, 0, t);
    assert Chosen(v, rng, n, |t|) == t;
  }
}
