/**
 * Every wake is a chain of single-record emissions. Stating the allowed shape of one emission per
 * mode lets each ledger invariant be proved once, for one emission, instead of once per loop.
 */
module Emissions {
  import opened Types
  import opened Streams
  import opened Splitting
  import opened Engine
  import opened EventLoop

  datatype Shape = NaiveShape | LegacyShape | RotateShape | HubShape

  function ShapeOf(cfg: SimConfig): Shape {
    if cfg.mode == Naive then NaiveShape
    else if !cfg.hardenTiming then LegacyShape
    else if cfg.hardening.rebalance == RotateAccounts then RotateShape
    else HubShape
  }

  function Last(c: Chain): TxRecord
    requires c.records != []
  {
    c.records[|c.records| - 1]
  }

  /** `y` has exactly one record more than `x`, stamped by the chain and labelled with the agent. */
  ghost predicate Appends(x: Ctx, y: Ctx) {
    && |y.chain.records| == |x.chain.records| + 1
    && y.chain.records[..|x.chain.records|] == x.chain.records
    && y.chain.slot == x.chain.slot + 1 && y.chain.sig == x.chain.sig + 1
    && Last(y.chain).sig == y.chain.sig && Last(y.chain).slot == y.chain.slot
    && Last(y.chain).ts == y.chain.clock && x.chain.clock <= y.chain.clock
    && Last(y.chain).operator == Some(x.agent.id)
    && Last(y.chain).source in x.agent.subaccounts
    && x.rng <= y.rng
  }

  /** The fee-payer was drawn fresh during the emission. */
  ghost predicate Throwaway(w: Stream, x: Ctx, y: Ctx, r: TxRecord) {
    exists p: nat :: x.rng <= p < y.rng && r.feePayer == w.id(p)
  }

  /** Fee-payer and destination are two different fresh draws. */
  ghost predicate FreshBoth(w: Stream, x: Ctx, y: Ctx, r: TxRecord) {
    exists p: nat, q: nat :: x.rng <= p < y.rng && x.rng <= q < y.rng && p != q && r.feePayer == w.id(p) && r.dest == w.id(q)
  }

  /** An outward payment, or a zero-value memo to oneself. */
  predicate Outward(ext: seq<AccountId>, r: TxRecord) {
    r.dest in ext || (r.dest == r.source && r.amount == 0)
  }

  /** Sub-account `j` moves into the fresh destination, which takes its place. */
  ghost predicate Succeeds(x: Ctx, y: Ctx, r: TxRecord, j: nat) {
    && 0 < j < |x.agent.subaccounts| && x.agent.subaccounts[j] == r.source && r.amount > 0
    && y.agent == x.agent.(subaccounts := x.agent.subaccounts[j := r.dest])
  }

  /** What one emission may look like in each mode. */
  ghost predicate Emits(w: Stream, sh: Shape, ext: seq<AccountId>, x: Ctx, y: Ctx) {
    && Appends(x, y)
    && var r := Last(y.chain);
    match sh
    case NaiveShape => y.agent == x.agent && r.feePayer == x.agent.main
    case LegacyShape =>
      && y.agent == x.agent
      && (FreshBoth(w, x, y, r) || (Throwaway(w, x, y, r) && (r.dest in ext || r.dest in x.agent.subaccounts)))
    case RotateShape =>
      && x.chain.clock < y.chain.clock
      && ((y.agent == x.agent && Throwaway(w, x, y, r) && Outward(ext, r))
          || (FreshBoth(w, x, y, r) && exists j :: Succeeds(x, y, r, j)))
    case HubShape =>
      && x.chain.clock < y.chain.clock && y.agent == x.agent
      && Throwaway(w, x, y, r) && (Outward(ext, r) || r.dest == x.agent.main)
  }

  /** Only draws separate the two contexts. */
  ghost predicate Quiet(x: Ctx, y: Ctx) {
    y == x.(rng := y.rng) && x.rng <= y.rng
  }

  ghost predicate Reaches(w: Stream, sh: Shape, ext: seq<AccountId>, x: Ctx, y: Ctx, n: nat)
    decreases n
  {
    if n == 0 then Quiet(x, y)
    else exists m :: Emits(w, sh, ext, x, m) && Reaches(w, sh, ext, m, y, n - 1)
  }

  /** `y` results from `x` by finitely many emissions. */
  ghost predicate Grows(w: Stream, sh: Shape, ext: seq<AccountId>, x: Ctx, y: Ctx) {
    exists n: nat :: Reaches(w, sh, ext, x, y, n)
  }

  lemma GrowsQuietly(w: Stream, sh: Shape, ext: seq<AccountId>, x: Ctx, y: Ctx)
    requires Quiet(x, y)
    ensures Grows(w, sh, ext, x, y)
  {
    assert Reaches(w, sh, ext, x, y, 0);
  }

  lemma EmitThenGrow(w: Stream, sh: Shape, ext: seq<AccountId>, x: Ctx, m: Ctx, y: Ctx)
    requires Emits(w, sh, ext, x, m) && Grows(w, sh, ext, m, y)
    ensures Grows(w, sh, ext, x, y)
  {
    var n: nat :| Reaches(w, sh, ext, m, y, n);
    assert Reaches(w, sh, ext, x, y, n + 1);
  }

  /** Draws made earlier widen the range that fresh identifiers may come from. */
  lemma QuietThenEmit(w: Stream, sh: Shape, ext: seq<AccountId>, x: Ctx, m: Ctx, y: Ctx)
    requires Quiet(x, m) && Emits(w, sh, ext, m, y)
    ensures Emits(w, sh, ext, x, y)
  {
    var r := Last(y.chain);
    assert FreshBoth(w, m, y, r) ==> FreshBoth(w, x, y, r);
    assert Throwaway(w, m, y, r) ==> Throwaway(w, x, y, r);
    forall j | Succeeds(m, y, r, j) ensures Succeeds(x, y, r, j) {}
  }

  lemma QuietThenGrow(w: Stream, sh: Shape, ext: seq<AccountId>, x: Ctx, m: Ctx, y: Ctx)
    requires Quiet(x, m) && Grows(w, sh, ext, m, y)
    ensures Grows(w, sh, ext, x, y)
  {
    var n: nat :| Reaches(w, sh, ext, m, y, n);
    if n == 0 {
      GrowsQuietly(w, sh, ext, x, y);
    } else {
      var u :| Emits(w, sh, ext, m, u) && Reaches(w, sh, ext, u, y, n - 1);
      QuietThenEmit(w, sh, ext, x, m, u);
      assert Grows(w, sh, ext, u, y);
      EmitThenGrow(w, sh, ext, x, u, y);
    }
  }

  lemma {:induction false} ReachesThenGrow(w: Stream, sh: Shape, ext: seq<AccountId>, x: Ctx, m: Ctx, y: Ctx, n: nat)
    requires Reaches(w, sh, ext, x, m, n) && Grows(w, sh, ext, m, y)
    ensures Grows(w, sh, ext, x, y)
    decreases n
  {
    if n == 0 {
      QuietThenGrow(w, sh, ext, x, m, y);
    } else {
      var u :| Emits(w, sh, ext, x, u) && Reaches(w, sh, ext, u, m, n - 1);
      ReachesThenGrow(w, sh, ext, u, m, y, n - 1);
      EmitThenGrow(w, sh, ext, x, u, y);
    }
  }

  lemma GrowsTrans(w: Stream, sh: Shape, ext: seq<AccountId>, x: Ctx, m: Ctx, y: Ctx)
    requires Grows(w, sh, ext, x, m) && Grows(w, sh, ext, m, y)
    ensures Grows(w, sh, ext, x, y)
  {
    var n: nat :| Reaches(w, sh, ext, x, m, n);
    ReachesThenGrow(w, sh, ext, x, m, y, n);
  }

  // ---- the single-clock path ----

  lemma {:induction false} EmitPartsGrow(w: Stream, x: Ctx, ext: seq<AccountId>, dest: AccountId, kind: ActionKind,
      parts: seq<nat>)
    requires x.agent.subaccounts != [] && (dest in ext || dest in x.agent.subaccounts)
    ensures Grows(w, LegacyShape, ext, x, EmitParts(w, x, dest, kind, parts))
    decreases |parts|
  {
    if parts == [] {
      GrowsQuietly(w, LegacyShape, ext, x, x);
    } else {
      var y := EmitPart(w, x, dest, kind, parts[0]);
      assert Throwaway(w, x, y, Last(y.chain));
      EmitPartsGrow(w, y, ext, dest, kind, parts[1..]);
      EmitThenGrow(w, LegacyShape, ext, x, y, EmitParts(w, x, dest, kind, parts));
    }
  }

  lemma EmitWithNoiseGrows(w: Stream, x: Ctx, ext: seq<AccountId>, p: PlannedTx, mode: Mode)
    requires x.agent.subaccounts != [] && p.source in x.agent.subaccounts
    requires p.dest in ext || p.dest in x.agent.subaccounts
    ensures Grows(w, SingleClockShape(mode), ext, x, EmitWithNoise(w, x, p, mode))
  {
    match mode
    case Naive =>
      var y := Commit(x, p, x.agent.main, x.rng);
      GrowsQuietly(w, NaiveShape, ext, y, y);
      EmitThenGrow(w, NaiveShape, ext, x, y, y);
    case Cooker =>
      var parts := Emitted(w, x.rng, p.amount, x.agent.persona.split);
      var m := x.(rng := SplitAmount(w, x.rng, p.amount, x.agent.persona.split).1);
      SplitAdvances(w, x.rng, p.amount, x.agent.persona.split);
      EmitPartsGrow(w, m, ext, p.dest, p.kind, parts);
      QuietThenGrow(w, LegacyShape, ext, x, m, EmitParts(w, m, p.dest, p.kind, parts));
  }

  lemma {:induction false} DecoysGrow(w: Stream, x: Ctx, ext: seq<AccountId>, n: nat)
    requires x.agent.subaccounts != [] && ext != []
    ensures Grows(w, LegacyShape, ext, x, Decoys(w, x, ext, n))
    decreases n
  {
    hide Grows, Emits, EmitWithNoise;
    if n == 0 {
      GrowsQuietly(w, LegacyShape, ext, x, x);
    } else {
      DecoyGrows(w, x, ext);
      var y := EmitWithNoise(w, x.(rng := x.rng + 3), DecoyTx(w, x, ext), Cooker);
      var z := Decoys(w, y, ext, n - 1);
      DecoysGrow(w, y, ext, n - 1);
      GrowsTrans(w, LegacyShape, ext, x, y, z);
      assert Decoys(w, x, ext, n) == z;
    }
  }

  lemma DecoyGrows(w: Stream, x: Ctx, ext: seq<AccountId>)
    requires x.agent.subaccounts != [] && ext != []
    ensures Grows(w, LegacyShape, ext, x, EmitWithNoise(w, x.(rng := x.rng + 3), DecoyTx(w, x, ext), Cooker))
  {
    var m := x.(rng := x.rng + 3);
    EmitWithNoiseGrows(w, m, ext, DecoyTx(w, x, ext), Cooker);
    QuietThenGrow(w, LegacyShape, ext, x, m, EmitWithNoise(w, m, DecoyTx(w, x, ext), Cooker));
  }

  lemma {:induction false} FunnelGrows(w: Stream, x: Ctx, ext: seq<AccountId>, subs: seq<AccountId>)
    requires forall i :: 0 <= i < |subs| ==> subs[i] in x.agent.subaccounts
    ensures Grows(w, NaiveShape, ext, x, Funnel(w, x, subs))
    decreases |subs|
  {
    if subs == [] {
      GrowsQuietly(w, NaiveShape, ext, x, x);
    } else if subs[0] == x.agent.main {
      FunnelGrows(w, x, ext, subs[1..]);
    } else {
      var tx := PlannedTx(subs[0], x.agent.main, Range(w, x.rng, 1_000, 100_000), Consolidate);
      var y := Commit(x, tx, x.agent.main, x.rng + 1);
      FunnelGrows(w, y, ext, subs[1..]);
      EmitThenGrow(w, NaiveShape, ext, x, y, Funnel(w, x, subs));
    }
  }

  lemma MaybeRebalanceGrows(w: Stream, x: Ctx, ext: seq<AccountId>, mode: Mode)
    requires x.agent.subaccounts != []
    ensures Grows(w, SingleClockShape(mode), ext, x, MaybeRebalance(w, x, mode))
  {
    var m := x.(rng := x.rng + 1);
    match mode
    case Naive =>
      if Chance(w, x.rng, 0.12) {
        FunnelGrows(w, m, ext, x.agent.subaccounts);
        QuietThenGrow(w, NaiveShape, ext, x, m, MaybeRebalance(w, x, mode));
      } else {
        GrowsQuietly(w, NaiveShape, ext, x, m);
      }
    case Cooker =>
      if Chance(w, x.rng, 0.08) {
        ChurnGrows(w, x, ext);
      } else {
        GrowsQuietly(w, LegacyShape, ext, x, m);
      }
  }

  lemma ChurnGrows(w: Stream, x: Ctx, ext: seq<AccountId>)
    requires x.agent.subaccounts != [] && Chance(w, x.rng, 0.08)
    ensures Grows(w, LegacyShape, ext, x, MaybeRebalance(w, x, Cooker))
  {
    var y := MaybeRebalance(w, x, Cooker);
    FreshPair(w, x, y, x.rng + 4, x.rng + 2);
    GrowsQuietly(w, LegacyShape, ext, y, y);
    EmitThenGrow(w, LegacyShape, ext, x, y, y);
  }

  lemma FreshPair(w: Stream, x: Ctx, y: Ctx, p: nat, q: nat)
    requires y.chain.records != [] && x.rng <= p < y.rng && x.rng <= q < y.rng && p != q
    requires Last(y.chain).feePayer == w.id(p) && Last(y.chain).dest == w.id(q)
    ensures FreshBoth(w, x, y, Last(y.chain))
  {
  }

  function SingleClockShape(mode: Mode): Shape {
    if mode == Naive then NaiveShape else LegacyShape
  }

  lemma WithDecoysGrows(w: Stream, y: Ctx, ext: seq<AccountId>, mode: Mode)
    requires y.agent.subaccounts != [] && ext != []
    ensures Grows(w, SingleClockShape(mode), ext, y, WithDecoys(w, y, ext, mode))
  {
    var z := WithDecoys(w, y, ext, mode);
    if mode == Cooker {
      DecoysGrow(w, y.(rng := y.rng + 1), ext, NumDecoys(w, y.rng));
      QuietThenGrow(w, LegacyShape, ext, y, y.(rng := y.rng + 1), z);
    } else {
      GrowsQuietly(w, NaiveShape, ext, y, y);
    }
  }

  lemma PerformActionGrows(w: Stream, x: Ctx, ext: seq<AccountId>, mode: Mode)
    requires x.agent.subaccounts != [] && ext != []
    ensures Grows(w, SingleClockShape(mode), ext, x, PerformAction(w, x, ext, mode))
  {
    var sh := SingleClockShape(mode);
    var p := DrawnAction(w, x, ext);
    var x1 := x.(rng := x.rng + 4);
    var y := EmitWithNoise(w, x1, p, mode);
    EmitWithNoiseGrows(w, x1, ext, p, mode);
    QuietThenGrow(w, sh, ext, x, x1, y);
    var z := WithDecoys(w, y, ext, mode);
    WithDecoysGrows(w, y, ext, mode);
    GrowsTrans(w, sh, ext, x, y, z);
    MaybeRebalanceGrows(w, z, ext, mode);
    GrowsTrans(w, sh, ext, x, z, PerformAction(w, x, ext, mode));
  }

  // ---- the hardened path ----

  predicate HardenedShape(sh: Shape) {
    sh == RotateShape || sh == HubShape
  }

  lemma {:induction false} HardenedPartsGrow(w: Stream, sh: Shape, x: Ctx, ext: seq<AccountId>, source: AccountId,
      dest: AccountId, kind: ActionKind, parts: seq<nat>)
    requires HardenedShape(sh) && source in x.agent.subaccounts
    requires dest in ext || (dest == source && forall i :: 0 <= i < |parts| ==> parts[i] == 0)
    ensures Grows(w, sh, ext, x, HardenedParts(w, x, source, dest, kind, parts))
    decreases |parts|
  {
    if parts == [] {
      GrowsQuietly(w, sh, ext, x, x);
    } else {
      var y := HardenedPart(w, x, source, dest, kind, parts[0]);
      assert Throwaway(w, x, y, Last(y.chain));
      HardenedPartsGrow(w, sh, y, ext, source, dest, kind, parts[1..]);
      EmitThenGrow(w, sh, ext, x, y, HardenedParts(w, x, source, dest, kind, parts));
    }
  }

  lemma {:induction false} HardenedDecoysGrow(w: Stream, sh: Shape, x: Ctx, ext: seq<AccountId>, source: AccountId,
      n: nat)
    requires HardenedShape(sh) && source in x.agent.subaccounts && ext != []
    ensures Grows(w, sh, ext, x, HardenedDecoys(w, x, source, ext, n))
    decreases n
  {
    if n == 0 {
      GrowsQuietly(w, sh, ext, x, x);
    } else {
      var y := HardenedDecoy(w, x, source, ext);
      assert Throwaway(w, x, y, Last(y.chain));
      HardenedDecoysGrow(w, sh, y, ext, source, n - 1);
      EmitThenGrow(w, sh, ext, x, y, HardenedDecoys(w, x, source, ext, n));
    }
  }

  lemma {:induction false} SuccessionsGrow(w: Stream, x: Ctx, ext: seq<AccountId>, idxs: seq<nat>)
    requires Operational(idxs, |x.agent.subaccounts|)
    ensures Grows(w, RotateShape, ext, x, Successions(w, x, idxs))
    decreases |idxs|
  {
    if idxs == [] {
      GrowsQuietly(w, RotateShape, ext, x, x);
    } else {
      var z := Succession(w, x, idxs[0]);
      FreshPair(w, x, z, x.rng + 3, x.rng);
      assert Succeeds(x, z, Last(z.chain), idxs[0]);
      SuccessionsGrow(w, z, ext, idxs[1..]);
      EmitThenGrow(w, RotateShape, ext, x, z, Successions(w, x, idxs));
    }
  }

  lemma {:induction false} CollectionsGrow(w: Stream, x: Ctx, ext: seq<AccountId>, idxs: seq<nat>)
    requires Operational(idxs, |x.agent.subaccounts|)
    ensures Grows(w, HubShape, ext, x, Collections(w, x, idxs))
    decreases |idxs|
  {
    if idxs == [] {
      GrowsQuietly(w, HubShape, ext, x, x);
    } else {
      var y := Collection(w, x, idxs[0]);
      assert Throwaway(w, x, y, Last(y.chain));
      CollectionsGrow(w, y, ext, idxs[1..]);
      EmitThenGrow(w, HubShape, ext, x, y, Collections(w, x, idxs));
    }
  }

  lemma RotateGrows(w: Stream, x: Ctx, ext: seq<AccountId>, h: Hardening)
    ensures Grows(w, RotateShape, ext, x, RotateSome(w, x, h))
  {
    var n := |x.agent.subaccounts|;
    if n < 2 {
      GrowsQuietly(w, RotateShape, ext, x, x);
    } else {
      var (idxs, rng) := RotationDraw(w, x.rng, n, h);
      SuccessionsGrow(w, x.(rng := rng), ext, idxs);
      QuietThenGrow(w, RotateShape, ext, x, x.(rng := rng), RotateSome(w, x, h));
    }
  }

  lemma SweepGrows(w: Stream, x: Ctx, ext: seq<AccountId>, h: Hardening)
    ensures Grows(w, HubShape, ext, x, ConsolidateSweep(w, x, h))
  {
    var n := |x.agent.subaccounts|;
    if n < 2 || SweepPanics(x.agent, h) {
      GrowsQuietly(w, HubShape, ext, x, x);
    } else {
      var (idxs, rng) := SweepDraw(w, x.rng, n, h);
      CollectionsGrow(w, x.(rng := rng), ext, idxs);
      QuietThenGrow(w, HubShape, ext, x, x.(rng := rng), ConsolidateSweep(w, x, h));
    }
  }

  lemma PerformActionHardenedGrows(w: Stream, x: Ctx, sub: nat, ext: seq<AccountId>, h: Hardening)
    requires sub < |x.agent.subaccounts| && ext != []
    ensures Grows(w, if h.rebalance == RotateAccounts then RotateShape else HubShape, ext, x, PerformActionHardened(w, x, sub, ext, h))
  {
    hide Grows, Emits, RotateSome, ConsolidateSweep, OutwardWake;
    var sh := if h.rebalance == RotateAccounts then RotateShape else HubShape;
    var x1 := x.(rng := x.rng + 1);
    if Chance(w, x.rng, h.consolidationProb.Value()) {
      if h.rebalance == RotateAccounts {
        RotateGrows(w, x1, ext, h);
      } else {
        SweepGrows(w, x1, ext, h);
      }
    } else {
      OutwardWakeGrows(w, sh, x1, x.agent.subaccounts[sub], ext);
    }
    QuietThenGrow(w, sh, ext, x, x1, PerformActionHardened(w, x, sub, ext, h));
  }

  lemma OutwardWakeGrows(w: Stream, sh: Shape, x: Ctx, source: AccountId, ext: seq<AccountId>)
    requires HardenedShape(sh) && source in x.agent.subaccounts && ext != []
    ensures Grows(w, sh, ext, x, OutwardWake(w, x, source, ext))
  {
    hide Grows, Emits, ActOutward, HardenedDecoys;
    var y := ActOutward(w, x, source, ext);
    ActOutwardGrows(w, sh, x, source, ext);
    var y1 := y.(rng := y.rng + 1);
    var z := HardenedDecoys(w, y1, source, ext, NumDecoys(w, y.rng));
    HardenedDecoysGrow(w, sh, y1, ext, source, NumDecoys(w, y.rng));
    QuietThenGrow(w, sh, ext, y, y1, z);
    GrowsTrans(w, sh, ext, x, y, z);
  }

  lemma ActOutwardGrows(w: Stream, sh: Shape, x: Ctx, source: AccountId, ext: seq<AccountId>)
    requires HardenedShape(sh) && source in x.agent.subaccounts && ext != []
    ensures Grows(w, sh, ext, x, ActOutward(w, x, source, ext))
  {
    hide Grows, Emits, SplitAmount, Emitted, HardenedParts, ActingTx;
    var p := ActingTx(w, x, source, ext);
    var parts := Emitted(w, x.rng + 3, p.amount, x.agent.persona.split);
    var rng := SplitAmount(w, x.rng + 3, p.amount, x.agent.persona.split).1;
    OutwardParts(w, x, p.amount);
    HardenedPartsGrow(w, sh, x.(rng := rng), ext, source, p.dest, p.kind, parts);
    QuietThenGrow(w, sh, ext, x, x.(rng := rng), ActOutward(w, x, source, ext));
  }

  lemma OutwardParts(w: Stream, x: Ctx, amount: nat)
    ensures SplitAmount(w, x.rng + 3, amount, x.agent.persona.split).1 >= x.rng
    ensures amount == 0 ==> Emitted(w, x.rng + 3, amount, x.agent.persona.split) == [0]
  {
    SplitAdvances(w, x.rng + 3, amount, x.agent.persona.split);
    EmissionConserves(w, x.rng + 3, amount, x.agent.persona.split);
  }

  /** Entries name a sub-account exactly when the run is hardened. */
  ghost predicate EntriesMatch(s: Setup) {
    forall i :: 0 <= i < |s.sched| ==> (s.sched[i].subIdx.Some? <==> Hardened(s.cfg))
  }

  /** Every wake is a chain of emissions of the run's shape. */
  lemma ActedGrows(w: Stream, s: Setup, r: Run, si: nat)
    requires Consistent(s, r) && EntriesMatch(s) && si < |s.sched|
    requires s.sched[si].agentIdx < |r.agents|
    ensures Grows(w, ShapeOf(s.cfg), s.externals, Waking(r, r.nextAt[si], s.sched[si].agentIdx), Acted(w, s, r, si))
  {
    var e := s.sched[si];
    assert EntryFits(e, r.agents);
    var x := Waking(r, r.nextAt[si], e.agentIdx);
    match e.subIdx
    case None => PerformActionGrows(w, x, s.externals, s.cfg.mode);
    case Some(k) => PerformActionHardenedGrows(w, x, k, s.externals, s.cfg.hardening);
  }
}
