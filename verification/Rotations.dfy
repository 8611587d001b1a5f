/** The shape of every ledger that a hardened run with account rotation writes. */
module Rotations {
  import opened Types
  import opened Streams
  import opened Engine
  import opened EventLoop
  import opened Emissions
  import opened RunInvariants

  /**
   * Record `i` moves an account into a successor that nobody has named before: value only enters
   * the successor here, and the successor only signs later.
   */
  ghost predicate Rotation(ext: seq<AccountId>, rs: Ledger, i: nat) {
    && i < |rs| && rs[i].amount > 0 && rs[i].dest !in ext && rs[i].dest != rs[i].source
    && (forall j :: 0 <= j < |rs| && j != i && rs[j].dest == rs[i].dest ==> rs[j].source == rs[j].dest)
    && (forall j :: 0 <= j < |rs| && rs[j].source == rs[i].dest ==> i < j)
  }

  /** Every record is outward or a rotation. */
  ghost predicate Shaped(ext: seq<AccountId>, rs: Ledger) {
    forall i :: 0 <= i < |rs| ==> Outward(ext, rs[i]) || Rotation(ext, rs, i)
  }

  lemma ShapedOutward(ext: seq<AccountId>, rs: Ledger, r: TxRecord)
    requires Shaped(ext, rs) && Outward(ext, r)
    ensures Shaped(ext, rs + [r])
  {
  }

  lemma ShapedRotation(ext: seq<AccountId>, rs: Ledger, r: TxRecord)
    requires Shaped(ext, rs) && r.amount > 0 && r.dest !in ext && r.dest != r.source
    requires forall j :: 0 <= j < |rs| ==> rs[j].dest != r.dest && rs[j].source != r.dest
    ensures Shaped(ext, rs + [r])
  {
  }

  /** One emission of a rotating run keeps the shape. */
  lemma ShapedEmits(w: Stream, ext: seq<AccountId>, agents: seq<Agent>, k: nat, x: Ctx, y: Ctx)
    requires DistinctIds(w, y.rng) && Emits(w, RotateShape, ext, x, y) && k < |agents| && x.agent == agents[k]
    requires CookerRun(w, ext, agents, x.chain.records, x.rng) && Shaped(ext, x.chain.records)
    ensures Shaped(ext, y.chain.records)
  {
    var rs, r := x.chain.records, Last(y.chain);
    assert y.chain.records == rs + [r];
    if y.agent == x.agent && Outward(ext, r) {
      ShapedOutward(ext, rs, r);
    } else {
      var j: nat :| Succeeds(x, y, r, j);
      EmitsIsEmission(w, RotateShape, ext, agents, k, x, y);
      assert FreshBoth(w, x, y, r);
      FreshIsNew(w, x, y, r);
      NewcomerUnseen(w, ext, agents, agents[k := y.agent], rs, k, x.rng, y.rng, r);
      assert Held(agents, k, j);
      hide Emits, Emission, Known, Apart, FreshBoth, Succeeds;
      ShapedRotation(ext, rs, r);
    }
  }

  lemma FreshIsNew(w: Stream, x: Ctx, y: Ctx, r: TxRecord)
    requires DistinctIds(w, y.rng) && FreshBoth(w, x, y, r)
    ensures FreshDest(w, x.rng, y.rng, r)
  {
  }

  lemma {:induction false} ShapedReaches(w: Stream, ext: seq<AccountId>, agents: seq<Agent>, k: nat, x: Ctx, y: Ctx,
      n: nat)
    requires DistinctIds(w, y.rng) && Reaches(w, RotateShape, ext, x, y, n) && k < |agents| && x.agent == agents[k]
    requires CookerRun(w, ext, agents, x.chain.records, x.rng) && Shaped(ext, x.chain.records)
    ensures Shaped(ext, y.chain.records)
    decreases n
  {
    hide CookerRun, Emits, Shaped, DistinctIds;
    if n > 0 {
      var m :| Emits(w, RotateShape, ext, x, m) && Reaches(w, RotateShape, ext, m, y, n - 1);
      ReachesAdvances(w, RotateShape, ext, m, y, n - 1);
      DistinctBefore(w, m.rng, y.rng);
      ShapedEmits(w, ext, agents, k, x, m);
      CookerEmits(w, RotateShape, ext, agents, k, x, m);
      ShapedReaches(w, ext, agents[k := m.agent], k, m, y, n - 1);
    }
  }

  predicate RotatingRun(cfg: SimConfig) {
    Hardened(cfg) && cfg.hardening.rebalance == RotateAccounts
  }

  lemma ActedShaped(w: Stream, s: Setup, r: Run, si: nat)
    requires Consistent(s, r) && EntriesMatch(s) && si < |s.sched| && s.sched[si].agentIdx < |r.agents|
    requires RotatingRun(s.cfg) && DistinctIds(w, Acted(w, s, r, si).rng + 1)
    requires CookerRun(w, s.externals, r.agents, r.chain.records, r.rng) && Shaped(s.externals, r.chain.records)
    ensures Shaped(s.externals, Acted(w, s, r, si).chain.records)
  {
    hide CookerRun, Emits, Reaches, DistinctIds, Shaped, Acted;
    var a := s.sched[si].agentIdx;
    ActedGrows(w, s, r, si);
    var x, y := Waking(r, r.nextAt[si], a), Acted(w, s, r, si);
    var n: nat :| Reaches(w, RotateShape, s.externals, x, y, n);
    DistinctBefore(w, y.rng, y.rng + 1);
    ShapedReaches(w, s.externals, r.agents, a, x, y, n);
  }

  lemma WakeShaped(w: Stream, s: Setup, r: Run)
    requires Consistent(s, r) && EntriesMatch(s) && !Done(s, r) && RotatingRun(s.cfg) && DistinctIds(w, Wake(w, s, r).rng)
    requires CookerRun(w, s.externals, r.agents, r.chain.records, r.rng) && Shaped(s.externals, r.chain.records)
    ensures Shaped(s.externals, Wake(w, s, r).chain.records)
  {
    hide CookerRun, Shaped, DistinctIds, Wake, Acted, Consistent, EntriesMatch;
    WakeIs(w, s, r);
    ActedShaped(w, s, r, Soonest(r.nextAt));
  }

  lemma {:induction false} FinishShaped(w: Stream, s: Setup, r: Run)
    requires Consistent(s, r) && EntriesMatch(s) && Ending(s) && RotatingRun(s.cfg) && DistinctIds(w, Finish(w, s, r).rng)
    requires CookerRun(w, s.externals, r.agents, r.chain.records, r.rng) && Shaped(s.externals, r.chain.records)
    ensures Shaped(s.externals, Finish(w, s, r).chain.records)
    decreases Measure(s.end, r.nextAt)
  {
    hide CookerRun, Shaped, DistinctIds, Wake;
    if !Done(s, r) {
      WakeProgress(w, s, r);
      FinishAdvances(w, s, Wake(w, s, r));
      DistinctBefore(w, Wake(w, s, r).rng, Finish(w, s, r).rng);
      WakeShaped(w, s, r);
      WakeCooker(w, s, r);
      FinishShaped(w, s, Wake(w, s, r));
    }
  }

  // ---- what remains of a run when only its ledger is seen ----

  ghost predicate Increasing(rs: Ledger) {
    forall i, j :: 0 <= i < j < |rs| ==> rs[i].ts < rs[j].ts
  }

  /** Fee-payers are paid with once and appear nowhere else. */
  ghost predicate PayersOnce(rs: Ledger) {
    && (forall i, j :: 0 <= i < j < |rs| ==> rs[i].feePayer != rs[j].feePayer)
    && (forall i, j :: 0 <= i < |rs| && 0 <= j < |rs| ==> rs[i].feePayer != rs[j].source && rs[i].feePayer != rs[j].dest)
  }

  /** The ledger of a hardened, rotating, unfunded run. */
  ghost predicate RotatingLedger(ext: seq<AccountId>, n: nat, rs: Ledger) {
    Increasing(rs) && PayersOnce(rs) && OneSigner(ext, n, rs) && Shaped(ext, rs)
  }

  lemma RotatingRunLedger(w: Stream, personas: seq<Persona>, cfg: SimConfig)
    requires Runnable(personas) && Ending(FreshSetup(w, personas, cfg)) && RotatingRun(cfg)
    requires DistinctIds(w, Finish(w, FreshSetup(w, personas, cfg), FreshRun(w, personas, cfg)).rng)
    ensures var s := FreshSetup(w, personas, cfg);
      var f := Finish(w, s, FreshRun(w, personas, cfg));
      RotatingLedger(s.externals, |f.agents|, f.chain.records)
  {
    var s, r := FreshSetup(w, personas, cfg), FreshRun(w, personas, cfg);
    hide CookerRun, Shaped, Finish, FreshSetup, FreshRun, EntriesMatch, Ticking, DistinctIds;
    FreshShape(w, personas, cfg);
    FreshEntriesMatch(w, personas, cfg);
    FreshStart(w, personas, cfg);
    FinishAdvances(w, s, r);
    DistinctBefore(w, r.rng, Finish(w, s, r).rng);
    FreshCooker(w, personas, cfg);
    FinishTicking(w, s, r);
    FinishCooker(w, s, r);
    FinishShaped(w, s, r);
    LedgerParts(w, s.externals, Finish(w, s, r));
  }

  lemma FreshShape(w: Stream, personas: seq<Persona>, cfg: SimConfig)
    requires Runnable(personas)
    ensures var s := FreshSetup(w, personas, cfg);
      s.cfg == cfg && s.end == cfg.startTs + cfg.durationSecs && Shaped(s.externals, FreshRun(w, personas, cfg).chain.records)
  {
  }

  lemma LedgerParts(w: Stream, ext: seq<AccountId>, f: Run)
    requires Ticking(f.chain) && CookerRun(w, ext, f.agents, f.chain.records, f.rng) && Shaped(ext, f.chain.records)
    ensures RotatingLedger(ext, |f.agents|, f.chain.records)
  {
  }
}
