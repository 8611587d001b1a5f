/** What one wake of one agent does to the chain, as functions of the draw stream. */
module Engine {
  import opened Types
  import opened Streams
  import opened Splitting

  datatype Mode = Naive | Cooker

  datatype RebalanceStrategy = RotateAccounts | DirectHub

  datatype Hardening = Hardening(
    intraGapMeanSecs: Fraction,
    consolidationProb: Fraction,
    sweepMinSources: nat,
    sweepMaxSources: nat,
    holdAggregateRate: bool,
    rebalance: RebalanceStrategy)

  /** `profile` stands for the circadian curve, amount distribution and action weights. */
  datatype Persona = Persona(profile: nat, numSubaccounts: nat, split: SplitPolicy, dustLamportsMax: nat)

  datatype Agent = Agent(
    id: AgentId,
    persona: Persona,
    subaccounts: seq<AccountId>,
    phases: seq<int>,
    main: AccountId)

  /** The in-memory ledger sink with its running clock and counters. */
  datatype Chain = Chain(records: Ledger, clock: int, slot: nat, sig: nat)

  /** What a wake works on: the chain, the acting agent and the generator position. */
  datatype Ctx = Ctx(chain: Chain, agent: Agent, rng: Rng)

  datatype PlannedTx = PlannedTx(source: AccountId, dest: AccountId, amount: nat, kind: ActionKind)

  // ---- draws ----

  function Gap(w: Stream, rng: Rng): (g: int)
    ensures g >= 1
  {
    1 + w.word(rng)
  }

  function SampleAmount(w: Stream, rng: Rng): (a: nat)
    ensures a >= 1
  {
    1 + w.word(rng)
  }

  function DustAmount(w: Stream, rng: Rng, persona: Persona): (a: nat)
    ensures a >= 1
  {
    Range(w, rng, 1, Max(persona.dustLamportsMax, 1))
  }

  /** The sampler gives up after 65 rounds. */
  function NumDecoys(w: Stream, rng: Rng): (n: nat)
    ensures n <= 64
  {
    w.word(rng) % 65
  }

  function ChooseAction(w: Stream, rng: Rng): ActionKind {
    var k := w.word(rng) % 6;
    if k == 0 then Transfer else if k == 1 then Stake else if k == 2 then Swap
    else if k == 3 then Memo else if k == 4 then Dust else Consolidate
  }

  /** The adapters: a zero-value self memo, or one move of value to the counterparty. */
  function Plan(kind: ActionKind, source: AccountId, counterparty: AccountId, amount: nat): PlannedTx {
    match kind
    case Memo => PlannedTx(source, source, 0, Memo)
    case Stake => PlannedTx(source, counterparty, amount, Stake)
    case Swap => PlannedTx(source, counterparty, amount, Swap)
    case _ => PlannedTx(source, counterparty, amount, Transfer)
  }

  // ---- recording ----

  function Record(c: Chain, tx: PlannedTx, feePayer: AccountId, operator: AgentId): Chain {
    var r := TxRecord(c.sig + 1, c.slot + 1, c.clock, feePayer, tx.source, tx.dest, tx.amount, tx.kind, Some(operator));
    Chain(c.records + [r], c.clock, c.slot + 1, c.sig + 1)
  }

  function Commit(x: Ctx, tx: PlannedTx, feePayer: AccountId, rng: Rng): Ctx {
    x.(chain := Record(x.chain, tx, feePayer, x.agent.id), rng := rng)
  }

  /** The same after the clock has moved on by `gap`. */
  function CommitAfter(x: Ctx, gap: int, tx: PlannedTx, feePayer: AccountId, rng: Rng): Ctx {
    Commit(x.(chain := x.chain.(clock := x.chain.clock + gap)), tx, feePayer, rng)
  }

  // ---- the single-clock path ----

  /** One part, from a drawn source and paid by a fresh fee-payer. */
  function EmitPart(w: Stream, x: Ctx, dest: AccountId, kind: ActionKind, part: nat): (y: Ctx)
    requires x.agent.subaccounts != []
    ensures y.agent == x.agent
  {
    var source := x.agent.subaccounts[Index(w, x.rng + 1, |x.agent.subaccounts|)];
    Commit(x, PlannedTx(source, dest, part, kind), w.id(x.rng), x.rng + 2)
  }

  function EmitParts(w: Stream, x: Ctx, dest: AccountId, kind: ActionKind, parts: seq<nat>): (y: Ctx)
    requires x.agent.subaccounts != []
    ensures y.agent == x.agent
    decreases |parts|
  {
    if parts == [] then x else EmitParts(w, EmitPart(w, x, dest, kind, parts[0]), dest, kind, parts[1..])
  }

  /** Naive: one record paid by the main account. Cooker: split, rotate sources and fee-payers. */
  function EmitWithNoise(w: Stream, x: Ctx, p: PlannedTx, mode: Mode): (y: Ctx)
    requires x.agent.subaccounts != []
    ensures y.agent == x.agent
  {
    match mode
    case Naive => Commit(x, p, x.agent.main, x.rng)
    case Cooker =>
      var parts := Emitted(w, x.rng, p.amount, x.agent.persona.split);
      EmitParts(w, x.(rng := SplitAmount(w, x.rng, p.amount, x.agent.persona.split).1), p.dest, p.kind, parts)
  }

  /** A dust payment from a drawn sub-account to a drawn external. */
  function DecoyTx(w: Stream, x: Ctx, externals: seq<AccountId>): (p: PlannedTx)
    requires x.agent.subaccounts != [] && externals != []
    ensures p.source in x.agent.subaccounts && p.dest in externals
  {
    var s := x.agent.subaccounts[Index(w, x.rng, |x.agent.subaccounts|)];
    var d := externals[Index(w, x.rng + 1, |externals|)];
    PlannedTx(s, d, DustAmount(w, x.rng + 2, x.agent.persona), Dust)
  }

  function Decoys(w: Stream, x: Ctx, externals: seq<AccountId>, n: nat): (y: Ctx)
    requires x.agent.subaccounts != [] && externals != []
    ensures y.agent == x.agent
    decreases n
  {
    if n == 0 then x
    else
      var y := EmitWithNoise(w, x.(rng := x.rng + 3), DecoyTx(w, x, externals), Cooker);
      Decoys(w, y, externals, n - 1)
  }

  /** Naive consolidation: every other sub-account pays into the main account. */
  function Funnel(w: Stream, x: Ctx, subs: seq<AccountId>): (y: Ctx)
    ensures y.agent == x.agent
    decreases |subs|
  {
    if subs == [] then x
    else if subs[0] == x.agent.main then Funnel(w, x, subs[1..])
    else
      var tx := PlannedTx(subs[0], x.agent.main, Range(w, x.rng, 1_000, 100_000), Consolidate);
      Funnel(w, Commit(x, tx, x.agent.main, x.rng + 1), subs[1..])
  }

  function MaybeRebalance(w: Stream, x: Ctx, mode: Mode): (y: Ctx)
    requires x.agent.subaccounts != []
    ensures y.agent == x.agent
  {
    match mode
    case Naive =>
      if Chance(w, x.rng, 0.12) then Funnel(w, x.(rng := x.rng + 1), x.agent.subaccounts) else x.(rng := x.rng + 1)
    case Cooker =>
      if Chance(w, x.rng, 0.08) then
        var s := x.agent.subaccounts[Index(w, x.rng + 1, |x.agent.subaccounts|)];
        var tx := PlannedTx(s, w.id(x.rng + 2), Range(w, x.rng + 3, 1_000, 200_000), Transfer);
        Commit(x, tx, w.id(x.rng + 4), x.rng + 5)
      else x.(rng := x.rng + 1)
  }

  /** The drawn action, from a drawn sub-account. */
  function DrawnAction(w: Stream, x: Ctx, externals: seq<AccountId>): (p: PlannedTx)
    requires x.agent.subaccounts != [] && externals != []
    ensures p.source in x.agent.subaccounts && (p.dest in externals || p.dest == p.source)
  {
    var source := x.agent.subaccounts[Index(w, x.rng + 1, |x.agent.subaccounts|)];
    var counterparty := externals[Index(w, x.rng + 2, |externals|)];
    Plan(ChooseAction(w, x.rng), source, counterparty, SampleAmount(w, x.rng + 3))
  }

  /** Decoys are interleaved by the cooker only. */
  function WithDecoys(w: Stream, y: Ctx, externals: seq<AccountId>, mode: Mode): (z: Ctx)
    requires y.agent.subaccounts != [] && externals != []
    ensures z.agent == y.agent
  {
    if mode == Cooker then Decoys(w, y.(rng := y.rng + 1), externals, NumDecoys(w, y.rng)) else y
  }

  /** A wake of the single-clock path: the planned action, decoys, maybe a rebalance. */
  function PerformAction(w: Stream, x: Ctx, externals: seq<AccountId>, mode: Mode): (y: Ctx)
    requires x.agent.subaccounts != [] && externals != []
    ensures y.agent == x.agent
  {
    var y := EmitWithNoise(w, x.(rng := x.rng + 4), DrawnAction(w, x, externals), mode);
    MaybeRebalance(w, WithDecoys(w, y, externals, mode), mode)
  }

  // ---- the hardened path ----

  /** One part at its own later time, paid by a fresh fee-payer. */
  function HardenedPart(w: Stream, x: Ctx, source: AccountId, dest: AccountId, kind: ActionKind, part: nat): (y: Ctx)
    ensures y.agent == x.agent
  {
    CommitAfter(x, Gap(w, x.rng), PlannedTx(source, dest, part, kind), w.id(x.rng + 1), x.rng + 2)
  }

  function HardenedParts(w: Stream, x: Ctx, source: AccountId, dest: AccountId, kind: ActionKind,
      parts: seq<nat>): (y: Ctx)
    ensures y.agent == x.agent
    decreases |parts|
  {
    if parts == [] then x
    else HardenedParts(w, HardenedPart(w, x, source, dest, kind, parts[0]), source, dest, kind, parts[1..])
  }

  function HardenedDecoy(w: Stream, x: Ctx, source: AccountId, externals: seq<AccountId>): (y: Ctx)
    requires externals != []
    ensures y.agent == x.agent
  {
    var d := externals[Index(w, x.rng + 1, |externals|)];
    var tx := PlannedTx(source, d, DustAmount(w, x.rng + 2, x.agent.persona), Dust);
    CommitAfter(x, Gap(w, x.rng), tx, w.id(x.rng + 3), x.rng + 4)
  }

  function HardenedDecoys(w: Stream, x: Ctx, source: AccountId, externals: seq<AccountId>, n: nat): (y: Ctx)
    requires externals != []
    ensures y.agent == x.agent
    decreases n
  {
    if n == 0 then x else HardenedDecoys(w, HardenedDecoy(w, x, source, externals), source, externals, n - 1)
  }

  function Swapped(s: seq<nat>, i: nat, j: nat): (t: seq<nat>)
    requires i < |s| && j < |s|
    ensures multiset(t) == multiset(s) && |t| == |s|
  {
    s[i := s[j]][j := s[i]]
  }

  /** Partial Fisher-Yates: the first `k` places are drawn from what is left. */
  function Shuffled(w: Stream, rng: Rng, idxs: seq<nat>, i: nat, k: nat): (t: seq<nat>)
    requires i <= k <= |idxs|
    ensures multiset(t) == multiset(idxs) && |t| == |idxs|
    decreases k - i
  {
    if i == k then idxs
    else Shuffled(w, rng + 1, Swapped(idxs, i, i + Index(w, rng, |idxs| - i)), i + 1, k)
  }

  function OperationalIndices(n: nat): (s: seq<nat>)
    requires n >= 1
    ensures |s| == n - 1
  {
    seq(n - 1, i => i + 1)
  }

  /** How many sub-accounts a maintenance step touches, and the position after drawing it. */
  function TouchCount(w: Stream, rng: Rng, kmin: nat, kmax: nat): (r: (nat, Rng))
    requires kmin <= kmax
    ensures kmin <= r.0 <= kmax && rng <= r.1
  {
    if kmin >= kmax then (kmax, rng) else (Range(w, rng, kmin, kmax), rng + 1)
  }

  /** Every element is the index of an operational sub-account of `n`. */
  predicate Operational(s: seq<nat>, n: nat) {
    forall i :: 0 <= i < |s| ==> 0 < s[i] < n
  }

  lemma ShuffledOperational(w: Stream, rng: Rng, n: nat, k: nat)
    requires n >= 1 && k <= n - 1
    ensures Operational(Shuffled(w, rng, OperationalIndices(n), 0, k), n)
  {
    var s := OperationalIndices(n);
    var t := Shuffled(w, rng, s, 0, k);
    forall i | 0 <= i < |t| ensures 0 < t[i] < n {
      assert t[i] in multiset(t);
      assert t[i] in s;
    }
  }

  /** The `k` distinct operational indices a maintenance step works on. */
  function Chosen(w: Stream, rng: Rng, n: nat, k: nat): (t: seq<nat>)
    requires n >= 1 && k <= n - 1
    ensures |t| == k && Operational(t, n)
  {
    ShuffledOperational(w, rng, n, k);
    Shuffled(w, rng, OperationalIndices(n), 0, k)[..k]
  }

  /** Moves sub-account `j` into a fresh successor that takes its place. */
  function Succession(w: Stream, x: Ctx, j: nat): (y: Ctx)
    requires 0 < j < |x.agent.subaccounts|
    ensures y.agent == x.agent.(subaccounts := y.agent.subaccounts)
    ensures |y.agent.subaccounts| == |x.agent.subaccounts| && y.agent.subaccounts[0] == x.agent.subaccounts[0]
  {
    var tx := PlannedTx(x.agent.subaccounts[j], w.id(x.rng), SampleAmount(w, x.rng + 2), Transfer);
    var y := CommitAfter(x, Gap(w, x.rng + 1), tx, w.id(x.rng + 3), x.rng + 4);
    y.(agent := x.agent.(subaccounts := x.agent.subaccounts[j := w.id(x.rng)]))
  }

  function Successions(w: Stream, x: Ctx, idxs: seq<nat>): (y: Ctx)
    requires Operational(idxs, |x.agent.subaccounts|)
    ensures y.agent == x.agent.(subaccounts := y.agent.subaccounts)
    ensures |y.agent.subaccounts| == |x.agent.subaccounts|
    ensures x.agent.subaccounts != [] ==> y.agent.subaccounts[0] == x.agent.subaccounts[0]
    decreases |idxs|
  {
    if idxs == [] then x else Successions(w, Succession(w, x, idxs[0]), idxs[1..])
  }

  /** Which sub-accounts a rotation touches, and the position after those draws. */
  function RotationDraw(w: Stream, rng: Rng, n: nat, h: Hardening): (r: (seq<nat>, Rng))
    requires n >= 2
    ensures Operational(r.0, n) && r.1 >= rng
  {
    var kmax := Clamp(h.sweepMaxSources, 1, n - 1);
    var kmin := Clamp(h.sweepMinSources, 1, kmax);
    var (k, rng1) := TouchCount(w, rng, kmin, kmax);
    (Chosen(w, rng1, n, k), rng1 + k)
  }

  /** Index 0 stays; a drawn number of the others is rotated. */
  function RotateSome(w: Stream, x: Ctx, h: Hardening): (y: Ctx)
    ensures y.agent == x.agent.(subaccounts := y.agent.subaccounts)
    ensures |y.agent.subaccounts| == |x.agent.subaccounts|
    ensures x.agent.subaccounts != [] ==> y.agent.subaccounts[0] == x.agent.subaccounts[0]
  {
    var n := |x.agent.subaccounts|;
    if n < 2 then x
    else
      var (idxs, rng) := RotationDraw(w, x.rng, n, h);
      Successions(w, x.(rng := rng), idxs)
  }

  /** Sends one amount from sub-account `j` into the hub. */
  function Collection(w: Stream, x: Ctx, j: nat): (y: Ctx)
    requires j < |x.agent.subaccounts|
    ensures y.agent == x.agent
  {
    var tx := PlannedTx(x.agent.subaccounts[j], x.agent.main, SampleAmount(w, x.rng + 1), Transfer);
    CommitAfter(x, Gap(w, x.rng), tx, w.id(x.rng + 2), x.rng + 3)
  }

  function Collections(w: Stream, x: Ctx, idxs: seq<nat>): (y: Ctx)
    requires Operational(idxs, |x.agent.subaccounts|)
    ensures y.agent == x.agent
    decreases |idxs|
  {
    if idxs == [] then x else Collections(w, Collection(w, x, idxs[0]), idxs[1..])
  }

  /** The original's clamp panics when there is something to sweep and at most zero sources may be. */
  predicate SweepPanics(agent: Agent, h: Hardening) {
    h.sweepMaxSources == 0 && |agent.subaccounts| >= 2
  }

  /** Which sub-accounts a sweep touches, and the position after those draws. */
  function SweepDraw(w: Stream, rng: Rng, n: nat, h: Hardening): (r: (seq<nat>, Rng))
    requires n >= 2 && h.sweepMaxSources >= 1
    ensures Operational(r.0, n) && r.1 >= rng
  {
    var kmax := Min(h.sweepMaxSources, n - 1);
    var kmin := Clamp(h.sweepMinSources, 1, kmax);
    var (k, rng1) := TouchCount(w, rng, kmin, kmax);
    (Chosen(w, rng1, n, k), rng1 + k)
  }

  /** Sweeps a drawn number of sub-accounts into the hub; where the original panics the value is `x`. */
  function ConsolidateSweep(w: Stream, x: Ctx, h: Hardening): (y: Ctx)
    ensures y.agent == x.agent
  {
    var n := |x.agent.subaccounts|;
    if n < 2 || SweepPanics(x.agent, h) then x
    else
      var (idxs, rng) := SweepDraw(w, x.rng, n, h);
      Collections(w, x.(rng := rng), idxs)
  }

  /** The drawn action of a hardened wake, from the acting sub-account. */
  function ActingTx(w: Stream, x: Ctx, source: AccountId, externals: seq<AccountId>): (p: PlannedTx)
    requires externals != []
    ensures p.source == source && (p.dest in externals || (p.dest == source && p.amount == 0))
  {
    var counterparty := externals[Index(w, x.rng + 1, |externals|)];
    Plan(ChooseAction(w, x.rng), source, counterparty, SampleAmount(w, x.rng + 2))
  }

  /** The action, split and spread over time. */
  function ActOutward(w: Stream, x: Ctx, source: AccountId, externals: seq<AccountId>): (y: Ctx)
    requires externals != []
    ensures y.agent == x.agent
  {
    var p := ActingTx(w, x, source, externals);
    var parts := Emitted(w, x.rng + 3, p.amount, x.agent.persona.split);
    var rng := SplitAmount(w, x.rng + 3, p.amount, x.agent.persona.split).1;
    HardenedParts(w, x.(rng := rng), source, p.dest, p.kind, parts)
  }

  /** The acting sub-account's transactions and its decoys. */
  function OutwardWake(w: Stream, x: Ctx, source: AccountId, externals: seq<AccountId>): (y: Ctx)
    requires externals != []
    ensures y.agent == x.agent
  {
    var y := ActOutward(w, x, source, externals);
    HardenedDecoys(w, y.(rng := y.rng + 1), source, externals, NumDecoys(w, y.rng))
  }

  /** Balance maintenance by the configured strategy. */
  function Maintain(w: Stream, x: Ctx, h: Hardening): (y: Ctx)
    ensures y.agent == x.agent.(subaccounts := y.agent.subaccounts)
    ensures |y.agent.subaccounts| == |x.agent.subaccounts|
    ensures x.agent.subaccounts != [] ==> y.agent.subaccounts[0] == x.agent.subaccounts[0]
  {
    match h.rebalance
    case RotateAccounts => RotateSome(w, x, h)
    case DirectHub => ConsolidateSweep(w, x, h)
  }

  /** The original stops in this wake: it has drawn a hub sweep that panics. */
  predicate Panics(w: Stream, x: Ctx, h: Hardening) {
    Chance(w, x.rng, h.consolidationProb.Value()) && h.rebalance == DirectHub && SweepPanics(x.agent, h)
  }

  /** A hardened wake: balance maintenance, or one source acting with its decoys. */
  function PerformActionHardened(w: Stream, x: Ctx, sub: nat, externals: seq<AccountId>, h: Hardening): (y: Ctx)
    requires sub < |x.agent.subaccounts| && externals != []
    ensures y.agent == x.agent.(subaccounts := y.agent.subaccounts)
    ensures |y.agent.subaccounts| == |x.agent.subaccounts|
    ensures y.agent.subaccounts[0] == x.agent.subaccounts[0]
  {
    var x1 := x.(rng := x.rng + 1);
    if Chance(w, x.rng, h.consolidationProb.Value()) then Maintain(w, x1, h)
    else OutwardWake(w, x1, x.agent.subaccounts[sub], externals)
  }
}
