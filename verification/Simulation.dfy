/** A whole simulation: fresh setup, the event loop, the funding post-pass. */
module Simulation {
  import opened Types
  import opened Streams
  import opened Engine
  import opened EventLoop
  import opened Termination
  import opened RunInvariants
  import opened Runtime
  import opened Funding

  /** One token of the canonical text of a run's inputs. */
  datatype Atom = Begin | End | Whole(n: int) | Frac(x: Fraction) | Flag(b: bool)

  /** What lies outside the program: the generators, selected by seed and mode, and the digest. */
  datatype World = World(
    actions: (nat, Mode) -> Stream,
    fundings: (nat, Mode) -> Stream,
    digest: seq<Atom> -> nat)

  function Actions(world: World, cfg: SimConfig): Stream {
    world.actions(cfg.seed, cfg.mode)
  }

  /** Inputs on which the original completes a run: its loop ends, and no event stops it before. */
  ghost predicate Accepted(world: World, personas: seq<Persona>, cfg: SimConfig) {
    && Runnable(personas)
    && Ending(FreshSetup(Actions(world, cfg), personas, cfg))
    && Proceeds(Actions(world, cfg), FreshSetup(Actions(world, cfg), personas, cfg), FreshRun(Actions(world, cfg), personas, cfg))
  }

  /** That holds in every world iff the inputs alone rule out a saturating end and an empty sweep. */
  lemma AlwaysAcceptedIff(personas: seq<Persona>, cfg: SimConfig)
    requires Runnable(personas)
    ensures (forall world: World :: Accepted(world, personas, cfg)) <==>
      (cfg.startTs + cfg.durationSecs < I64_MAX || cfg.numAgents == 0) && !MayPanic(personas, cfg)
  {
    hide MayPanic, Ending;
    var ends := cfg.startTs + cfg.durationSecs < I64_MAX || cfg.numAgents == 0;
    forall w: Stream ensures Ending(FreshSetup(w, personas, cfg)) <==> ends {
      EndingIff(w, personas, cfg);
    }
    if ends {
      ProceedsIff(personas, cfg);
      if forall world: World :: Accepted(world, personas, cfg) {
        forall w: Stream ensures Proceeds(w, FreshSetup(w, personas, cfg), FreshRun(w, personas, cfg)) {
          assert Accepted(WorldOf(w), personas, cfg);
        }
      }
    } else {
      assert !Accepted(WorldOf(Plainest()), personas, cfg);
    }
  }

  /** The world in which every generator is `w`. */
  function WorldOf(w: Stream): (world: World)
    ensures forall cfg :: Actions(world, cfg) == w
  {
    World((seed: nat, mode: Mode) => w, (seed: nat, mode: Mode) => w, (text: seq<Atom>) => 0)
  }

  /** The state an uninterrupted run ends in. */
  function Golden(world: World, personas: seq<Persona>, cfg: SimConfig): Run
    requires Accepted(world, personas, cfg)
  {
    Finish(Actions(world, cfg), FreshSetup(Actions(world, cfg), personas, cfg), FreshRun(Actions(world, cfg), personas, cfg))
  }

  /** No identifier is drawn twice in a run. */
  ghost predicate DistinctRun(world: World, personas: seq<Persona>, cfg: SimConfig)
    requires Accepted(world, personas, cfg)
  {
    DistinctIds(Actions(world, cfg), Golden(world, personas, cfg).rng)
  }

  lemma GoldenSigned(world: World, personas: seq<Persona>, cfg: SimConfig)
    requires Accepted(world, personas, cfg)
    ensures var g := Golden(world, personas, cfg);
      Labelled(g.chain.records, |g.agents|) && Fundable(g.chain.records, |g.agents|, cfg)
  {
    var w := Actions(world, cfg);
    FreshStart(w, personas, cfg);
    FreshEntriesMatch(w, personas, cfg);
    FinishSigned(w, FreshSetup(w, personas, cfg), FreshRun(w, personas, cfg));
  }

  function Finalize(world: World, r: Run, cfg: SimConfig): Ledger
    requires Fundable(r.chain.records, |r.agents|, cfg)
  {
    ApplyFunding(world.fundings(cfg.seed, cfg.mode), r.chain.records, Hubs(r.agents), cfg)
  }

  function Simulate(world: World, personas: seq<Persona>, cfg: SimConfig): Ledger
    requires Accepted(world, personas, cfg)
  {
    GoldenSigned(world, personas, cfg);
    Finalize(world, Golden(world, personas, cfg), cfg)
  }

  /** The funding post-pass over a finished run state. */
  method FinalizeRun(world: World, st: RunState, cfg: SimConfig) returns (ledger: Ledger)
    requires Fundable(st.records, |st.agents|, cfg)
    ensures ledger == Finalize(world, st.Model(), cfg)
  {
    ledger := Fund(world.fundings(cfg.seed, cfg.mode), st.records, Hubs(st.agents), cfg);
  }

  method RunSimulation(world: World, personas: seq<Persona>, cfg: SimConfig) returns (ledger: Ledger)
    requires Accepted(world, personas, cfg)
    ensures ledger == Simulate(world, personas, cfg)
  {
    var st := new RunState(Actions(world, cfg), personas, cfg);
    st.RunCore();
    GoldenSigned(world, personas, cfg);
    ledger := FinalizeRun(world, st, cfg);
  }

  // ---- the identity of a run ----

  const CHECKPOINT_FORMAT: nat := 2

  datatype RunId = RunId(
    format: nat,
    seed: nat,
    mode: Mode,
    numAgents: nat,
    durationSecs: int,
    startTs: int,
    numExternal: nat,
    hardenTiming: bool,
    inputsDigest: nat)

  function PersonaText(p: Persona): (t: seq<Atom>)
    ensures |t| == 8 && t[0] == Begin
  {
    [Begin, Whole(p.profile), Whole(p.numSubaccounts), Whole(p.split.minParts), Whole(p.split.maxParts),
     Whole(p.split.minPartLamports), Whole(p.dustLamportsMax), End]
  }

  /** The rest of the persona array after its opening bracket. */
  function PersonasText(ps: seq<Persona>): seq<Atom> {
    if ps == [] then [End] else PersonaText(ps[0]) + PersonasText(ps[1..])
  }

  function HardeningText(h: Hardening): (t: seq<Atom>)
    ensures |t| == 8
  {
    [Begin, Frac(h.intraGapMeanSecs), Frac(h.consolidationProb), Whole(h.sweepMinSources), Whole(h.sweepMaxSources),
     Flag(h.holdAggregateRate), Flag(h.rebalance == RotateAccounts), End]
  }

  function PolicyText(p: FundingPolicy): (t: seq<Atom>)
    ensures |t| == 2
  {
    match p
    case OperatorHub => [Whole(0), Whole(0)]
    case DedicatedFunder => [Whole(1), Whole(0)]
    case SharedRelayers(k) => [Whole(2), Whole(k)]
  }

  /** Nothing at all when no funding is configured. */
  function FundingText(f: Option<FundingConfig>): seq<Atom> {
    match f
    case None => []
    case Some(c) =>
      [Begin] + PolicyText(c.policy) + [Flag(c.sticky), Whole(c.leadMinSecs), Whole(c.leadMaxSecs), Whole(c.topupMin), Whole(c.topupMax), End]
  }

  function InputText(personas: seq<Persona>, cfg: SimConfig): seq<Atom> {
    [Begin] + PersonasText(personas) + (HardeningText(cfg.hardening) + FundingText(cfg.funding))
  }

  function DeriveId(world: World, personas: seq<Persona>, cfg: SimConfig): RunId {
    RunId(CHECKPOINT_FORMAT, cfg.seed, cfg.mode, cfg.numAgents, cfg.durationSecs, cfg.startTs, cfg.numExternal,
          cfg.hardenTiming, world.digest(InputText(personas, cfg)))
  }

  ghost predicate Injective(digest: seq<Atom> -> nat) {
    forall a, b :: digest(a) == digest(b) ==> a == b
  }

  lemma PersonaTextInjective(a: Persona, b: Persona)
    requires PersonaText(a) == PersonaText(b)
    ensures a == b
  {
  }

  /** The persona array delimits itself, so what follows it can be told apart from it. */
  lemma {:induction false} PersonasDelimited(a: seq<Persona>, b: seq<Persona>, x: seq<Atom>, y: seq<Atom>)
    requires PersonasText(a) + x == PersonasText(b) + y
    ensures a == b && x == y
    decreases |a|
  {
    var s, t := PersonasText(a) + x, PersonasText(b) + y;
    if a == [] || b == [] {
      assert s[0] == t[0];
      assert x == s[1..] && y == t[1..];
    } else {
      assert s[..8] == PersonaText(a[0]) && t[..8] == PersonaText(b[0]);
      PersonaTextInjective(a[0], b[0]);
      assert s[8..] == PersonasText(a[1..]) + x && t[8..] == PersonasText(b[1..]) + y;
      PersonasDelimited(a[1..], b[1..], x, y);
      assert a == [a[0]] + a[1..] && b == [b[0]] + b[1..];
    }
  }

  lemma HardeningTextInjective(a: Hardening, b: Hardening)
    requires HardeningText(a) == HardeningText(b)
    ensures a == b
  {
  }

  lemma FundingTextInjective(a: Option<FundingConfig>, b: Option<FundingConfig>)
    requires FundingText(a) == FundingText(b)
    ensures a == b
  {
    var s, t := FundingText(a), FundingText(b);
    if a.Some? && b.Some? {
      assert s[1] == t[1] && s[2] == t[2];
      assert s[3] == t[3] && s[4] == t[4] && s[5] == t[5] && s[6] == t[6] && s[7] == t[7];
    }
  }

  /** With a collision-free digest, equal identities mean equal inputs. */
  lemma SameIdSameInputs(world: World, p: seq<Persona>, c: SimConfig, q: seq<Persona>, d: SimConfig)
    requires Injective(world.digest) && DeriveId(world, p, c) == DeriveId(world, q, d)
    ensures p == q && c == d
  {
    hide PersonasText, HardeningText, FundingText;
    var s, t := InputText(p, c), InputText(q, d);
    assert s == t;
    var x, y := HardeningText(c.hardening) + FundingText(c.funding), HardeningText(d.hardening) + FundingText(d.funding);
    assert s[1..] == PersonasText(p) + x && t[1..] == PersonasText(q) + y;
    PersonasDelimited(p, q, x, y);
    assert x[..8] == HardeningText(c.hardening) && y[..8] == HardeningText(d.hardening);
    HardeningTextInjective(c.hardening, d.hardening);
    assert x[8..] == FundingText(c.funding) && y[8..] == FundingText(d.funding);
    FundingTextInjective(c.funding, d.funding);
  }
}
