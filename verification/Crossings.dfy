/** Runs whose operators the adversary links, and the settings under which there are none. */
module Crossings {
  import opened Types
  import opened Streams
  import opened Graph
  import opened Rules
  import opened Metric
  import opened Engine
  import opened EventLoop
  import opened Rotations
  import opened Residual
  import opened Simulation
  import opened PlainRuns

  /** A hardened, rotating, unfunded run with distinct identifiers. */
  ghost predicate Hidden(world: World, personas: seq<Persona>, cfg: SimConfig) {
    Accepted(world, personas, cfg) && RotatingRun(cfg) && cfg.funding == None && DistinctRun(world, personas, cfg)
  }

  /** Accounts of different operators that the rules connect. */
  ghost predicate Crosses(rs: Ledger, on: RuleSet, adv: AdversaryConfig, a: AccountId, b: AccountId) {
    var owner := Ownership(rs);
    a in owner && b in owner && owner[a] != owner[b] && Connected(RuleEdges(rs, on, adv), a, b)
  }

  /** No such run has them. */
  ghost predicate NeverCrosses(on: RuleSet, adv: AdversaryConfig) {
    forall world: World, personas: seq<Persona>, cfg: SimConfig, a: AccountId, b: AccountId ::
      Hidden(world, personas, cfg) ==> !Crosses(Simulate(world, personas, cfg), on, adv, a, b)
  }

  lemma HiddenAccepted(world: World, personas: seq<Persona>, cfg: SimConfig)
    requires Hidden(world, personas, cfg)
    ensures Accepted(world, personas, cfg)
  {
  }

  lemma HiddenApart(world: World, personas: seq<Persona>, cfg: SimConfig, on: RuleSet, adv: AdversaryConfig,
      a: AccountId, b: AccountId)
    requires Hidden(world, personas, cfg) && KeepsApart(on, adv)
    ensures !Crosses(Simulate(world, personas, cfg), on, adv, a, b)
  {
    hide RuleEdges, Golden, Simulate, Ownership, Connected, DistinctRun, RotatingLedger, KeepsApart;
    var rs := Simulate(world, personas, cfg);
    UnfundedLedger(world, personas, cfg);
    GoldenRotates(world, personas, cfg);
    if a in Ownership(rs) && b in Ownership(rs) && Connected(RuleEdges(rs, on, adv), a, b) {
      OperatorsApart(Externals(world, personas, cfg), |Golden(world, personas, cfg).agents|, rs, on, adv, a, b);
    }
  }

  /** Two peel chains that end in one account connect their beginnings. */
  lemma PeelsMeeting(rs: Ledger, on: RuleSet, adv: AdversaryConfig, a: AccountId, b: AccountId, m: AccountId)
    requires on.temporalAmount && (a, m) in PeelEdges(rs, adv) && (b, m) in PeelEdges(rs, adv)
    ensures Connected(RuleEdges(rs, on, adv), a, b)
  {
    hide FeeEdges, HubEdges, PeelEdges, ActivationEdges, CopayRule, CoactEdges, FunderEdges, CeilingEdges, Connected;
    var E := RuleEdges(rs, on, adv);
    assert (a, m) in E && (b, m) in E;
    Edge(E, a, m);
    Edge(E, m, b);
    Trans(E, a, m, b);
  }

  // ---- concrete runs ----

  /** Any two agents with small draws make a run of that kind. */
  lemma PlainHidden(unit: nat -> Unit, prob: Fraction, n: nat)
    ensures Hidden(WorldOf(Plain(unit)), [PlainPersona(n)], TwoAgents(prob))
  {
    AlwaysAcceptedIff([PlainPersona(n)], TwoAgents(prob));
  }

  /** Accounts labelled once keep that label. */
  lemma {:induction false} LabelKept(rs: Ledger, i: nat, n: nat)
    requires i < n <= |rs| && rs[i].operator.Some?
    requires forall j :: i < j < n ==> rs[j].source != rs[i].source
    ensures rs[i].source in Ownership(rs[..n]) && Ownership(rs[..n])[rs[i].source] == rs[i].operator.value
    decreases n
  {
    assert rs[..n][..n - 1] == rs[..n - 1];
    if i < n - 1 {
      LabelKept(rs, i, n - 1);
    }
  }
}
