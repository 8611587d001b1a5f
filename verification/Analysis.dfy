/** Clustering and scoring in one call, and what it reports about simulated runs. */
module Analysis {
  import opened Types
  import opened Groups
  import opened Rules
  import opened Metric
  import opened Attribution
  import opened Engine
  import opened EventLoop
  import opened Rotations
  import opened Simulation
  import opened Leaks
  import opened Residual

  /** The part of the report that compares clusters with operators. */
  datatype Report = Report(counts: Confusion, precision: real, recall: real, f1: real, burstPurity: real, windowPurity: real)

  method Analyze(rs: Ledger, on: RuleSet, cfg: AdversaryConfig) returns (c: Clustering, report: Report)
    requires on.temporalAmount ==> Searchable(rs, cfg)
    ensures IsClustering(c, Accounts(rs), RuleEdges(rs, on, cfg))
    ensures report.counts == Enumerated(Ownership(rs), c.clusterOf)
    ensures report.precision == Ratio(report.counts.tp, report.counts.tp + report.counts.fp)
    ensures report.recall == Ratio(report.counts.tp, report.counts.tp + report.counts.fn)
    ensures report.f1 == Ratio(2 * report.counts.tp, 2 * report.counts.tp + report.counts.fp + report.counts.fn)
    ensures report.f1 == 1.0 <==> report.counts.tp > 0 && report.counts.fp == 0 && report.counts.fn == 0
    ensures report.burstPurity == PureShare(rs, Bursts(rs))
    ensures report.windowPurity == PureShare(rs, Windows(rs, if cfg.useWindowed then cfg.windowSecs else 0))
  {
    hide IsClustering, RuleEdges, Enumerated, Ownership, Bursts, Windows;
    c := Cluster(rs, on, cfg);
    var owner := BuildOwnership(rs);
    var counts := ConfusionCounts(owner, c.clusterOf);
    var precision, recall, f1 := Scores(counts);
    var bursts := BurstGroups(rs);
    var burstPurity := Purity(rs, bursts);
    var windows := WindowGroups(rs, if cfg.useWindowed then cfg.windowSecs else 0);
    var windowPurity := Purity(rs, windows);
    report := Report(counts, precision, recall, f1, burstPurity, windowPurity);
  }

  /** Analysing any naive run with the fee-payer rule reports full recall. */
  method AnalyzeNaive(world: World, personas: seq<Persona>, cfg: SimConfig, on: RuleSet, adv: AdversaryConfig)
    returns (report: Report)
    requires Accepted(world, personas, cfg) && cfg.mode == Naive && on.feePayer
    requires on.temporalAmount ==> Searchable(Simulate(world, personas, cfg), adv)
    ensures report.counts.fn == 0 && (report.counts.tp > 0 ==> report.recall == 1.0)
  {
    hide IsClustering, RuleEdges, Enumerated, Ownership, Simulate, Bursts, PureShare, Windows, Accepted, Searchable, Ratio;
    var rs := RunSimulation(world, personas, cfg);
    var c;
    c, report := Analyze(rs, on, adv);
    NaiveFullyRecovered(world, personas, cfg, on, adv, c);
    RatioWhole(report.counts.tp);
  }

  /**
   * Analysing any hardened, rotating, unfunded run reports no false link and pure bursts, unless
   * windows are united or peel chains followed over time.
   */
  method AnalyzeHardened(world: World, personas: seq<Persona>, cfg: SimConfig, on: RuleSet, adv: AdversaryConfig)
    returns (report: Report)
    requires Accepted(world, personas, cfg) && RotatingRun(cfg) && cfg.funding == None && DistinctRun(world, personas, cfg)
    requires KeepsApart(on, adv)
    ensures report.counts.fp == 0 && (report.counts.tp > 0 ==> report.precision == 1.0) && report.burstPurity == 1.0
  {
    hide IsClustering, RuleEdges, Enumerated, Ownership, Simulate, Bursts, PureShare, Windows;
    hide DistinctRun, KeepsApart, Accepted, RotatingRun, Searchable, Ratio;
    HardenedSearchable(world, personas, cfg, adv);
    var rs := RunSimulation(world, personas, cfg);
    var c;
    c, report := Analyze(rs, on, adv);
    HardenedApart(world, personas, cfg, on, adv, c);
    HardenedPure(world, personas, cfg, adv);
    RatioWhole(report.counts.tp);
  }

  lemma HardenedPure(world: World, personas: seq<Persona>, cfg: SimConfig, adv: AdversaryConfig)
    requires Accepted(world, personas, cfg) && RotatingRun(cfg) && cfg.funding == None
    ensures PureShare(Simulate(world, personas, cfg), Bursts(Simulate(world, personas, cfg))) == 1.0
  {
    hide Accepted, Simulate, Bursts, Alone, Increasing, CopayEdges, CoactEdges, TotalPairs, PurePairs;
    HardenedBurstsSilent(world, personas, cfg, adv);
  }
}
