/**
 * Which hardened runs the peel-chain rule links operators in: those in which successors of two
 * operators pass on what they received to one and the same external.
 */
module Sharing {
  import opened Types
  import opened Graph
  import opened Groups
  import opened Rules
  import opened Metric
  import opened Engine
  import opened EventLoop
  import opened RunInvariants
  import opened Rotations
  import opened Attribution
  import opened Residual
  import opened Simulation
  import opened Crossings

  /** The successors of two operators pass value on, soon and nearly whole, to one external. */
  ghost predicate SharesExternal(ext: seq<AccountId>, rs: Ledger, adv: AdversaryConfig) {
    exists i: nat, j: nat, k: nat, l: nat :: SharedBy(ext, rs, adv, i, j, k, l)
  }

  ghost predicate SharedBy(ext: seq<AccountId>, rs: Ledger, adv: AdversaryConfig, i: nat, j: nat, k: nat, l: nat) {
    && PassesOn(ext, rs, adv, i, j) && PassesOn(ext, rs, adv, k, l)
    && rs[j].dest == rs[l].dest && rs[j].dest in ext && rs[i].operator != rs[k].operator
  }

  /** The operator of record `i` moved into `u`, or passed value on to the external `u`. */
  ghost predicate Behind(ext: seq<AccountId>, rs: Ledger, adv: AdversaryConfig, u: AccountId, i: nat) {
    || (Rotation(ext, rs, i) && rs[i].dest == u)
    || (u in ext && exists j: nat :: j < |rs| && PassesOn(ext, rs, adv, i, j) && rs[j].dest == u)
  }

  /** The operator that pays with, signs with, or is behind `u`. */
  ghost function SideOf(ext: seq<AccountId>, rs: Ledger, adv: AdversaryConfig, u: AccountId): Option<AgentId> {
    if u in FeePayers(rs) then PaidBy(rs, u).operator
    else if u in Sources(rs) then (var r :| r in rs && r.source == u; r.operator)
    else if exists i: nat :: i < |rs| && Behind(ext, rs, adv, u, i)
    then (var i: nat :| i < |rs| && Behind(ext, rs, adv, u, i); rs[i].operator)
    else None
  }

  lemma SideOfSigned(ext: seq<AccountId>, n: nat, rs: Ledger, adv: AdversaryConfig, r: TxRecord)
    requires RotatingLedger(ext, n, rs) && r in rs
    ensures SideOf(ext, rs, adv, r.feePayer) == r.operator && SideOf(ext, rs, adv, r.source) == r.operator
  {
    hide Shaped, Increasing;
    var p := PaidBy(rs, r.feePayer);
    assert p == r;
    var q :| q in rs && q.source == r.source && SideOf(ext, rs, adv, r.source) == q.operator;
  }

  /** Nobody else is behind an account, unless an external is shared. */
  lemma OneBehind(ext: seq<AccountId>, n: nat, rs: Ledger, adv: AdversaryConfig, u: AccountId, i: nat, k: nat)
    requires RotatingLedger(ext, n, rs) && !SharesExternal(ext, rs, adv) && i < |rs| && k < |rs|
    requires Behind(ext, rs, adv, u, i) && Behind(ext, rs, adv, u, k)
    ensures rs[i].operator == rs[k].operator
  {
    hide Increasing, PayersOnce, OneSigner, PassesOn;
    if u in ext {
      var j: nat :| j < |rs| && PassesOn(ext, rs, adv, i, j) && rs[j].dest == u by { FedExternal(ext, rs, adv, u, i); }
      var l: nat :| l < |rs| && PassesOn(ext, rs, adv, k, l) && rs[l].dest == u by { FedExternal(ext, rs, adv, u, k); }
      assert !SharedBy(ext, rs, adv, i, j, k, l);
    }
  }

  lemma FedExternal(ext: seq<AccountId>, rs: Ledger, adv: AdversaryConfig, u: AccountId, i: nat)
    requires u in ext && Behind(ext, rs, adv, u, i)
    ensures exists j: nat :: j < |rs| && PassesOn(ext, rs, adv, i, j) && rs[j].dest == u
  {
  }

  lemma SideBehind(ext: seq<AccountId>, n: nat, rs: Ledger, adv: AdversaryConfig, u: AccountId, i: nat)
    requires RotatingLedger(ext, n, rs) && !SharesExternal(ext, rs, adv) && i < |rs|
    requires Behind(ext, rs, adv, u, i) && u !in FeePayers(rs) && u !in Sources(rs)
    ensures SideOf(ext, rs, adv, u) == rs[i].operator
  {
    hide RotatingLedger, SharesExternal, Behind;
    var k: nat :| k < |rs| && Behind(ext, rs, adv, u, k) && SideOf(ext, rs, adv, u) == rs[k].operator;
    OneBehind(ext, n, rs, adv, u, i, k);
  }

  /** What is passed on stays on the side of the operator that passes it on. */
  lemma PassedOnOneSide(ext: seq<AccountId>, n: nat, rs: Ledger, adv: AdversaryConfig, i: nat, j: nat)
    requires RotatingLedger(ext, n, rs) && !SharesExternal(ext, rs, adv) && i < |rs| && PassesOn(ext, rs, adv, i, j)
    ensures SideOf(ext, rs, adv, rs[i].source) == SideOf(ext, rs, adv, rs[j].dest)
  {
    SideOfSigned(ext, n, rs, adv, rs[i]);
    var u := rs[j].dest;
    assert rs[i].operator == rs[j].operator && u !in FeePayers(rs) by { ReceiverFacts(ext, n, rs, i, j); }
    hide RotatingLedger, SharesExternal, SideOf, PassesOn;
    if u in Sources(rs) {
      var r :| r in rs && r.source == u;
      SideOfSigned(ext, n, rs, adv, r);
      SignerReceives(ext, n, rs, j, r);
    } else if u in ext {
      assert Behind(ext, rs, adv, u, i);
      SideBehind(ext, n, rs, adv, u, i);
    } else {
      assert Behind(ext, rs, adv, u, j) by { PassedInside(ext, rs, adv, i, j); }
      SideBehind(ext, n, rs, adv, u, j);
    }
  }

  lemma ReceiverFacts(ext: seq<AccountId>, n: nat, rs: Ledger, i: nat, j: nat)
    requires RotatingLedger(ext, n, rs) && i < |rs| && j < |rs| && rs[j].source == rs[i].dest
    ensures rs[i].operator == rs[j].operator && rs[j].dest !in FeePayers(rs)
  {
    hide Shaped, Increasing;
  }

  lemma SignerReceives(ext: seq<AccountId>, n: nat, rs: Ledger, j: nat, r: TxRecord)
    requires RotatingLedger(ext, n, rs) && j < |rs| && r in rs && r.source == rs[j].dest
    ensures r.operator == rs[j].operator
  {
    hide Shaped, Increasing, PayersOnce;
  }

  lemma PassedInside(ext: seq<AccountId>, rs: Ledger, adv: AdversaryConfig, i: nat, j: nat)
    requires PassesOn(ext, rs, adv, i, j) && rs[j].dest !in ext
    ensures Rotation(ext, rs, j)
  {
  }

  /** Without a shared external every link stays on one side. */
  lemma LinkOneSide(ext: seq<AccountId>, n: nat, rs: Ledger, on: RuleSet, adv: AdversaryConfig, e: (nat, nat))
    requires RotatingLedger(ext, n, rs) && !UnitesWindows(on, adv) && e in RuleEdges(rs, on, adv)
    requires on.temporalAmount ==> !SharesExternal(ext, rs, adv)
    ensures SideOf(ext, rs, adv, e.0) == SideOf(ext, rs, adv, e.1)
  {
    OnlyFeesAndSigners(ext, n, rs, on, adv);
    CeilingSilent(ext, n, rs, on, adv);
    hide RotatingLedger, RuleEdges, PeelEdges, ActivationEdges, WindowedCopayEdges, CeilingEdges, SharesExternal, SideOf;
    hide UnitesWindows;
    if e in FeeEdges(rs) {
      var r :| r in rs && e == (r.feePayer, r.source);
      SideOfSigned(ext, n, rs, adv, r);
    } else if on.activationLineage && e in ActivationEdges(rs, adv) {
      ActivationOneSide(ext, n, rs, adv, e);
    } else if on.burstCopay && adv.useWindowed && e in WindowedCopayEdges(rs, adv) {
      EpisodeOneSide(ext, n, rs, adv, e);
    } else {
      PeelOneSide(ext, n, rs, adv, e);
    }
  }

  lemma ActivationOneSide(ext: seq<AccountId>, n: nat, rs: Ledger, adv: AdversaryConfig, e: (nat, nat))
    requires RotatingLedger(ext, n, rs) && e in ActivationEdges(rs, adv)
    ensures SideOf(ext, rs, adv, e.0) == SideOf(ext, rs, adv, e.1)
  {
    ActivationsAreRotations(ext, n, rs, adv);
    hide RotatingLedger, ActivationEdges, SideOf, Rotation, SignsSoon;
    var i: nat :| i < |rs| && Rotation(ext, rs, i) && SignsSoon(rs, adv, i) && e == (rs[i].source, rs[i].dest);
    SuccessorSigns(rs, adv, i);
    RotationOneSide(ext, n, rs, adv, i);
  }

  lemma PeelOneSide(ext: seq<AccountId>, n: nat, rs: Ledger, adv: AdversaryConfig, e: (nat, nat))
    requires RotatingLedger(ext, n, rs) && !SharesExternal(ext, rs, adv) && e in PeelEdges(rs, adv)
    ensures SideOf(ext, rs, adv, e.0) == SideOf(ext, rs, adv, e.1)
  {
    PeelsAreRotations(ext, n, rs, adv);
    hide RotatingLedger, SharesExternal, PeelEdges, SideOf, PassesOn;
    var i: nat, j: nat :| i < |rs| && j < |rs| && PassesOn(ext, rs, adv, i, j) && e == (rs[i].source, rs[j].dest);
    PassedOnOneSide(ext, n, rs, adv, i, j);
  }

  lemma CeilingSilent(ext: seq<AccountId>, n: nat, rs: Ledger, on: RuleSet, adv: AdversaryConfig)
    requires RotatingLedger(ext, n, rs) && !UnitesWindows(on, adv)
    ensures on.burstUnionCeiling && adv.useWindowed ==> CeilingEdges(rs, adv, Windows(rs, adv.windowSecs)) == {}
  {
    NoLeaks(ext, n, rs, on.(temporalAmount := false), adv);
  }

  lemma SuccessorSigns(rs: Ledger, adv: AdversaryConfig, i: nat)
    requires i < |rs| && SignsSoon(rs, adv, i)
    ensures rs[i].dest in Sources(rs)
  {
  }

  /** Both sides of a rotation whose successor signs are on one side. */
  lemma RotationOneSide(ext: seq<AccountId>, n: nat, rs: Ledger, adv: AdversaryConfig, i: nat)
    requires RotatingLedger(ext, n, rs) && i < |rs| && rs[i].dest in Sources(rs)
    ensures SideOf(ext, rs, adv, rs[i].source) == SideOf(ext, rs, adv, rs[i].dest)
  {
    hide RotatingLedger, SideOf;
    var r :| r in rs && r.source == rs[i].dest;
    SideOfSigned(ext, n, rs, adv, rs[i]);
    SideOfSigned(ext, n, rs, adv, r);
    SignerReceives(ext, n, rs, i, r);
  }

  lemma EpisodeOneSide(ext: seq<AccountId>, n: nat, rs: Ledger, adv: AdversaryConfig, e: (nat, nat))
    requires RotatingLedger(ext, n, rs) && e in WindowedCopayEdges(rs, adv)
    ensures SideOf(ext, rs, adv, e.0) == SideOf(ext, rs, adv, e.1)
  {
    var k := MeetingEpisode(rs, adv, e);
    hide RotatingLedger, WindowedCopayEdges, EpisodeBucket, EpisodeKeys, SideOf, Rotation;
    var i := EpisodePair(ext, n, rs, adv, k.0, k.1, e.0, e.1);
    RotationInside(ext, rs, i);
    RotationOneSide(ext, n, rs, adv, i);
  }

  lemma RotationInside(ext: seq<AccountId>, rs: Ledger, i: nat)
    requires Rotation(ext, rs, i)
    ensures i < |rs|
  {
  }

  lemma OwnedSide(ext: seq<AccountId>, n: nat, rs: Ledger, adv: AdversaryConfig, a: AccountId)
    requires RotatingLedger(ext, n, rs) && a in Ownership(rs)
    ensures SideOf(ext, rs, adv, a) == Some(Ownership(rs)[a])
  {
    hide RotatingLedger, SideOf, Ownership;
    OwnersSign(rs, a);
    var r :| r in rs && r.source == a && r.operator == Some(Ownership(rs)[a]);
    SideOfSigned(ext, n, rs, adv, r);
  }

  /** Without a shared external no two operators are connected. */
  lemma UnsharedApart(ext: seq<AccountId>, n: nat, rs: Ledger, on: RuleSet, adv: AdversaryConfig, a: AccountId,
      b: AccountId)
    requires RotatingLedger(ext, n, rs) && !UnitesWindows(on, adv)
    requires on.temporalAmount ==> !SharesExternal(ext, rs, adv)
    ensures !Crosses(rs, on, adv, a, b)
  {
    hide RotatingLedger, UnitesWindows, RuleEdges, Ownership, SideOf, SharesExternal;
    if Crosses(rs, on, adv, a, b) {
      var R := (x: nat, y: nat) => SideOf(ext, rs, adv, x) == SideOf(ext, rs, adv, y);
      forall e | e in RuleEdges(rs, on, adv) ensures R(e.0, e.1) {
        LinkOneSide(ext, n, rs, on, adv, e);
      }
      LeastEquivalence(RuleEdges(rs, on, adv), R, a, b);
      OwnedSide(ext, n, rs, adv, a);
      OwnedSide(ext, n, rs, adv, b);
    }
  }

  /** A shared external connects the two predecessors. */
  lemma SharedCrosses(ext: seq<AccountId>, n: nat, rs: Ledger, on: RuleSet, adv: AdversaryConfig, i: nat, j: nat, k: nat,
      l: nat)
    requires RotatingLedger(ext, n, rs) && on.temporalAmount && SharedBy(ext, rs, adv, i, j, k, l) && i < |rs| && k < |rs|
    ensures Crosses(rs, on, adv, rs[i].source, rs[k].source)
  {
    PeelsAreRotations(ext, n, rs, adv);
    SourceOwned(ext, n, rs, i);
    SourceOwned(ext, n, rs, k);
    hide RotatingLedger, Ownership, PeelEdges, RuleEdges, PassesOn, Connected;
    assert (rs[i].source, rs[j].dest) in PeelLinks(ext, rs, adv) by { PassedTo(ext, rs, adv, i, j); }
    assert (rs[k].source, rs[l].dest) in PeelLinks(ext, rs, adv) by { PassedTo(ext, rs, adv, k, l); }
    PeelsMeeting(rs, on, adv, rs[i].source, rs[k].source, rs[j].dest);
  }

  lemma PassedTo(ext: seq<AccountId>, rs: Ledger, adv: AdversaryConfig, i: nat, j: nat)
    requires PassesOn(ext, rs, adv, i, j)
    ensures i < |rs| && j < |rs| && (rs[i].source, rs[j].dest) in PeelLinks(ext, rs, adv)
  {
  }

  lemma SourceOwned(ext: seq<AccountId>, n: nat, rs: Ledger, i: nat)
    requires RotatingLedger(ext, n, rs) && i < |rs|
    ensures rs[i].source in Ownership(rs) && rs[i].operator == Some(Ownership(rs)[rs[i].source])
  {
    hide Shaped, Increasing, PayersOnce, Ownership;
    OwnerSigned(ext, n, rs, i);
  }

  /**
   * Unless windows are united, the rules link operators of a rotating ledger iff peel chains are
   * followed and successors of two operators pass on to one external what they received.
   */
  lemma CrossesIffShared(ext: seq<AccountId>, n: nat, rs: Ledger, on: RuleSet, adv: AdversaryConfig)
    requires RotatingLedger(ext, n, rs) && !UnitesWindows(on, adv)
    ensures (exists a, b :: Crosses(rs, on, adv, a, b)) <==> on.temporalAmount && SharesExternal(ext, rs, adv)
  {
    hide RotatingLedger, UnitesWindows, Crosses, SharedBy;
    if on.temporalAmount && SharesExternal(ext, rs, adv) {
      var i: nat, j: nat, k: nat, l: nat :| SharedBy(ext, rs, adv, i, j, k, l);
      SharedInside(ext, rs, adv, i, j, k, l);
      SharedCrosses(ext, n, rs, on, adv, i, j, k, l);
    } else {
      forall a, b ensures !Crosses(rs, on, adv, a, b) {
        UnsharedApart(ext, n, rs, on, adv, a, b);
      }
    }
  }

  lemma SharedInside(ext: seq<AccountId>, rs: Ledger, adv: AdversaryConfig, i: nat, j: nat, k: nat, l: nat)
    requires SharedBy(ext, rs, adv, i, j, k, l)
    ensures i < |rs| && k < |rs|
  {
  }

  /** The same of every hardened, rotating, unfunded run. */
  lemma HiddenCrossesIff(world: World, personas: seq<Persona>, cfg: SimConfig, on: RuleSet, adv: AdversaryConfig)
    requires Hidden(world, personas, cfg) && !UnitesWindows(on, adv)
    ensures (exists a, b :: Crosses(Simulate(world, personas, cfg), on, adv, a, b)) <==>
      on.temporalAmount && SharesExternal(Externals(world, personas, cfg), Simulate(world, personas, cfg), adv)
  {
    hide Golden, Simulate, Crosses, DistinctRun, RotatingLedger, UnitesWindows, SharesExternal;
    UnfundedLedger(world, personas, cfg);
    GoldenRotates(world, personas, cfg);
    var n := |Golden(world, personas, cfg).agents|;
    CrossesIffShared(Externals(world, personas, cfg), n, Simulate(world, personas, cfg), on, adv);
  }
}
