/**
 * What the adversary still learns from a hardened run: exactly the chains of rotations whose
 * successors sign soon enough, meet their predecessors in an episode, or pass on what they received;
 * and the windows it unites. Unless it follows peel chains over time or unites whole windows, it
 * never links two operators.
 */
module Residual {
  import opened Types
  import opened Streams
  import opened Graph
  import opened Groups
  import opened Rules
  import opened GroupPasses
  import opened Metric
  import opened Attribution
  import opened Engine
  import opened EventLoop
  import opened RunInvariants
  import opened Rotations
  import opened Simulation

  // ---- groups of one ----

  /** No group holds two different records. */
  ghost predicate Alone(groups: seq<seq<nat>>) {
    forall i, j :: Together(groups, i, j) ==> i == j
  }

  /** Strictly increasing timestamps leave every burst with one record. */
  lemma BurstsAlone(rs: Ledger)
    requires Increasing(rs)
    ensures Alone(Bursts(rs))
  {
    forall i, j | Together(Bursts(rs), i, j) ensures i == j {
      BurstsWithinZeroWindow(rs, i, j);
    }
  }

  /** So does a window of no width. */
  lemma NarrowWindowsAlone(rs: Ledger, w: int)
    requires Increasing(rs) && w <= 0
    ensures Alone(Windows(rs, w))
  {
    forall i, j | Together(Windows(rs, w), i, j) ensures i == j {
      var k :| 0 <= k < |Windows(rs, w)| && i in Windows(rs, w)[k] && j in Windows(rs, w)[k];
      WindowIndices(rs, w);
      WindowGroupsAreComponents(rs, w, i, j);
      LeastEquivalence(NearEdges(rs, w), (a: nat, b: nat) => a == b, i, j);
    }
  }

  lemma SmallSet<T>(s: set<T>)
    requires forall x, y :: x in s && y in s ==> x == y
    ensures |s| <= 1
  {
    if x :| x in s {
      assert s == {x};
    }
  }

  /** Different accounts never share a bucket. */
  ghost predicate Solitary(keys: set<(nat, nat)>, bucket: Buckets) {
    forall k, x, y :: k in keys && x in bucket(k.0, k.1) && y in bucket(k.0, k.1) ==> x == y
  }

  lemma SolitaryNeverRepeats(rs: Ledger, keys: set<(nat, nat)>, bucket: Buckets, lo: nat, hi: nat, threshold: nat)
    requires Solitary(keys, bucket)
    ensures RepeatEdges(rs, keys, bucket, lo, hi, threshold) == {}
  {
  }

  lemma AloneInGroup(groups: seq<seq<nat>>, k: nat, i: nat, j: nat)
    requires Alone(groups) && k < |groups| && i in groups[k] && j in groups[k]
    ensures i == j
  {
    assert Together(groups, i, j);
  }

  lemma AlonePays(rs: Ledger, cfg: AdversaryConfig, groups: seq<seq<nat>>)
    requires Alone(groups)
    ensures CopayEdges(rs, cfg, groups) == {} && CoactEdges(rs, cfg, groups) == {} && CeilingEdges(rs, cfg, groups) == {}
  {
    hide Alone;
    var keys := GroupKeys(groups, Dests(rs));
    forall k, x, y | k in keys && x in PayBucket(rs, cfg, groups)(k.0, k.1) && y in PayBucket(rs, cfg, groups)(k.0, k.1)
      ensures x == y
    {
      var i :| i in groups[k.0] && At(rs, i).source == x;
      var j :| j in groups[k.0] && At(rs, j).source == y;
      AloneInGroup(groups, k.0, i, j);
    }
    SolitaryNeverRepeats(rs, keys, PayBucket(rs, cfg, groups), cfg.copayMinSources, cfg.burstMaxSources, cfg.copayMinSharedBuckets);
    AloneSponsored(rs, cfg, groups);
    AloneCeiling(rs, cfg, groups);
  }

  lemma AloneSponsored(rs: Ledger, cfg: AdversaryConfig, groups: seq<seq<nat>>)
    requires Alone(groups)
    ensures CoactEdges(rs, cfg, groups) == {}
  {
    hide Alone;
    var keys := GroupKeys(groups, {0});
    forall k, x, y | k in keys && x in SponsoredBucket(rs, groups)(k.0, k.1) && y in SponsoredBucket(rs, groups)(k.0, k.1)
      ensures x == y
    {
      var i :| i in groups[k.0] && At(rs, i).source == x;
      var j :| j in groups[k.0] && At(rs, j).source == y;
      AloneInGroup(groups, k.0, i, j);
    }
    SolitaryNeverRepeats(rs, keys, SponsoredBucket(rs, groups), 2, cfg.burstMaxSources, cfg.coactivityMinSharedBursts);
  }

  lemma AloneCeiling(rs: Ledger, cfg: AdversaryConfig, groups: seq<seq<nat>>)
    requires Alone(groups)
    ensures CeilingEdges(rs, cfg, groups) == {}
  {
    forall k: nat | k < |groups| ensures !CeilingGroup(rs, cfg, groups[k]) {
      forall x, y | x in GroupSources(rs, groups[k]) && y in GroupSources(rs, groups[k]) ensures x == y {
        var i :| i in groups[k] && At(rs, i).source == x;
        var j :| j in groups[k] && At(rs, j).source == y;
        AloneInGroup(groups, k, i, j);
      }
      SmallSet(GroupSources(rs, groups[k]));
    }
  }

  lemma FewCeiling(rs: Ledger, cfg: AdversaryConfig, groups: seq<seq<nat>>)
    requires cfg.burstMaxSources < 2
    ensures CeilingEdges(rs, cfg, groups) == {}
  {
  }

  // ---- purity ----

  lemma {:induction false} LabelsFromGroup(rs: Ledger, g: seq<nat>, a: AccountId)
    requires a in Labels(rs, g)
    ensures exists i :: i in g && At(rs, i).source == a
    decreases |g|
  {
    var init := g[..|g| - 1];
    if a in Labels(rs, init) {
      LabelsFromGroup(rs, init, a);
      var i :| i in init && At(rs, i).source == a;
      assert i in g;
    } else {
      assert g[|g| - 1] in g;
    }
  }

  /** Groups of one hold no pair at all, so their purity is 1. */
  lemma {:induction false} AlonePure(rs: Ledger, groups: seq<seq<nat>>, n: nat)
    requires Alone(groups) && n <= |groups|
    ensures TotalPairs(rs, groups[..n]) == 0
    decreases n
  {
    if n > 0 {
      AlonePure(rs, groups, n - 1);
      assert groups[..n][..n - 1] == groups[..n - 1];
      var labels := Labels(rs, groups[n - 1]);
      forall a, b | a in labels && b in labels ensures a == b {
        LabelsFromGroup(rs, groups[n - 1], a);
        LabelsFromGroup(rs, groups[n - 1], b);
        var i :| i in groups[n - 1] && At(rs, i).source == a;
        var j :| j in groups[n - 1] && At(rs, j).source == b;
        AloneInGroup(groups, n - 1, i, j);
      }
      assert PairsOf(labels.Keys) == {};
    }
  }

  // ---- rules that find nothing in a rotating ledger ----

  /** Value reaches an account that signs only by its rotation. */
  lemma IntoSigner(ext: seq<AccountId>, n: nat, rs: Ledger, i: nat)
    requires RotatingLedger(ext, n, rs) && i < |rs| && rs[i].dest in Sources(rs) && rs[i].source != rs[i].dest
    ensures Rotation(ext, rs, i)
  {
  }

  lemma NoHubs(ext: seq<AccountId>, n: nat, rs: Ledger, cfg: AdversaryConfig)
    requires RotatingLedger(ext, n, rs)
    ensures HubEdges(rs, cfg) == {}
  {
    forall d | d in Sources(rs) ensures |HubSources(rs, d)| <= 1 {
      forall x, y | x in HubSources(rs, d) && y in HubSources(rs, d) ensures x == y {
        var p :| p in rs && MovesValue(p) && p.dest == d && p.source == x;
        var q :| q in rs && MovesValue(q) && q.dest == d && q.source == y;
        var i, j :| 0 <= i < |rs| && 0 <= j < |rs| && rs[i] == p && rs[j] == q;
        IntoSigner(ext, n, rs, i);
      }
      SmallSet(HubSources(rs, d));
    }
  }

  lemma NoFunders(rs: Ledger, cfg: AdversaryConfig)
    requires PayersOnce(rs)
    ensures FunderEdges(rs, cfg) == {}
  {
  }

  /** A member of an episode is the source of one of its records. */
  lemma EpisodeMember(rs: Ledger, cfg: AdversaryConfig, d: AccountId, k: nat, x: AccountId) returns (i: nat)
    requires x in EpisodeBucket(rs, cfg)(d, k)
    ensures k < |Episodes(rs, cfg, d)| && i in Episodes(rs, cfg, d)[k]
    ensures i < |rs| && rs[i].source == x && rs[i].dest == d
  {
    i :| i in Episodes(rs, cfg, d)[k] && At(rs, i).source == x;
    GroupMember(PaymentsTo(rs, cfg, d), WindowJoins(rs, cfg.windowSecs), k, i);
    PaymentsFacts(rs, cfg, d);
  }

  /** Two accounts that meet in an episode are a rotation's successor and its predecessor. */
  lemma EpisodePair(ext: seq<AccountId>, n: nat, rs: Ledger, cfg: AdversaryConfig, d: AccountId, k: nat, x: AccountId,
      y: AccountId)
    returns (i: nat)
    requires RotatingLedger(ext, n, rs) && d in Sources(rs) && x != y
    requires x in EpisodeBucket(rs, cfg)(d, k) && y in EpisodeBucket(rs, cfg)(d, k)
    ensures k < |Episodes(rs, cfg, d)| && i in Episodes(rs, cfg, d)[k] && Rotation(ext, rs, i)
    ensures rs[i].dest == d && (rs[i].source, d) == (if y == d then (x, y) else (y, x))
  {
    hide Episodes, EpisodeBucket, OneSigner, Increasing, PayersOnce, Sources;
    var p := EpisodeMember(rs, cfg, d, k, x);
    var q := EpisodeMember(rs, cfg, d, k, y);
    if y == d {
      IntoSigner(ext, n, rs, p);
      i := p;
    } else {
      IntoSigner(ext, n, rs, q);
      i := q;
    }
  }

  /** No pair meets in two episodes. */
  lemma OneEpisode(ext: seq<AccountId>, n: nat, rs: Ledger, cfg: AdversaryConfig, x: AccountId, y: AccountId,
      k: (nat, nat), m: (nat, nat))
    requires RotatingLedger(ext, n, rs) && x != y && k in EpisodeKeys(rs, cfg) && m in EpisodeKeys(rs, cfg)
    requires x in EpisodeBucket(rs, cfg)(k.0, k.1) && y in EpisodeBucket(rs, cfg)(k.0, k.1)
    requires x in EpisodeBucket(rs, cfg)(m.0, m.1) && y in EpisodeBucket(rs, cfg)(m.0, m.1)
    ensures k == m
  {
    hide EpisodeBucket, RotatingLedger;
    var i := EpisodePair(ext, n, rs, cfg, k.0, k.1, x, y);
    var j := EpisodePair(ext, n, rs, cfg, m.0, m.1, x, y);
    assert i == j;
    PaymentsFacts(rs, cfg, k.0);
    OneGroupEach(PaymentsTo(rs, cfg, k.0), WindowJoins(rs, cfg.windowSecs), i, k.1, m.1);
  }

  lemma NoEpisodes(ext: seq<AccountId>, n: nat, rs: Ledger, cfg: AdversaryConfig)
    requires RotatingLedger(ext, n, rs) && cfg.copayMinSharedBuckets >= 2
    ensures WindowedCopayEdges(rs, cfg) == {}
  {
    hide RotatingLedger, EpisodeBucket, EpisodeKeys;
    var keys, bucket := EpisodeKeys(rs, cfg), EpisodeBucket(rs, cfg);
    forall x: AccountId, y: AccountId | x < y
      ensures |Shared(keys, bucket, cfg.copayMinSources, cfg.burstMaxSources, x, y)| <= 1
    {
      var both := Shared(keys, bucket, cfg.copayMinSources, cfg.burstMaxSources, x, y);
      forall k, m | k in both && m in both ensures k == m {
        OneEpisode(ext, n, rs, cfg, x, y, k, m);
      }
      SmallSet(both);
    }
  }

  // ---- exactly the rotation chains ----

  /** Wide windows are united into one cluster each. */
  predicate UnitesWindows(on: RuleSet, adv: AdversaryConfig) {
    on.burstUnionCeiling && adv.useWindowed && adv.windowSecs >= 1 && adv.burstMaxSources >= 2
  }

  /** Peel chains are followed over at least one second. */
  predicate FollowsPeels(on: RuleSet, adv: AdversaryConfig) {
    on.temporalAmount && adv.temporalWindowSecs >= 1
  }

  /** The rules that can link operators are off; see Separation.NeverCrossesIff. */
  predicate KeepsApart(on: RuleSet, adv: AdversaryConfig) {
    !UnitesWindows(on, adv) && !FollowsPeels(on, adv)
  }

  /** Windowed co-payment asks for repetition. */
  predicate Thresholded(on: RuleSet, adv: AdversaryConfig) {
    on.burstCopay && adv.useWindowed ==> adv.copayMinSharedBuckets >= 2
  }

  /** No time passes within a window of no width, so that no hop continues another. */
  lemma NarrowPeels(rs: Ledger, adv: AdversaryConfig)
    requires Increasing(rs) && adv.temporalWindowSecs <= 0
    ensures PeelEdges(rs, adv) == {}
  {
  }

  /** A rotating ledger never stops the peel-chain search, whatever its window. */
  lemma RotatingSearchable(ext: seq<AccountId>, n: nat, rs: Ledger, adv: AdversaryConfig)
    requires RotatingLedger(ext, n, rs)
    ensures Searchable(rs, adv)
  {
    forall a, b | a in rs && b in rs ensures !Inverts(a, b, adv) {
      if MovesValue(a) && b.source == a.dest {
        var i, j :| 0 <= i < |rs| && 0 <= j < |rs| && rs[i] == a && rs[j] == b;
        IntoSigner(ext, n, rs, i);
        assert i < j;
      }
    }
  }

  /** Neither hubs, nor bursts, nor the funder graph tell anything. */
  lemma NoOtherLinks(ext: seq<AccountId>, n: nat, rs: Ledger, adv: AdversaryConfig)
    requires RotatingLedger(ext, n, rs)
    ensures CoactEdges(rs, adv, Bursts(rs)) == {} && CopayEdges(rs, adv, Bursts(rs)) == {}
    ensures CeilingEdges(rs, adv, Bursts(rs)) == {}
    ensures HubEdges(rs, adv) == {} && FunderEdges(rs, adv) == {}
  {
    hide Alone, CopayEdges, CoactEdges, CeilingEdges, HubEdges, FunderEdges;
    BurstsAlone(rs);
    AlonePays(rs, adv, Bursts(rs));
    NoHubs(ext, n, rs, adv);
    NoFunders(rs, adv);
  }

  /** With the two exceptions off, peel chains and the ceiling find nothing either. */
  lemma NoLeaks(ext: seq<AccountId>, n: nat, rs: Ledger, on: RuleSet, adv: AdversaryConfig)
    requires RotatingLedger(ext, n, rs) && KeepsApart(on, adv)
    ensures on.burstUnionCeiling && adv.useWindowed ==> CeilingEdges(rs, adv, Windows(rs, adv.windowSecs)) == {}
    ensures on.temporalAmount ==> PeelEdges(rs, adv) == {}
  {
    hide Alone, CopayEdges, CoactEdges, CeilingEdges, PeelEdges;
    if adv.temporalWindowSecs <= 0 {
      NarrowPeels(rs, adv);
    }
    if adv.burstMaxSources < 2 {
      FewCeiling(rs, adv, Windows(rs, adv.windowSecs));
    }
    if adv.windowSecs <= 0 {
      NarrowWindowsAlone(rs, adv.windowSecs);
      AlonePays(rs, adv, Windows(rs, adv.windowSecs));
    }
  }

  /** What is linked besides throwaways: activations, episodes, peel chains and united windows. */
  ghost function SignerEdges(rs: Ledger, on: RuleSet, adv: AdversaryConfig): Edges {
    When(on.activationLineage, ActivationEdges(rs, adv))
    + When(on.burstCopay && adv.useWindowed, WindowedCopayEdges(rs, adv))
    + When(on.temporalAmount, PeelEdges(rs, adv))
    + When(on.burstUnionCeiling && adv.useWindowed, CeilingEdges(rs, adv, Windows(rs, adv.windowSecs)))
  }

  lemma OnlyFeesAndSigners(ext: seq<AccountId>, n: nat, rs: Ledger, on: RuleSet, adv: AdversaryConfig)
    requires RotatingLedger(ext, n, rs)
    ensures RuleEdges(rs, on, adv) == When(on.feePayer, FeeEdges(rs)) + SignerEdges(rs, on, adv)
  {
    hide RotatingLedger, HubEdges, PeelEdges, ActivationEdges, FeeEdges, WindowedCopayEdges, CopayEdges;
    hide CoactEdges, FunderEdges, CeilingEdges;
    NoOtherLinks(ext, n, rs, adv);
  }

  lemma PayersOnceOf(ext: seq<AccountId>, n: nat, rs: Ledger)
    requires RotatingLedger(ext, n, rs)
    ensures PayersOnce(rs)
  {
  }

  /** What a throwaway paid for; any other account is its own. */
  ghost function Payee(rs: Ledger, a: AccountId): AccountId {
    if a in FeePayers(rs) then PaidBy(rs, a).source else a
  }

  ghost function PaidBy(rs: Ledger, a: AccountId): (r: TxRecord)
    requires a in FeePayers(rs)
    ensures r in rs && r.feePayer == a
  {
    var r :| r in rs && r.feePayer == a;
    r
  }

  lemma PayeeFacts(rs: Ledger, r: TxRecord)
    requires PayersOnce(rs) && r in rs
    ensures Payee(rs, r.feePayer) == r.source && Payee(rs, r.source) == r.source && Payee(rs, r.dest) == r.dest
  {
  }

  /** Throwaways dangle: over edges that leave them out, they never connect two accounts that sign. */
  lemma FeesDangle(rs: Ledger, A: Edges, a: AccountId, b: AccountId)
    requires PayersOnce(rs) && a in Sources(rs) && b in Sources(rs)
    requires forall e :: e in A ==> e.0 !in FeePayers(rs) && e.1 !in FeePayers(rs)
    requires Connected(FeeEdges(rs) + A, a, b)
    ensures Connected(A, a, b)
  {
    hide Payee, PayersOnce, Connected, Equivalence, FeePayers;
    var E := FeeEdges(rs) + A;
    var R := (x: nat, y: nat) => Connected(A, Payee(rs, x), Payee(rs, y));
    PayeesConnect(rs, A);
    forall e | e in E ensures R(e.0, e.1) {
      EdgeKeepsPayee(rs, A, e);
    }
    LeastEquivalence(E, R, a, b);
    SourceItself(rs, a);
    SourceItself(rs, b);
  }

  lemma PayeesConnect(rs: Ledger, A: Edges)
    ensures Equivalence((x: nat, y: nat) => Connected(A, Payee(rs, x), Payee(rs, y)))
  {
    hide Payee, Connected;
    forall x: nat ensures Connected(A, Payee(rs, x), Payee(rs, x)) { Refl(A, Payee(rs, x)); }
    forall x: nat, y: nat | Connected(A, Payee(rs, x), Payee(rs, y)) ensures Connected(A, Payee(rs, y), Payee(rs, x)) {
      Sym(A, Payee(rs, x), Payee(rs, y));
    }
    forall x: nat, y: nat, z: nat | Connected(A, Payee(rs, x), Payee(rs, y)) && Connected(A, Payee(rs, y), Payee(rs, z))
      ensures Connected(A, Payee(rs, x), Payee(rs, z))
    {
      Trans(A, Payee(rs, x), Payee(rs, y), Payee(rs, z));
    }
  }

  lemma EdgeKeepsPayee(rs: Ledger, A: Edges, e: (nat, nat))
    requires PayersOnce(rs) && e in FeeEdges(rs) + A
    requires e in A ==> e.0 !in FeePayers(rs) && e.1 !in FeePayers(rs)
    ensures Connected(A, Payee(rs, e.0), Payee(rs, e.1))
  {
    hide PayersOnce, Connected;
    if e in A {
      Edge(A, e.0, e.1);
    } else {
      var r :| r in rs && e == (r.feePayer, r.source);
      PayeeFacts(rs, r);
      Refl(A, r.source);
    }
  }

  lemma SourceItself(rs: Ledger, a: AccountId)
    requires PayersOnce(rs) && a in Sources(rs)
    ensures Payee(rs, a) == a
  {
    var r :| r in rs && r.source == a;
    PayeeFacts(rs, r);
  }

  /** Throwaways are on no edge of the signing accounts. */
  lemma SignersOffPayers(rs: Ledger, on: RuleSet, adv: AdversaryConfig, e: (nat, nat))
    requires PayersOnce(rs) && e in SignerEdges(rs, on, adv)
    ensures e.0 !in FeePayers(rs) && e.1 !in FeePayers(rs)
  {
    hide Activates, EpisodeBucket, EpisodeKeys, InCeilingGroup;
  }

  /** The residual at ledger level. */
  lemma ResidualConnected(ext: seq<AccountId>, n: nat, rs: Ledger, on: RuleSet, adv: AdversaryConfig, a: AccountId,
      b: AccountId)
    requires RotatingLedger(ext, n, rs) && a in Sources(rs) && b in Sources(rs)
    ensures Connected(RuleEdges(rs, on, adv), a, b) <==> Connected(SignerEdges(rs, on, adv), a, b)
  {
    hide RotatingLedger, PayersOnce, RuleEdges, FeeEdges, SignerEdges, FeePayers, Connected;
    PayersOnceOf(ext, n, rs);
    OnlyFeesAndSigners(ext, n, rs, on, adv);
    var A, E := SignerEdges(rs, on, adv), RuleEdges(rs, on, adv);
    if Connected(A, a, b) {
      Monotone(A, E, a, b);
    } else if Connected(E, a, b) {
      Monotone(E, FeeEdges(rs) + A, a, b);
      forall e | e in A ensures e.0 !in FeePayers(rs) && e.1 !in FeePayers(rs) {
        SignersOffPayers(rs, on, adv, e);
      }
      FeesDangle(rs, A, a, b);
    }
  }

  // ---- activations are rotations ----

  /** The successor of rotation `i` first signs at most one activation window after it. */
  ghost predicate SignsSoon(rs: Ledger, adv: AdversaryConfig, i: nat)
    requires i < |rs|
  {
    exists j :: 0 <= j < |rs| && FirstOf(rs, rs[i].dest, j) && SatSub(rs[j].ts, rs[i].ts) <= Max(adv.activationWindowSecs, 0)
  }

  /** Record `j` is the first that `a` signs. */
  ghost predicate FirstOf(rs: Ledger, a: AccountId, j: nat) {
    j < |rs| && rs[j].source == a && forall k :: 0 <= k < |rs| && rs[k].source == a ==> j <= k
  }

  /** Predecessor and successor of every rotation whose successor signs soon. */
  ghost function RotationLinks(ext: seq<AccountId>, rs: Ledger, adv: AdversaryConfig): Edges {
    set i | 0 <= i < |rs| && Rotation(ext, rs, i) && SignsSoon(rs, adv, i) :: (rs[i].source, rs[i].dest)
  }

  lemma FirstSigningIsFirst(rs: Ledger, j: nat)
    requires Increasing(rs) && j < |rs|
    ensures FirstSigning(rs, rs[j]) <==> FirstOf(rs, rs[j].source, j)
  {
  }

  /** The activation rule links exactly the rotations whose successor signs soon. */
  lemma ActivationsAreRotations(ext: seq<AccountId>, n: nat, rs: Ledger, adv: AdversaryConfig)
    requires RotatingLedger(ext, n, rs)
    ensures ActivationEdges(rs, adv) == RotationLinks(ext, rs, adv)
  {
    hide Activates, SignsSoon;
    forall i: nat | i < |rs| ensures Activates(rs, adv, rs[i]) <==> Rotation(ext, rs, i) && SignsSoon(rs, adv, i) {
      ActivatesIffRotation(ext, n, rs, adv, i);
    }
    hide RotatingLedger, Rotation;
    forall e | e in ActivationEdges(rs, adv) ensures e in RotationLinks(ext, rs, adv) {
      var r :| r in rs && Activates(rs, adv, r) && e == (r.source, r.dest);
      var i: nat :| i < |rs| && rs[i] == r;
    }
    forall e | e in RotationLinks(ext, rs, adv) ensures e in ActivationEdges(rs, adv) {
      var i: nat :| i < |rs| && Rotation(ext, rs, i) && SignsSoon(rs, adv, i) && e == (rs[i].source, rs[i].dest);
      assert rs[i] in rs;
    }
  }

  lemma ActivatesIffRotation(ext: seq<AccountId>, n: nat, rs: Ledger, adv: AdversaryConfig, i: nat)
    requires RotatingLedger(ext, n, rs) && i < |rs|
    ensures Activates(rs, adv, rs[i]) <==> Rotation(ext, rs, i) && SignsSoon(rs, adv, i)
  {
    hide OneSigner, PayersOnce, FirstSigning;
    if Activates(rs, adv, rs[i]) {
      var b :| FirstSigning(rs, b) && ActivatedBy(adv, rs[i], b);
      var j :| 0 <= j < |rs| && rs[j] == b by { FirstSigns(rs, b); }
      FirstSigningIsFirst(rs, j);
      IntoSigner(ext, n, rs, i) by { assert rs[j] in rs; }
    }
    if Rotation(ext, rs, i) && SignsSoon(rs, adv, i) {
      var j :| 0 <= j < |rs| && FirstOf(rs, rs[i].dest, j) && SatSub(rs[j].ts, rs[i].ts) <= Max(adv.activationWindowSecs, 0);
      FirstSigningIsFirst(rs, j);
      assert ActivatedBy(adv, rs[i], rs[j]);
    }
  }

  lemma FirstSigns(rs: Ledger, b: TxRecord)
    requires FirstSigning(rs, b)
    ensures b in rs
  {
  }

  // ---- peel chains start with a rotation ----

  /** In record `j` the successor of rotation `i` passes on what it received, soon and nearly whole. */
  ghost predicate PassesOn(ext: seq<AccountId>, rs: Ledger, adv: AdversaryConfig, i: nat, j: nat) {
    && Rotation(ext, rs, i) && j < |rs| && rs[j].source == rs[i].dest && rs[j].amount > 0
    && (rs[j].dest in ext || Rotation(ext, rs, j))
    && rs[j].ts - rs[i].ts <= adv.temporalWindowSecs
    && NearlySame(rs[i].amount, rs[j].amount, adv) && rs[i].sig != rs[j].sig
  }

  /** The predecessor, and the external or the next successor that the value is passed on to. */
  ghost function PeelLinks(ext: seq<AccountId>, rs: Ledger, adv: AdversaryConfig): Edges {
    set i, j | 0 <= i < |rs| && 0 <= j < |rs| && PassesOn(ext, rs, adv, i, j) :: (rs[i].source, rs[j].dest)
  }

  lemma PeelsIffPassesOn(ext: seq<AccountId>, n: nat, rs: Ledger, adv: AdversaryConfig, i: nat, j: nat)
    requires RotatingLedger(ext, n, rs) && i < |rs| && j < |rs|
    ensures Peels(rs[i], rs[j], adv) <==> PassesOn(ext, rs, adv, i, j)
  {
    hide NearlySame;
    if Peels(rs[i], rs[j], adv) {
      assert rs[j] in rs;
      IntoSigner(ext, n, rs, i);
    }
  }

  /** The peel-chain rule links exactly these. */
  lemma PeelsAreRotations(ext: seq<AccountId>, n: nat, rs: Ledger, adv: AdversaryConfig)
    requires RotatingLedger(ext, n, rs)
    ensures PeelEdges(rs, adv) == PeelLinks(ext, rs, adv)
  {
    hide RotatingLedger, Peels, PassesOn;
    forall e | e in PeelEdges(rs, adv) ensures e in PeelLinks(ext, rs, adv) {
      var a, b :| a in rs && b in rs && Peels(a, b, adv) && e == (a.source, b.dest);
      var i: nat :| i < |rs| && rs[i] == a;
      var j: nat :| j < |rs| && rs[j] == b;
      PeelsIffPassesOn(ext, n, rs, adv, i, j);
    }
    forall e | e in PeelLinks(ext, rs, adv) ensures e in PeelEdges(rs, adv) {
      var i: nat, j: nat :| i < |rs| && j < |rs| && PassesOn(ext, rs, adv, i, j) && e == (rs[i].source, rs[j].dest);
      PeelsIffPassesOn(ext, n, rs, adv, i, j);
      assert rs[i] in rs && rs[j] in rs;
    }
  }

  // ---- operators stay apart ----

  function OwnerOf(owner: map<AccountId, AgentId>, a: AccountId): Option<AgentId> {
    if a in owner then Some(owner[a]) else None
  }

  /** Both ends of a rotation belong to one operator. */
  lemma RotationOneOwner(ext: seq<AccountId>, n: nat, rs: Ledger, adv: AdversaryConfig, e: (nat, nat))
    requires RotatingLedger(ext, n, rs) && e in RotationLinks(ext, rs, adv)
    ensures OwnerOf(Ownership(rs), e.0) == OwnerOf(Ownership(rs), e.1)
  {
    var i: nat :| i < |rs| && Rotation(ext, rs, i) && SignsSoon(rs, adv, i) && e == (rs[i].source, rs[i].dest);
    var j :| 0 <= j < |rs| && FirstOf(rs, rs[i].dest, j);
    hide Rotation, Shaped, Increasing, PayersOnce, SignsSoon, FirstOf, Ownership;
    OwnerSigned(ext, n, rs, i);
    OwnerSigned(ext, n, rs, j);
  }

  lemma OwnerSigned(ext: seq<AccountId>, n: nat, rs: Ledger, i: nat)
    requires OneSigner(ext, n, rs) && i < |rs|
    ensures OwnerOf(Ownership(rs), rs[i].source) == rs[i].operator
  {
  }

  /** Both ends of a pair that meets in an episode belong to one operator. */
  lemma EpisodeOneOwner(ext: seq<AccountId>, n: nat, rs: Ledger, adv: AdversaryConfig, e: (nat, nat))
    requires RotatingLedger(ext, n, rs) && e in WindowedCopayEdges(rs, adv)
    ensures e.0 in Sources(rs) && e.1 in Sources(rs) && OwnerOf(Ownership(rs), e.0) == OwnerOf(Ownership(rs), e.1)
  {
    var k := MeetingEpisode(rs, adv, e);
    hide WindowedCopayEdges, EpisodeBucket, EpisodeKeys, Ownership;
    var i := EpisodePair(ext, n, rs, adv, k.0, k.1, e.0, e.1);
    var r :| r in rs && r.source == k.0;
    var j :| 0 <= j < |rs| && rs[j] == r;
    hide Rotation, Shaped, Increasing, PayersOnce;
    OwnerSigned(ext, n, rs, i);
    OwnerSigned(ext, n, rs, j);
  }

  lemma MeetingEpisode(rs: Ledger, adv: AdversaryConfig, e: (nat, nat)) returns (k: (nat, nat))
    requires e in WindowedCopayEdges(rs, adv)
    ensures e.0 in Sources(rs) && e.1 in Sources(rs) && e.0 != e.1 && k.0 in Sources(rs)
    ensures e.0 in EpisodeBucket(rs, adv)(k.0, k.1) && e.1 in EpisodeBucket(rs, adv)(k.0, k.1)
  {
    var both := Shared(EpisodeKeys(rs, adv), EpisodeBucket(rs, adv), adv.copayMinSources, adv.burstMaxSources, e.0, e.1);
    assert both != {};
    k :| k in both;
  }

  /** Every edge of the rules joins accounts of one operator, seeing each throwaway as what it paid for. */
  lemma EdgeOneOwner(ext: seq<AccountId>, n: nat, rs: Ledger, on: RuleSet, adv: AdversaryConfig, e: (nat, nat))
    requires RotatingLedger(ext, n, rs) && KeepsApart(on, adv) && e in RuleEdges(rs, on, adv)
    ensures OwnerOf(Ownership(rs), Payee(rs, e.0)) == OwnerOf(Ownership(rs), Payee(rs, e.1))
  {
    OnlyFeesAndSigners(ext, n, rs, on, adv);
    NoLeaks(ext, n, rs, on, adv);
    PayersOnceOf(ext, n, rs);
    hide RotatingLedger, KeepsApart, RuleEdges, PeelEdges, CeilingEdges;
    hide WindowedCopayEdges, RotationLinks, Ownership, Payee, PayersOnce, OwnerOf, Activates;
    if e in FeeEdges(rs) {
      var r :| r in rs && e == (r.feePayer, r.source);
      PayeeFacts(rs, r);
    } else if e in ActivationEdges(rs, adv) {
      ActivationsAreRotations(ext, n, rs, adv);
      var r :| r in rs && Activates(rs, adv, r) && e == (r.source, r.dest);
      PayeeFacts(rs, r);
      RotationOneOwner(ext, n, rs, adv, e);
    } else {
      assert e in WindowedCopayEdges(rs, adv);
      EpisodeOneOwner(ext, n, rs, adv, e);
      SourceItself(rs, e.0);
      SourceItself(rs, e.1);
    }
  }

  /** With the two rules off, nothing connects accounts of two operators. */
  lemma OperatorsApart(ext: seq<AccountId>, n: nat, rs: Ledger, on: RuleSet, adv: AdversaryConfig, a: AccountId,
      b: AccountId)
    requires RotatingLedger(ext, n, rs) && KeepsApart(on, adv)
    requires a in Ownership(rs) && b in Ownership(rs) && Connected(RuleEdges(rs, on, adv), a, b)
    ensures Ownership(rs)[a] == Ownership(rs)[b]
  {
    PayersOnceOf(ext, n, rs);
    OwnersSign(rs, a);
    OwnersSign(rs, b);
    hide RotatingLedger, KeepsApart, RuleEdges, Ownership, Payee, PayersOnce;
    var R := (x: nat, y: nat) => OwnerOf(Ownership(rs), Payee(rs, x)) == OwnerOf(Ownership(rs), Payee(rs, y));
    forall e | e in RuleEdges(rs, on, adv) ensures R(e.0, e.1) {
      EdgeOneOwner(ext, n, rs, on, adv, e);
    }
    LeastEquivalence(RuleEdges(rs, on, adv), R, a, b);
    SourceItself(rs, a);
    SourceItself(rs, b);
  }

  /** What the rules tell about the accounts of a rotating ledger. */
  ghost function ResidualLinks(ext: seq<AccountId>, rs: Ledger, on: RuleSet, adv: AdversaryConfig): Edges {
    When(on.activationLineage, RotationLinks(ext, rs, adv))
    + When(on.burstCopay && adv.useWindowed, WindowedCopayEdges(rs, adv))
    + When(on.temporalAmount, PeelLinks(ext, rs, adv))
    + When(on.burstUnionCeiling && adv.useWindowed, CeilingEdges(rs, adv, Windows(rs, adv.windowSecs)))
  }

  /** With the two exceptions off, each link joins the two sides of one rotation. */
  lemma ResidualIsRotations(ext: seq<AccountId>, n: nat, rs: Ledger, on: RuleSet, adv: AdversaryConfig, e: (nat, nat))
    returns (i: nat)
    requires RotatingLedger(ext, n, rs) && KeepsApart(on, adv) && e in ResidualLinks(ext, rs, on, adv)
    ensures Rotation(ext, rs, i) && (e == (rs[i].source, rs[i].dest) || e == (rs[i].dest, rs[i].source))
  {
    hide RotatingLedger, KeepsApart, Rotation, WindowedCopayEdges, PeelLinks, CeilingEdges, SignsSoon, EpisodeBucket;
    NoLeaks(ext, n, rs, on, adv);
    PeelsAreRotations(ext, n, rs, adv);
    if on.activationLineage && e in RotationLinks(ext, rs, adv) {
      i :| i < |rs| && Rotation(ext, rs, i) && SignsSoon(rs, adv, i) && e == (rs[i].source, rs[i].dest);
    } else {
      var k := MeetingEpisode(rs, adv, e);
      i := EpisodePair(ext, n, rs, adv, k.0, k.1, e.0, e.1);
    }
  }

  /** When windowed co-payment asks for repetition too, only rotations whose successors sign soon remain. */
  lemma ThresholdedLinks(ext: seq<AccountId>, n: nat, rs: Ledger, on: RuleSet, adv: AdversaryConfig)
    requires RotatingLedger(ext, n, rs) && KeepsApart(on, adv)
    ensures Thresholded(on, adv) ==>
      ResidualLinks(ext, rs, on, adv) == When(on.activationLineage, RotationLinks(ext, rs, adv))
  {
    hide RotatingLedger, KeepsApart, RotationLinks, WindowedCopayEdges, PeelLinks, PeelEdges, CeilingEdges;
    NoLeaks(ext, n, rs, on, adv);
    PeelsAreRotations(ext, n, rs, adv);
    if adv.copayMinSharedBuckets >= 2 {
      NoEpisodes(ext, n, rs, adv);
    }
  }

  /** What the rules connect among owned accounts of a rotating ledger, under every setting. */
  lemma ResidualExact(ext: seq<AccountId>, n: nat, rs: Ledger, on: RuleSet, adv: AdversaryConfig, a: AccountId,
      b: AccountId)
    requires RotatingLedger(ext, n, rs) && a in Ownership(rs) && b in Ownership(rs)
    ensures Connected(RuleEdges(rs, on, adv), a, b) <==> Connected(ResidualLinks(ext, rs, on, adv), a, b)
    ensures KeepsApart(on, adv) && Connected(RuleEdges(rs, on, adv), a, b) ==> Ownership(rs)[a] == Ownership(rs)[b]
  {
    hide RotatingLedger, KeepsApart, RuleEdges, RotationLinks, ActivationEdges, WindowedCopayEdges, Ownership, Connected;
    hide PeelEdges, PeelLinks, CeilingEdges;
    OwnersSign(rs, a);
    OwnersSign(rs, b);
    ActivationsAreRotations(ext, n, rs, adv);
    PeelsAreRotations(ext, n, rs, adv);
    ResidualConnected(ext, n, rs, on, adv, a, b);
    if KeepsApart(on, adv) && Connected(RuleEdges(rs, on, adv), a, b) {
      OperatorsApart(ext, n, rs, on, adv, a, b);
    }
  }

  // ---- every hardened run ----

  lemma UnfundedLedger(world: World, personas: seq<Persona>, cfg: SimConfig)
    requires Accepted(world, personas, cfg) && cfg.funding == None
    ensures Simulate(world, personas, cfg) == Golden(world, personas, cfg).chain.records
  {
  }

  function Externals(world: World, personas: seq<Persona>, cfg: SimConfig): seq<AccountId>
    requires Accepted(world, personas, cfg)
  {
    FreshSetup(Actions(world, cfg), personas, cfg).externals
  }

  /** Unless a rule that can link operators is on, no hardened, rotating, unfunded run has a false link. */
  lemma HardenedApart(world: World, personas: seq<Persona>, cfg: SimConfig, on: RuleSet, adv: AdversaryConfig,
      c: Clustering)
    requires Accepted(world, personas, cfg) && RotatingRun(cfg) && cfg.funding == None && DistinctRun(world, personas, cfg)
    requires KeepsApart(on, adv)
    requires var rs := Simulate(world, personas, cfg); IsClustering(c, Accounts(rs), RuleEdges(rs, on, adv))
    ensures Enumerated(Ownership(Simulate(world, personas, cfg)), c.clusterOf).fp == 0
  {
    hide IsClustering, RuleEdges, Golden, Simulate, Ownership, Connected, DistinctRun, RotatingLedger;
    hide Enumerated, KeepsApart;
    var rs := Simulate(world, personas, cfg);
    UnfundedLedger(world, personas, cfg);
    GoldenRotates(world, personas, cfg);
    forall a, b | a in Ownership(rs) && b in Ownership(rs) && ClusterKey(c.clusterOf, a) == ClusterKey(c.clusterOf, b)
      ensures Ownership(rs)[a] == Ownership(rs)[b]
    {
      OwnedInLedger(rs, a);
      OwnedInLedger(rs, b);
      SameClusterIffConnected(c, Accounts(rs), RuleEdges(rs, on, adv), a, b);
      OperatorsApart(Externals(world, personas, cfg), |Golden(world, personas, cfg).agents|, rs, on, adv, a, b);
    }
    NoFalseLinksIffPure(Ownership(rs), c.clusterOf);
  }

  /**
   * What the clustering of such a run says about owned accounts: exactly the chains of residual
   * links. With the two exceptions off and windowed co-payment asking for repetition, these are the
   * rotations whose successors sign soon.
   */
  lemma HardenedResidual(world: World, personas: seq<Persona>, cfg: SimConfig, on: RuleSet, adv: AdversaryConfig,
      c: Clustering)
    requires Accepted(world, personas, cfg) && RotatingRun(cfg) && cfg.funding == None && DistinctRun(world, personas, cfg)
    requires var rs := Simulate(world, personas, cfg); IsClustering(c, Accounts(rs), RuleEdges(rs, on, adv))
    ensures var (rs, links) := (Simulate(world, personas, cfg), RunLinks(world, personas, cfg, on, adv));
      && (forall a, b :: a in Ownership(rs) && b in Ownership(rs) ==>
           (ClusterKey(c.clusterOf, a) == ClusterKey(c.clusterOf, b) <==> Connected(links, a, b)))
      && (KeepsApart(on, adv) && Thresholded(on, adv) ==>
           links == When(on.activationLineage, RotationLinks(Externals(world, personas, cfg), rs, adv)))
    ensures KeepsApart(on, adv) ==> Enumerated(Ownership(Simulate(world, personas, cfg)), c.clusterOf).fp == 0
  {
    hide IsClustering, RuleEdges, Golden, Simulate, Ownership, RotationLinks, Connected, DistinctRun, RotatingLedger;
    hide Enumerated, When, KeepsApart, Thresholded, ResidualLinks;
    var rs, ext, n := Simulate(world, personas, cfg), Externals(world, personas, cfg), |Golden(world, personas, cfg).agents|;
    var links := ResidualLinks(ext, rs, on, adv);
    UnfundedLedger(world, personas, cfg);
    GoldenRotates(world, personas, cfg);
    forall a, b | a in Ownership(rs) && b in Ownership(rs)
      ensures ClusterKey(c.clusterOf, a) == ClusterKey(c.clusterOf, b) <==> Connected(links, a, b)
    {
      OwnedInLedger(rs, a);
      OwnedInLedger(rs, b);
      SameClusterIffConnected(c, Accounts(rs), RuleEdges(rs, on, adv), a, b);
      ResidualExact(ext, n, rs, on, adv, a, b);
    }
    if KeepsApart(on, adv) {
      ThresholdedLinks(ext, n, rs, on, adv);
      HardenedApart(world, personas, cfg, on, adv, c);
    }
  }

  ghost function RunLinks(world: World, personas: seq<Persona>, cfg: SimConfig, on: RuleSet, adv: AdversaryConfig): Edges
    requires Accepted(world, personas, cfg)
  {
    ResidualLinks(Externals(world, personas, cfg), Simulate(world, personas, cfg), on, adv)
  }

  lemma OwnedInLedger(rs: Ledger, a: AccountId)
    requires a in Ownership(rs)
    ensures a in Accounts(rs)
  {
  }

  lemma GoldenRotates(world: World, personas: seq<Persona>, cfg: SimConfig)
    requires Accepted(world, personas, cfg) && RotatingRun(cfg) && DistinctRun(world, personas, cfg)
    ensures var g := Golden(world, personas, cfg);
      RotatingLedger(Externals(world, personas, cfg), |g.agents|, g.chain.records)
  {
    hide RotatingLedger, DistinctIds;
    RotatingRunLedger(Actions(world, cfg), personas, cfg);
  }

  lemma HardenedSearchable(world: World, personas: seq<Persona>, cfg: SimConfig, adv: AdversaryConfig)
    requires Accepted(world, personas, cfg) && RotatingRun(cfg) && cfg.funding == None && DistinctRun(world, personas, cfg)
    ensures Searchable(Simulate(world, personas, cfg), adv)
  {
    hide RotatingLedger, DistinctRun, Golden, Simulate, Searchable;
    UnfundedLedger(world, personas, cfg);
    GoldenRotates(world, personas, cfg);
    var n := |Golden(world, personas, cfg).agents|;
    RotatingSearchable(Externals(world, personas, cfg), n, Simulate(world, personas, cfg), adv);
  }

  /** In every hardened unfunded run time strictly increases, and bursts say nothing at all. */
  lemma HardenedBurstsSilent(world: World, personas: seq<Persona>, cfg: SimConfig, adv: AdversaryConfig)
    requires Accepted(world, personas, cfg) && Hardened(cfg) && cfg.funding == None
    ensures var rs := Simulate(world, personas, cfg);
      && Increasing(rs) && Alone(Bursts(rs)) && TotalPairs(rs, Bursts(rs)) == 0
      && CopayEdges(rs, adv, Bursts(rs)) == {} && CoactEdges(rs, adv, Bursts(rs)) == {}
  {
    GoldenTicks(world, personas, cfg);
    UnfundedLedger(world, personas, cfg);
    hide Simulate, Golden, Alone, CopayEdges, CoactEdges, Bursts;
    var rs := Simulate(world, personas, cfg);
    BurstsAlone(rs);
    AlonePays(rs, adv, Bursts(rs));
    AlonePure(rs, Bursts(rs), |Bursts(rs)|);
    assert Bursts(rs)[..|Bursts(rs)|] == Bursts(rs);
  }

  lemma GoldenTicks(world: World, personas: seq<Persona>, cfg: SimConfig)
    requires Accepted(world, personas, cfg) && Hardened(cfg)
    ensures Increasing(Golden(world, personas, cfg).chain.records)
  {
    var w := Actions(world, cfg);
    FreshEntriesMatch(w, personas, cfg);
    FreshStart(w, personas, cfg);
    FinishTicking(w, FreshSetup(w, personas, cfg), FreshRun(w, personas, cfg));
  }
}
