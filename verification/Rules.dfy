/** What each clustering rule links, stated over whole ledgers without any index or search order. */
module Rules {
  import opened Types
  import opened Graph
  import opened Sorting
  import opened Groups

  /** The on/off switches of an adversary configuration. */
  datatype RuleSet = RuleSet(
    feePayer: bool,
    cospend: bool,
    temporalAmount: bool,
    activationLineage: bool,
    burstCopay: bool,
    burstCoactivity: bool,
    burstUnionCeiling: bool,
    funderGraph: bool)

  /** Its thresholds, windows and caps. */
  datatype AdversaryConfig = AdversaryConfig(
    temporalWindowSecs: int,
    amountToleranceBps: nat,
    activationWindowSecs: int,
    copayMinSources: nat,
    copayMinSharedBuckets: nat,
    coactivityMinSharedBursts: nat,
    burstMaxSources: nat,
    copayMinAmount: nat,
    useWindowed: bool,
    windowSecs: int,
    funderMinFundees: nat,
    funderMaxSources: nat)

  // ---- (1) fee-payer linkage ----

  ghost function FeeEdges(rs: Ledger): Edges {
    set r | r in rs :: (r.feePayer, r.source)
  }

  // ---- (2) structural consolidation ----

  /** A positive payment between two different accounts. */
  predicate MovesValue(r: TxRecord) {
    r.amount > 0 && r.source != r.dest
  }

  function HubSources(rs: Ledger, d: AccountId): set<AccountId> {
    set r | r in rs && MovesValue(r) && r.dest == d :: r.source
  }

  ghost predicate IsHub(rs: Ledger, cfg: AdversaryConfig, d: AccountId) {
    d in Sources(rs) && 2 <= |HubSources(rs, d)| <= cfg.burstMaxSources
  }

  ghost function HubEdges(rs: Ledger, cfg: AdversaryConfig): Edges {
    set r | r in rs && MovesValue(r) && IsHub(rs, cfg, r.dest) :: (r.dest, r.source)
  }

  // ---- (3) peel chains ----

  function AbsDiff(a: nat, b: nat): nat {
    if a >= b then a - b else b - a
  }

  const U64_SIZE: nat := 0x1_0000_0000_0000_0000

  /** The product is 128 bits wide; the quotient is truncated back to 64. */
  function Tolerance(amount: nat, cfg: AdversaryConfig): nat {
    (amount * cfg.amountToleranceBps / 10_000) % U64_SIZE
  }

  /** The tolerated share of `amount` fits 64 bits. */
  predicate Untruncated(amount: nat, cfg: AdversaryConfig) {
    amount * cfg.amountToleranceBps < 10_000 * U64_SIZE
  }

  /** `other` is at most so many ten-thousandths of `amount` away from it, in either direction. */
  predicate Close(amount: nat, other: nat, cfg: AdversaryConfig) {
    && 10_000 * amount <= 10_000 * other + amount * cfg.amountToleranceBps
    && 10_000 * other <= 10_000 * amount + amount * cfg.amountToleranceBps
  }

  /** How often the tolerated share of `amount` exceeds 64 bits. */
  function Excess(amount: nat, cfg: AdversaryConfig): nat {
    amount * cfg.amountToleranceBps / 10_000 / U64_SIZE
  }

  /** The tolerated differences are the whole ten-thousandths of the amount, less what exceeds 64 bits. */
  lemma ToleranceIs(amount: nat, d: nat, cfg: AdversaryConfig)
    ensures Tolerance(amount, cfg) < U64_SIZE && (Excess(amount, cfg) == 0 <==> Untruncated(amount, cfg))
    ensures d <= Tolerance(amount, cfg) <==>
      10_000 * (d + Excess(amount, cfg) * U64_SIZE) <= amount * cfg.amountToleranceBps
  {
    var product := amount * cfg.amountToleranceBps;
    assert product / 10_000 == Excess(amount, cfg) * U64_SIZE + Tolerance(amount, cfg);
  }

  /** Untruncated, the test of the original is that two amounts are close. */
  lemma ToleratedIff(amount: nat, other: nat, cfg: AdversaryConfig)
    requires Untruncated(amount, cfg)
    ensures AbsDiff(amount, other) <= Tolerance(amount, cfg) <==> Close(amount, other, cfg)
  {
    ToleranceIs(amount, AbsDiff(amount, other), cfg);
  }

  /** Tolerances of at most the whole amount are never truncated for 64-bit amounts. */
  lemma NeverTruncated(amount: nat, cfg: AdversaryConfig)
    requires amount < U64_SIZE && cfg.amountToleranceBps <= 10_000
    ensures Untruncated(amount, cfg)
  {
    Scaled(amount, cfg.amountToleranceBps, 10_000);
  }

  lemma Scaled(a: nat, b: nat, c: nat)
    requires b <= c
    ensures a * b <= a * c
  {
  }

  /** Nearly the same value: close amounts, or the truncated test where the share exceeds 64 bits. */
  predicate NearlySame(amount: nat, other: nat, cfg: AdversaryConfig) {
    if Untruncated(amount, cfg) then Close(amount, other, cfg) else AbsDiff(amount, other) <= Tolerance(amount, cfg)
  }

  lemma NearlySameIff(amount: nat, other: nat, cfg: AdversaryConfig)
    ensures NearlySame(amount, other, cfg) <==> AbsDiff(amount, other) <= Tolerance(amount, cfg)
  {
    if Untruncated(amount, cfg) {
      ToleratedIff(amount, other, cfg);
    }
  }

  /** `b` forwards what `a` delivered: the next hop, soon enough, of nearly the same value. */
  predicate Peels(a: TxRecord, b: TxRecord, cfg: AdversaryConfig) {
    && MovesValue(a) && MovesValue(b)
    && b.source == a.dest
    && a.ts <= b.ts <= a.ts + cfg.temporalWindowSecs
    && NearlySame(a.amount, b.amount, cfg)
    && a.sig != b.sig
  }

  ghost function PeelEdges(rs: Ledger, cfg: AdversaryConfig): Edges {
    set a, b | a in rs && b in rs && Peels(a, b, cfg) :: (a.source, b.dest)
  }

  /** `b` spends from what `a` pays into, before `a` and yet later than a negative window allows. */
  predicate Inverts(a: TxRecord, b: TxRecord, cfg: AdversaryConfig) {
    MovesValue(a) && MovesValue(b) && b.source == a.dest && a.ts + cfg.temporalWindowSecs < b.ts < a.ts
  }

  /** No range of the peel-chain search ends before it starts, which the original could not slice. */
  ghost predicate Searchable(rs: Ledger, cfg: AdversaryConfig) {
    forall a, b :: a in rs && b in rs ==> !Inverts(a, b, cfg)
  }

  /** The search never stops iff the window is at least minus one second. */
  lemma SearchableIff(cfg: AdversaryConfig)
    ensures (forall rs: Ledger :: Searchable(rs, cfg)) <==> cfg.temporalWindowSecs >= -1
  {
    if cfg.temporalWindowSecs < -1 {
      BelowMinusOne(cfg);
    }
  }

  /** Two payments of which the second record is one second older than the first, and spends from it. */
  function SpentBefore(): Ledger {
    [TxRecord(1, 1, 1, 9, 1, 2, 1, Transfer, None), TxRecord(2, 2, 0, 9, 2, 3, 1, Transfer, None)]
  }

  lemma BelowMinusOne(cfg: AdversaryConfig)
    requires cfg.temporalWindowSecs < -1
    ensures !Searchable(SpentBefore(), cfg)
  {
    var rs := SpentBefore();
    assert rs[0] in rs && rs[1] in rs && Inverts(rs[0], rs[1], cfg);
  }

  // ---- (4) account-activation lineage ----

  /** `b` is a first transaction signed by its source. */
  ghost predicate FirstSigning(rs: Ledger, b: TxRecord) {
    b in rs && forall c :: c in rs && c.source == b.source ==> b.ts <= c.ts
  }

  /** Value enters `r.dest`, which first signs between then and the end of the window. */
  ghost predicate Activates(rs: Ledger, cfg: AdversaryConfig, r: TxRecord) {
    MovesValue(r) && exists b :: FirstSigning(rs, b) && ActivatedBy(cfg, r, b)
  }

  predicate ActivatedBy(cfg: AdversaryConfig, r: TxRecord, b: TxRecord) {
    b.source == r.dest && b.ts >= r.ts && SatSub(b.ts, r.ts) <= Max(cfg.activationWindowSecs, 0)
  }

  /** For 64-bit times no subtraction of the test saturates below the largest window. */
  lemma ActivatedWithin(cfg: AdversaryConfig, r: TxRecord, b: TxRecord)
    requires cfg.activationWindowSecs < I64_MAX
    ensures ActivatedBy(cfg, r, b) <==>
      b.source == r.dest && r.ts <= b.ts && (b.ts == r.ts || b.ts <= r.ts + cfg.activationWindowSecs)
  {
  }

  ghost function ActivationEdges(rs: Ledger, cfg: AdversaryConfig): Edges {
    set r | r in rs && Activates(rs, cfg, r) :: (r.source, r.dest)
  }

  // ---- repetition-thresholded pair rules ----

  /** The source sets a pair rule counts over: one set of accounts per bucket key. */
  type Buckets = (nat, nat) -> set<AccountId>

  /** The keys of the buckets of admissible size that hold both `x` and `y`. */
  ghost function Shared(keys: set<(nat, nat)>, bucket: Buckets, lo: nat, hi: nat, x: AccountId, y: AccountId):
    set<(nat, nat)>
  {
    set k | k in keys && lo <= |bucket(k.0, k.1)| <= hi && x in bucket(k.0, k.1) && y in bucket(k.0, k.1)
  }

  /** Pairs that share at least `threshold` buckets, and at least one. */
  ghost function RepeatEdges(rs: Ledger, keys: set<(nat, nat)>, bucket: Buckets, lo: nat, hi: nat,
      threshold: nat): Edges {
    set x, y | x in Sources(rs) && y in Sources(rs) && x < y
      && |Shared(keys, bucket, lo, hi, x, y)| >= Max(threshold, 1) :: (x, y)
  }

  function GroupSources(rs: Ledger, g: seq<nat>): set<AccountId> {
    set i | i in g :: At(rs, i).source
  }

  // ---- (4b) co-payment ----

  function PaySources(rs: Ledger, cfg: AdversaryConfig, g: seq<nat>, d: AccountId): set<AccountId> {
    set i | i in g && At(rs, i).amount >= cfg.copayMinAmount && At(rs, i).dest == d :: At(rs, i).source
  }

  /** Bucket `(k, d)`: who pays destination `d` inside group `k`. */
  function PayBucket(rs: Ledger, cfg: AdversaryConfig, groups: seq<seq<nat>>): Buckets {
    (k: nat, d: nat) => if k < |groups| then PaySources(rs, cfg, groups[k], d) else {}
  }

  ghost function GroupKeys(groups: seq<seq<nat>>, ds: set<nat>): set<(nat, nat)> {
    set k, d | 0 <= k < |groups| && d in ds :: (k, d)
  }

  ghost function CopayEdges(rs: Ledger, cfg: AdversaryConfig, groups: seq<seq<nat>>): Edges {
    RepeatEdges(rs, GroupKeys(groups, Dests(rs)), PayBucket(rs, cfg, groups),
                cfg.copayMinSources, cfg.burstMaxSources, cfg.copayMinSharedBuckets)
  }

  /** The payments into `d`, in time order. */
  function PaymentsTo(rs: Ledger, cfg: AdversaryConfig, d: AccountId): seq<nat> {
    SortBy<nat>(PayingIndices(rs, cfg, d, |rs|), ByTime(rs))
  }

  function PayingIndices(rs: Ledger, cfg: AdversaryConfig, d: AccountId, n: nat): seq<nat>
    requires n <= |rs|
  {
    if n == 0 then []
    else if rs[n - 1].dest == d && rs[n - 1].amount >= cfg.copayMinAmount
    then PayingIndices(rs, cfg, d, n - 1) + [n - 1]
    else PayingIndices(rs, cfg, d, n - 1)
  }

  /** Destination-local episodes: payments into `d` with no gap above the window. */
  function Episodes(rs: Ledger, cfg: AdversaryConfig, d: AccountId): seq<seq<nat>> {
    Runs(PaymentsTo(rs, cfg, d), WindowJoins(rs, cfg.windowSecs))
  }

  /** Bucket `(d, k)`: who pays into `d` during its episode `k`. */
  function EpisodeBucket(rs: Ledger, cfg: AdversaryConfig): Buckets {
    (d: nat, k: nat) => if k < |Episodes(rs, cfg, d)| then GroupSources(rs, Episodes(rs, cfg, d)[k]) else {}
  }

  /** Only destinations that themselves sign somewhere are considered. */
  ghost function EpisodeKeys(rs: Ledger, cfg: AdversaryConfig): set<(nat, nat)> {
    set d, k | d in Dests(rs) * Sources(rs) && 0 <= k < |Episodes(rs, cfg, d)| :: (d, k)
  }

  ghost function WindowedCopayEdges(rs: Ledger, cfg: AdversaryConfig): Edges {
    RepeatEdges(rs, EpisodeKeys(rs, cfg), EpisodeBucket(rs, cfg),
                cfg.copayMinSources, cfg.burstMaxSources, cfg.copayMinSharedBuckets)
  }

  // ---- (5) co-activity ----

  function SponsoredSources(rs: Ledger, g: seq<nat>): set<AccountId> {
    set i | i in g && At(rs, i).feePayer != At(rs, i).source :: At(rs, i).source
  }

  /** Bucket `(k, 0)`: the sources of sponsored transactions in group `k`. */
  function SponsoredBucket(rs: Ledger, groups: seq<seq<nat>>): Buckets {
    (k: nat, z: nat) => if k < |groups| then SponsoredSources(rs, groups[k]) else {}
  }

  ghost function CoactEdges(rs: Ledger, cfg: AdversaryConfig, groups: seq<seq<nat>>): Edges {
    RepeatEdges(rs, GroupKeys(groups, {0}), SponsoredBucket(rs, groups),
                2, cfg.burstMaxSources, cfg.coactivityMinSharedBursts)
  }

  // ---- (6) ceiling ablation ----

  ghost function CeilingEdges(rs: Ledger, cfg: AdversaryConfig, groups: seq<seq<nat>>): Edges {
    set x, y | x in Sources(rs) && y in Sources(rs) && InCeilingGroup(rs, cfg, groups, x, y) :: (x, y)
  }

  ghost predicate InCeilingGroup(rs: Ledger, cfg: AdversaryConfig, groups: seq<seq<nat>>, x: AccountId, y: AccountId) {
    exists k :: 0 <= k < |groups| && CeilingGroup(rs, cfg, groups[k])
      && x in GroupSources(rs, groups[k]) && y in GroupSources(rs, groups[k])
  }

  predicate CeilingGroup(rs: Ledger, cfg: AdversaryConfig, g: seq<nat>) {
    2 <= |GroupSources(rs, g)| <= cfg.burstMaxSources
  }

  // ---- (7) common-funder graph ----

  /** Fee-payers that `f` sends value to. */
  function Children(rs: Ledger, f: AccountId): set<AccountId> {
    set r | r in rs && r.source == f && r.source != r.dest && r.dest in FeePayers(rs) :: r.dest
  }

  /** Sources whose fees were paid by one of `fps`. */
  function Reached(rs: Ledger, fps: set<AccountId>): set<AccountId> {
    set r | r in rs && r.feePayer != r.source && r.feePayer in fps :: r.source
  }

  predicate FunderPattern(rs: Ledger, cfg: AdversaryConfig, f: AccountId) {
    && |Children(rs, f)| >= cfg.funderMinFundees
    && 2 <= |Reached(rs, Children(rs, f))| <= cfg.funderMaxSources
  }

  ghost function FunderEdges(rs: Ledger, cfg: AdversaryConfig): Edges {
    set f, s | f in Sources(rs) && FunderPattern(rs, cfg, f) && s in Reached(rs, Children(rs, f)) :: (f, s)
  }

  // ---- the enabled rules together ----

  function ConfiguredGroups(rs: Ledger, cfg: AdversaryConfig): seq<seq<nat>> {
    if cfg.useWindowed then Windows(rs, cfg.windowSecs) else Bursts(rs)
  }

  ghost function When(enabled: bool, E: Edges): Edges {
    if enabled then E else {}
  }

  /** Co-payment over bursts, or over destination-local episodes when windowed. */
  ghost function CopayRule(rs: Ledger, cfg: AdversaryConfig): Edges {
    if cfg.useWindowed then WindowedCopayEdges(rs, cfg) else CopayEdges(rs, cfg, Bursts(rs))
  }

  /** Edges of the rules that look at single records. */
  ghost function RecordRules(rs: Ledger, on: RuleSet, cfg: AdversaryConfig): Edges {
    {}
    + When(on.feePayer, FeeEdges(rs))
    + When(on.cospend, HubEdges(rs, cfg))
    + When(on.temporalAmount, PeelEdges(rs, cfg))
    + When(on.activationLineage, ActivationEdges(rs, cfg))
  }

  ghost function RuleEdges(rs: Ledger, on: RuleSet, cfg: AdversaryConfig): Edges {
    RecordRules(rs, on, cfg)
    + When(on.burstCopay, CopayRule(rs, cfg))
    + When(on.burstCoactivity, CoactEdges(rs, cfg, Bursts(rs)))
    + When(on.funderGraph, FunderEdges(rs, cfg))
    + When(on.burstUnionCeiling, CeilingEdges(rs, cfg, ConfiguredGroups(rs, cfg)))
  }

  /** Every rule of `r` is enabled in `s`. */
  predicate Within(r: RuleSet, s: RuleSet) {
    && (r.feePayer ==> s.feePayer)
    && (r.cospend ==> s.cospend)
    && (r.temporalAmount ==> s.temporalAmount)
    && (r.activationLineage ==> s.activationLineage)
    && (r.burstCopay ==> s.burstCopay)
    && (r.burstCoactivity ==> s.burstCoactivity)
    && (r.burstUnionCeiling ==> s.burstUnionCeiling)
    && (r.funderGraph ==> s.funderGraph)
  }
}
