/** The peel-chain and activation features of the learned adversary: counts per account pair. */
module Features {
  import opened Types
  import opened Sorting
  import opened Groups
  import opened Rules
  import opened PairRules
  import opened RecordPasses

  function PairKey(a: AccountId, b: AccountId): (p: (AccountId, AccountId))
    ensures p == (a, b) || p == (b, a)
    ensures p.0 <= p.1
  {
    if a <= b then (a, b) else (b, a)
  }

  /** The events of `seen` that count for the pair `p`. */
  ghost function Matching(seen: set<(nat, nat)>, key: (nat, nat) -> (AccountId, AccountId),
      p: (AccountId, AccountId)): set<(nat, nat)> {
    set e | e in seen && key(e.0, e.1) == p
  }

  /** The weight of every pair is the number of events counted for it. */
  ghost predicate Tallies(weight: Weights, seen: set<(nat, nat)>, key: (nat, nat) -> (AccountId, AccountId)) {
    forall p: (AccountId, AccountId) :: Wt(weight, p) == |Matching(seen, key, p)|
  }

  lemma TallyOne(weight: Weights, seen: set<(nat, nat)>, key: (nat, nat) -> (AccountId, AccountId), e: (nat, nat))
    requires Tallies(weight, seen, key) && e !in seen
    ensures Tallies(weight[key(e.0, e.1) := Wt(weight, key(e.0, e.1)) + 1], seen + {e}, key)
  {
    forall p: (AccountId, AccountId)
      ensures |Matching(seen + {e}, key, p)| == |Matching(seen, key, p)| + if key(e.0, e.1) == p then 1 else 0
    {
      MatchingOne(seen, key, e, p);
    }
    hide Matching;
  }

  lemma MatchingOne(seen: set<(nat, nat)>, key: (nat, nat) -> (AccountId, AccountId), e: (nat, nat),
      p: (AccountId, AccountId))
    requires e !in seen
    ensures |Matching(seen + {e}, key, p)| == |Matching(seen, key, p)| + if key(e.0, e.1) == p then 1 else 0
  {
    assert Matching(seen + {e}, key, p) == Matching(seen, key, p) + if key(e.0, e.1) == p then {e} else {};
  }

  lemma NothingTallied(key: (nat, nat) -> (AccountId, AccountId))
    ensures Tallies(map[], {}, key)
  {
  }

  // ---- (6) activation ----

  ghost function ActivationEvents(rs: Ledger, cfg: AdversaryConfig, n: nat): set<(nat, nat)>
    requires n <= |rs|
  {
    set i | 0 <= i < n && Activates(rs, cfg, rs[i]) :: (i, 0)
  }

  function ActivationKey(rs: Ledger): (nat, nat) -> (AccountId, AccountId) {
    (i: nat, z: nat) => PairKey(At(rs, i).source, At(rs, i).dest)
  }

  /** Counts, per account pair, the records that activate one of them from the other. */
  method ActivationFeature(rs: Ledger, cfg: AdversaryConfig) returns (activation: Weights)
    ensures Tallies(activation, ActivationEvents(rs, cfg, |rs|), ActivationKey(rs))
  {
    var first := FirstSourceAt(rs);
    var window := Max(cfg.activationWindowSecs, 0);
    activation := map[];
    assert Tallies(activation, ActivationEvents(rs, cfg, 0), ActivationKey(rs));
    hide Tallies, Activates, FirstSignings;
    for n := 0 to |rs|
      invariant Tallies(activation, ActivationEvents(rs, cfg, n), ActivationKey(rs))
    {
      var r := rs[n];
      ActivatesIffFirst(rs, cfg, r, first);
      if r.dest in first && r.amount > 0 && r.source != r.dest && first[r.dest] >= r.ts
        && SatSub(first[r.dest], r.ts) <= window {
        TallyOne(activation, ActivationEvents(rs, cfg, n), ActivationKey(rs), (n, 0));
        assert ActivationEvents(rs, cfg, n + 1) == ActivationEvents(rs, cfg, n) + {(n, 0)};
        var k := PairKey(r.source, r.dest);
        activation := activation[k := Wt(activation, k) + 1];
      } else {
        assert ActivationEvents(rs, cfg, n + 1) == ActivationEvents(rs, cfg, n);
      }
    }
  }

  // ---- (7) peel chains ----

  /** Record `j` forwards what record `i` delivered, to an account other than its origin. */
  ghost predicate PeelEvent(rs: Ledger, cfg: AdversaryConfig, i: nat, j: nat) {
    i < |rs| && j < |rs| && Peels(rs[i], rs[j], cfg) && rs[i].source != rs[j].dest
  }

  /** The quadratic scan over all record pairs whose first component is below `n`. */
  ghost function PeelEvents(rs: Ledger, cfg: AdversaryConfig, n: nat): set<(nat, nat)>
    requires n <= |rs|
  {
    set i, j | 0 <= i < n && 0 <= j < |rs| && PeelEvent(rs, cfg, i, j) :: (i, j)
  }

  function PeelKey(rs: Ledger): (nat, nat) -> (AccountId, AccountId) {
    (i: nat, j: nat) => PairKey(At(rs, i).source, At(rs, j).dest)
  }

  function SpendLeq(rs: Ledger): (nat, nat) -> bool {
    (i: nat, j: nat) => At(rs, i).ts < At(rs, j).ts || (At(rs, i).ts == At(rs, j).ts && At(rs, i).sig <= At(rs, j).sig)
  }

  /** `bucket` lists the value-moving records of source `s`, each once and in time order. */
  ghost predicate SpendsOf(rs: Ledger, s: AccountId, bucket: seq<nat>) {
    && NoDup(bucket) && Sorted(bucket, SpendLeq(rs))
    && forall i: nat :: i in bucket <==> i < |rs| && MovesValue(rs[i]) && rs[i].source == s
  }

  /** `bucket` lists the value-moving records of source `s` among the first `n`, each once. */
  ghost predicate Collected(rs: Ledger, n: nat, s: AccountId, bucket: seq<nat>)
    requires n <= |rs|
  {
    NoDup(bucket) && forall i: nat :: i in bucket <==> i < n && MovesValue(rs[i]) && rs[i].source == s
  }

  lemma CollectedNext(rs: Ledger, n: nat, s: AccountId, bucket: seq<nat>)
    requires n < |rs| && Collected(rs, n, s, bucket)
    ensures Collected(rs, n + 1, s, if MovesValue(rs[n]) && rs[n].source == s then bucket + [n] else bucket)
  {
    assert forall i: nat :: i in bucket + [n] <==> i in bucket || i == n;
  }

  lemma NoneCollected(rs: Ledger, n: nat, s: AccountId)
    requires n <= |rs| && forall i :: 0 <= i < n && MovesValue(rs[i]) ==> rs[i].source != s
    ensures Collected(rs, n, s, [])
  {
  }

  lemma SpendsSorted(rs: Ledger, s: AccountId, bucket: seq<nat>)
    requires Collected(rs, |rs|, s, bucket)
    ensures SpendsOf(rs, s, SortBy(bucket, SpendLeq(rs)))
  {
    assert TotalPreorder(SpendLeq(rs));
    SortBySorts(bucket, SpendLeq(rs));
    SortByNoDup(bucket, SpendLeq(rs));
  }

  /** The records of each source that move value, in time order. */
  method Spends(rs: Ledger) returns (bySource: map<AccountId, seq<nat>>)
    ensures forall s :: s in bySource ==> SpendsOf(rs, s, bySource[s])
    ensures forall i :: 0 <= i < |rs| && MovesValue(rs[i]) ==> rs[i].source in bySource
  {
    hide Collected, SpendsOf, SortBy;
    bySource := map[];
    for n := 0 to |rs|
      invariant forall s :: s in bySource ==> Collected(rs, n, s, bySource[s])
      invariant forall i :: 0 <= i < n && MovesValue(rs[i]) ==> rs[i].source in bySource
    {
      var r := rs[n];
      forall s | s in bySource
        ensures Collected(rs, n + 1, s, if MovesValue(r) && r.source == s then bySource[s] + [n] else bySource[s])
      {
        CollectedNext(rs, n, s, bySource[s]);
      }
      if r.amount > 0 && r.source != r.dest {
        if r.source !in bySource {
          NoneCollected(rs, n, r.source);
          CollectedNext(rs, n, r.source, []);
        }
        bySource := bySource[r.source := (if r.source in bySource then bySource[r.source] else []) + [n]];
      }
    }
    forall s | s in bySource ensures SpendsOf(rs, s, SortBy(bySource[s], SpendLeq(rs))) {
      SpendsSorted(rs, s, bySource[s]);
    }
    bySource := map s | s in bySource :: SortBy(bySource[s], SpendLeq(rs));
  }

  function SpendTimes(rs: Ledger, bucket: seq<nat>): (keys: seq<int>)
    ensures |keys| == |bucket| && forall k :: 0 <= k < |keys| ==> keys[k] == At(rs, bucket[k]).ts
  {
    seq(|bucket|, k requires 0 <= k < |bucket| => At(rs, bucket[k]).ts)
  }

  lemma SpendTimesAscend(rs: Ledger, bucket: seq<nat>)
    requires Sorted(bucket, SpendLeq(rs))
    ensures forall i, j :: 0 <= i < j < |bucket| ==> SpendTimes(rs, bucket)[i] <= SpendTimes(rs, bucket)[j]
  {
    forall i, j | 0 <= i < j < |bucket| ensures SpendTimes(rs, bucket)[i] <= SpendTimes(rs, bucket)[j] {
      assert SpendLeq(rs)(bucket[i], bucket[j]);
    }
  }

  /** The events of record `i` among the first `n` spends of its bucket. */
  ghost function EventsWithin(rs: Ledger, cfg: AdversaryConfig, i: nat, bucket: seq<nat>, n: nat): set<(nat, nat)>
    requires n <= |bucket|
  {
    set k | 0 <= k < n && PeelEvent(rs, cfg, i, bucket[k]) :: (i, bucket[k])
  }

  /** Counts the spends of `bucket` that continue record `i`. */
  method PeelFrom(rs: Ledger, cfg: AdversaryConfig, i: nat, bucket: seq<nat>, weight: Weights,
      ghost seen: set<(nat, nat)>)
    returns (peel: Weights)
    requires Searchable(rs, cfg) && i < |rs| && MovesValue(rs[i]) && SpendsOf(rs, rs[i].dest, bucket)
    requires Tallies(weight, seen, PeelKey(rs)) && forall j :: (i, j) !in seen
    ensures Tallies(peel, seen + EventsWithin(rs, cfg, i, bucket, |bucket|), PeelKey(rs))
  {
    hide Tallies, Peels;
    var r := rs[i];
    SpendTimesAscend(rs, bucket);
    var lo := PartitionPoint(SpendTimes(rs, bucket), r.ts, true);
    var hi := PartitionPoint(SpendTimes(rs, bucket), r.ts + cfg.temporalWindowSecs, false);
    OutsideRange(rs, cfg, i, bucket, lo, hi);
    hide EventsWithin;
    peel := weight;
    assert seen + {} == seen;
    for k := lo to hi
      invariant Tallies(peel, seen + EventsWithin(rs, cfg, i, bucket, k), PeelKey(rs))
    {
      peel := CountSpend(rs, cfg, i, bucket, k, peel, seen);
    }
  }

  /** Only the spends between the two bounds lie in the time window. */
  lemma OutsideRange(rs: Ledger, cfg: AdversaryConfig, i: nat, bucket: seq<nat>, lo: nat, hi: nat)
    requires Searchable(rs, cfg) && i < |rs| && MovesValue(rs[i]) && SpendsOf(rs, rs[i].dest, bucket)
    requires lo <= |bucket| && hi <= |bucket|
    requires forall k :: 0 <= k < |bucket| ==> (k < lo <==> At(rs, bucket[k]).ts < rs[i].ts)
    requires forall k :: 0 <= k < |bucket| ==> (k < hi <==> At(rs, bucket[k]).ts <= rs[i].ts + cfg.temporalWindowSecs)
    ensures lo <= hi && EventsWithin(rs, cfg, i, bucket, lo) == {}
    ensures EventsWithin(rs, cfg, i, bucket, |bucket|) == EventsWithin(rs, cfg, i, bucket, hi)
  {
    if hi < lo {
      assert bucket[hi] in bucket;
      assert Inverts(rs[i], rs[bucket[hi]], cfg);
    }
  }

  /** Spend `k` counts when it has another signature, nearly the amount and another destination. */
  method CountSpend(rs: Ledger, cfg: AdversaryConfig, i: nat, bucket: seq<nat>, k: nat, weight: Weights,
      ghost seen: set<(nat, nat)>)
    returns (peel: Weights)
    requires i < |rs| && MovesValue(rs[i]) && SpendsOf(rs, rs[i].dest, bucket) && k < |bucket|
    requires rs[i].ts <= At(rs, bucket[k]).ts <= rs[i].ts + cfg.temporalWindowSecs
    requires Tallies(weight, seen + EventsWithin(rs, cfg, i, bucket, k), PeelKey(rs)) && forall j :: (i, j) !in seen
    ensures Tallies(peel, seen + EventsWithin(rs, cfg, i, bucket, k + 1), PeelKey(rs))
  {
    hide Tallies, Tolerance, NearlySame;
    peel := weight;
    assert bucket[k] in bucket;
    var r, b := rs[i], rs[bucket[k]];
    NearlySameIff(r.amount, b.amount, cfg);
    if r.sig != b.sig && AbsDiff(r.amount, b.amount) <= Tolerance(r.amount, cfg) && r.source != b.dest {
      EventNew(rs, cfg, i, bucket, k);
      TallyOne(peel, seen + EventsWithin(rs, cfg, i, bucket, k), PeelKey(rs), (i, bucket[k]));
      var key := PairKey(r.source, b.dest);
      peel := peel[key := Wt(peel, key) + 1];
      assert seen + EventsWithin(rs, cfg, i, bucket, k) + {(i, bucket[k])} == seen + EventsWithin(rs, cfg, i, bucket, k + 1);
    } else {
      assert EventsWithin(rs, cfg, i, bucket, k + 1) == EventsWithin(rs, cfg, i, bucket, k);
    }
  }

  lemma EventNew(rs: Ledger, cfg: AdversaryConfig, i: nat, bucket: seq<nat>, k: nat)
    requires k < |bucket| && NoDup(bucket) && PeelEvent(rs, cfg, i, bucket[k])
    ensures (i, bucket[k]) !in EventsWithin(rs, cfg, i, bucket, k)
    ensures EventsWithin(rs, cfg, i, bucket, k + 1) == EventsWithin(rs, cfg, i, bucket, k) + {(i, bucket[k])}
  {
  }

  lemma PeelRow(rs: Ledger, cfg: AdversaryConfig, n: nat, bucket: seq<nat>)
    requires n < |rs| && (MovesValue(rs[n]) ==> SpendsOf(rs, rs[n].dest, bucket))
    ensures PeelEvents(rs, cfg, n + 1) ==
      PeelEvents(rs, cfg, n) + if MovesValue(rs[n]) then EventsWithin(rs, cfg, n, bucket, |bucket|) else {}
  {
  }

  /** The range search counts, per account pair, exactly what the quadratic scan would. */
  method PeelFeature(rs: Ledger, cfg: AdversaryConfig) returns (peel: Weights)
    requires Searchable(rs, cfg)
    ensures Tallies(peel, PeelEvents(rs, cfg, |rs|), PeelKey(rs))
  {
    hide EventsWithin, SpendsOf, Tallies;
    var bySource := Spends(rs);
    peel := map[];
    NothingTallied(PeelKey(rs));
    assert PeelEvents(rs, cfg, 0) == {};
    hide PeelEvents;
    for n := 0 to |rs|
      invariant Tallies(peel, PeelEvents(rs, cfg, n), PeelKey(rs))
    {
      var r := rs[n];
      if r.amount > 0 && r.source != r.dest && r.dest in bySource {
        var bucket := bySource[r.dest];
        PeelRow(rs, cfg, n, bucket);
        peel := PeelFrom(rs, cfg, n, bucket, peel, PeelEvents(rs, cfg, n));
      } else {
        NoPeelRow(rs, cfg, n);
      }
    }
  }

  lemma NoPeelRow(rs: Ledger, cfg: AdversaryConfig, n: nat)
    requires n < |rs| && forall j :: 0 <= j < |rs| ==> !PeelEvent(rs, cfg, n, j)
    ensures PeelEvents(rs, cfg, n + 1) == PeelEvents(rs, cfg, n)
  {
  }
}
