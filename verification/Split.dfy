/** The deterministic draw stream behind every random choice. */
module Streams {
  import opened Types

  const UNIT_STEPS: nat := 0x20_0000_0000_0000

  /** A uniform draw from [0, 1), as a count of 2^-53 steps. */
  type Unit = n: nat | n < UNIT_STEPS witness 0

  /**
   * A seeded generator: what a draw of each type returns at each position. The generator state is
   * the position, so equal states continue with equal draws. `below(p, n)` is a uniform draw below
   * `n`; `delay` is the circadian delay model: persona profile, second of day and position give a
   * whole number of seconds.
   */
  datatype Stream = Stream(
    id: nat -> AccountId,
    word: nat -> nat,
    below: (nat, nat) -> nat,
    unit: nat -> Unit,
    delay: (nat, nat, nat) -> nat)

  type Rng = nat

  /** `random_range(lo..=hi)`. */
  function Range(w: Stream, rng: Rng, lo: int, hi: int): (r: int)
    requires lo <= hi
    ensures lo <= r <= hi
  {
    lo + Index(w, rng, hi - lo + 1)
  }

  /** `random_range(0..n)`. */
  function Index(w: Stream, rng: Rng, n: nat): (r: nat)
    requires n > 0
    ensures r < n
  {
    if w.below(rng, n) < n then w.below(rng, n) else 0
  }

  /** A 64-bit float as the fraction it stands for. */
  datatype Fraction = Fraction(num: int, den: nat) {
    function Value(): real {
      if den == 0 then 0.0 else num as real / den as real
    }
  }

  /** `random::<f64>() < p`. */
  predicate Chance(w: Stream, rng: Rng, p: real) {
    w.unit(rng) as real < p * UNIT_STEPS as real
  }

  /** Any two identifiers drawn before position `n` differ. */
  ghost predicate DistinctIds(w: Stream, n: Rng) {
    forall p: nat, q: nat :: p < n && q < n && w.id(p) == w.id(q) ==> p == q
  }

  /** Identifiers count up; every other draw but that of a unit is as small as it can be. */
  function Plain(unit: nat -> Unit): Stream {
    Stream((p: nat) => p, (p: nat) => 0, (p: nat, n: nat) => 0, unit, (profile: nat, at: nat, p: nat) => 1)
  }

  /** The stream of smallest draws. */
  function Plainest(): Stream {
    Plain((p: nat) => 0)
  }
}

/** Value splitting: one payment into several parts with an exact sum and a floor. */
module Splitting {
  import opened Types
  import opened Streams

  datatype SplitPolicy = SplitPolicy(minParts: nat, maxParts: nat, minPartLamports: nat)

  function Total(s: seq<nat>): nat {
    if s == [] then 0 else Total(s[..|s| - 1]) + s[|s| - 1]
  }

  function Floor(policy: SplitPolicy): (b: nat)
    ensures b >= 1
  {
    if policy.minPartLamports >= 1 then policy.minPartLamports else 1
  }

  /** Bounds on the number of parts, clamped to what the floor can afford. */
  function MaxParts(total: nat, policy: SplitPolicy): (n: nat)
    requires total > Floor(policy)
    ensures 1 <= n <= total / Floor(policy)
  {
    var feasible := total / Floor(policy);
    var n := if policy.maxParts >= 1 then Min(policy.maxParts, feasible) else Min(1, feasible);
    assert feasible >= 1;
    n
  }

  lemma Affordable(total: nat, base: nat, n: nat)
    requires base >= 1 && n <= total / base
    ensures base * n <= total
  {
    assert base * (total / base) <= total;
    assert base * n <= base * (total / base);
  }

  function MinParts(total: nat, policy: SplitPolicy): (n: nat)
    requires total > Floor(policy)
    ensures 1 <= n <= MaxParts(total, policy)
  {
    Clamp(policy.minParts, 1, MaxParts(total, policy))
  }

  /** The number of parts, and the position after drawing it when there is a choice. */
  function PartCount(w: Stream, rng: Rng, total: nat, policy: SplitPolicy): (r: (nat, Rng))
    requires total > Floor(policy)
    ensures MinParts(total, policy) <= r.0 <= MaxParts(total, policy)
  {
    var (lo, hi) := (MinParts(total, policy), MaxParts(total, policy));
    if lo >= hi then (hi, rng) else (Range(w, rng, lo, hi), rng + 1)
  }

  /** A uniform draw plus one hundredth, in units of 2^-53 / 100. */
  function WeightAt(w: Stream, rng: Rng): (x: nat)
    ensures x > 0
  {
    100 * w.unit(rng) + UNIT_STEPS
  }

  function Weights(w: Stream, rng: Rng, n: nat): (ws: seq<nat>)
    ensures |ws| == n && forall i :: 0 <= i < n ==> ws[i] > 0
  {
    if n == 0 then [] else Weights(w, rng, n - 1) + [WeightAt(w, rng + n - 1)]
  }

  /** The whole lamports of `remainder` that go to weight `x` out of `wsum`. */
  function Share(x: nat, wsum: nat, remainder: nat): nat
    requires wsum > 0
  {
    x * remainder / wsum
  }

  lemma ShareBound(x: nat, wsum: nat, remainder: nat)
    requires wsum > 0
    ensures Share(x, wsum, remainder) * wsum <= x * remainder
  {
    var n := x * remainder;
    assert n / wsum * wsum <= n;
  }

  lemma {:induction false} TotalPositive(ws: seq<nat>)
    requires ws != [] && forall i :: 0 <= i < |ws| ==> ws[i] > 0
    ensures Total(ws) > 0
  {
    if |ws| > 1 {
      TotalPositive(ws[..|ws| - 1]);
    }
  }

  /** The shares alone, and with the floor added to each. */
  function Shares(ws: seq<nat>, wsum: nat, remainder: nat): (shares: seq<nat>)
    requires wsum > 0
    ensures |shares| == |ws|
  {
    if ws == [] then []
    else Shares(ws[..|ws| - 1], wsum, remainder) + [Share(ws[|ws| - 1], wsum, remainder)]
  }

  function Raised(shares: seq<nat>, base: nat): (parts: seq<nat>)
    ensures |parts| == |shares|
    ensures forall i :: 0 <= i < |shares| ==> parts[i] == base + shares[i]
  {
    seq(|shares|, i requires 0 <= i < |shares| => base + shares[i])
  }

  lemma {:induction false} SharesBounded(ws: seq<nat>, wsum: nat, remainder: nat)
    requires wsum > 0
    ensures Total(Shares(ws, wsum, remainder)) * wsum <= Total(ws) * remainder
    decreases |ws|
  {
    if ws != [] {
      var init, last := ws[..|ws| - 1], ws[|ws| - 1];
      SharesBounded(init, wsum, remainder);
      ShareBound(last, wsum, remainder);
      assert Shares(ws, wsum, remainder)[..|ws| - 1] == Shares(init, wsum, remainder);
      Distribute(Total(Shares(init, wsum, remainder)), Share(last, wsum, remainder), wsum);
      Distribute(Total(init), last, remainder);
    }
  }

  lemma Distribute(a: int, b: int, c: int)
    ensures (a + b) * c == a * c + b * c
  {
  }

  lemma GreaterScales(a: nat, b: nat, c: nat)
    requires c > 0 && a > b
    ensures a * c > c * b
  {
    assert (a - b) * c > 0;
  }

  lemma {:induction false} RaisedTotal(shares: seq<nat>, base: nat)
    ensures Total(Raised(shares, base)) == base * |shares| + Total(shares)
    decreases |shares|
  {
    if shares != [] {
      var init := shares[..|shares| - 1];
      RaisedTotal(init, base);
      assert Raised(shares, base)[..|shares| - 1] == Raised(init, base);
      Distribute(|init|, 1, base);
    }
  }

  /** The parts before the rounding leftover is placed. */
  function Floored(ws: seq<nat>, base: nat, remainder: nat): (parts: seq<nat>)
    requires ws != [] && forall i :: 0 <= i < |ws| ==> ws[i] > 0
    ensures |parts| == |ws|
  {
    TotalPositive(ws);
    Raised(Shares(ws, Total(ws), remainder), base)
  }

  /** Flooring never hands out more than the remainder. */
  lemma FlooredWithin(ws: seq<nat>, base: nat, remainder: nat)
    requires ws != [] && forall i :: 0 <= i < |ws| ==> ws[i] > 0
    ensures base * |ws| <= Total(Floored(ws, base, remainder)) <= base * |ws| + remainder
  {
    TotalPositive(ws);
    SharesBounded(ws, Total(ws), remainder);
    if Total(Shares(ws, Total(ws), remainder)) > remainder {
      GreaterScales(Total(Shares(ws, Total(ws), remainder)), remainder, Total(ws));
    }
    RaisedTotal(Shares(ws, Total(ws), remainder), base);
  }

  /** `n` parts of `total`, the floor first, the rest by weight, the leftover on a drawn part. */
  function SplitInto(w: Stream, rng: Rng, total: nat, base: nat, n: nat): seq<nat>
    requires n >= 1 && base * n <= total
  {
    var ws := Weights(w, rng, n);
    FlooredWithin(ws, base, total - base * n);
    var parts := Floored(ws, base, total - base * n);
    var idx := Index(w, rng + n, n);
    parts[idx := parts[idx] + (total - Total(parts))]
  }

  /** The parts of `total` and the position after all draws. */
  function SplitAmount(w: Stream, rng: Rng, total: nat, policy: SplitPolicy): (r: (seq<nat>, Rng))
  {
    if total == 0 then ([], rng)
    else if total <= Floor(policy) then ([total], rng)
    else
      var (n, rng1) := PartCount(w, rng, total, policy);
      Affordable(total, Floor(policy), n);
      (SplitInto(w, rng1, total, Floor(policy), n), rng1 + n + 1)
  }

  lemma {:induction false} TotalUpdate(s: seq<nat>, k: nat, v: nat)
    requires k < |s|
    ensures Total(s[k := s[k] + v]) == Total(s) + v
    decreases |s|
  {
    var t := s[k := s[k] + v];
    if k == |s| - 1 {
      assert t[..|s| - 1] == s[..|s| - 1];
    } else {
      TotalUpdate(s[..|s| - 1], k, v);
      assert t[..|s| - 1] == s[..|s| - 1][k := s[k] + v];
    }
  }

  /**
   * The parts sum exactly to the total. Their number respects the policy as far as the floor can
   * afford it, and every part reaches the floor unless the total itself is all there is.
   */
  lemma SplitExact(w: Stream, rng: Rng, total: nat, policy: SplitPolicy)
    ensures var parts := SplitAmount(w, rng, total, policy).0;
      && Total(parts) == total
      && (parts == [] <==> total == 0)
      && (0 < total <= Floor(policy) ==> parts == [total])
      && (total > Floor(policy) ==>
            MinParts(total, policy) <= |parts| <= MaxParts(total, policy)
            && forall i :: 0 <= i < |parts| ==> parts[i] >= Floor(policy))
  {
    if total > Floor(policy) {
      var (n, rng1) := PartCount(w, rng, total, policy);
      Affordable(total, Floor(policy), n);
      SplitIntoExact(w, rng1, total, Floor(policy), n);
    }
  }

  lemma SplitIntoExact(w: Stream, rng: Rng, total: nat, base: nat, n: nat)
    requires n >= 1 && base * n <= total
    ensures var parts := SplitInto(w, rng, total, base, n);
      Total(parts) == total && |parts| == n && forall i :: 0 <= i < n ==> parts[i] >= base
  {
    var ws := Weights(w, rng, n);
    FlooredWithin(ws, base, total - base * n);
    var parts := Floored(ws, base, total - base * n);
    TotalUpdate(parts, Index(w, rng + n, n), total - Total(parts));
  }

  /**
   * There may be as many parts as the policy allows and the floor can afford, and there are at least as
   * many as the policy asks for, if that many are allowed and can be afforded.
   */
  lemma PartBounds(total: nat, policy: SplitPolicy)
    requires total > Floor(policy)
    ensures var (lo, hi) := (MinParts(total, policy), MaxParts(total, policy));
      && (forall n: nat :: Allowed(total, policy, n) ==> n <= hi) && Allowed(total, policy, hi)
      && 1 <= lo <= hi && (1 <= policy.minParts <= hi ==> lo == policy.minParts) && (policy.minParts > hi ==> lo == hi)
      && (policy.minParts == 0 ==> lo == 1)
  {
    var base, hi := Floor(policy), MaxParts(total, policy);
    Affordable(total, base, hi);
    forall n: nat | Allowed(total, policy, n) ensures n <= hi {
      AtMost(n, base, total);
    }
  }

  lemma AtMost(n: nat, base: nat, total: nat)
    requires base >= 1 && n * base <= total
    ensures n <= total / base
  {
    var q := total / base;
    Distribute(q, 1, base);
    Cancel(n, q + 1, base);
  }

  /** `n` parts are no more than the policy allows, but one at least, and the floor can be afforded for each. */
  predicate Allowed(total: nat, policy: SplitPolicy, n: nat) {
    n <= Max(policy.maxParts, 1) && n * Floor(policy) <= total
  }

  /** Every number of parts within the bounds is drawn by some stream. */
  lemma EveryPartCount(w: Stream, rng: Rng, total: nat, policy: SplitPolicy, n: nat)
    requires total > Floor(policy) && MinParts(total, policy) <= n <= MaxParts(total, policy)
    ensures exists v: Stream :: |SplitAmount(v, rng, total, policy).0| == n
  {
    var v := w.(below := (p: nat, m: nat) => (n - MinParts(total, policy)) as nat);
    assert PartCount(v, rng, total, policy).0 == n;
    Affordable(total, Floor(policy), n);
    hide SplitInto;
    SplitIntoExact(v, PartCount(v, rng, total, policy).1, total, Floor(policy), n);
    assert |SplitAmount(v, rng, total, policy).0| == n;
  }

  // ---- how evenly ----

  /**
   * `part` is the whole share of `remainder` that is due to weight `x` out of `wsum`, or exceeds it by at
   * most `extra`.
   */
  predicate Fair(part: int, extra: nat, x: nat, wsum: nat, remainder: nat) {
    (part - extra) * wsum <= x * remainder < (part + 1) * wsum
  }

  lemma ShareDue(x: nat, wsum: nat, remainder: nat)
    requires wsum > 0
    ensures Fair(Share(x, wsum, remainder), 0, x, wsum, remainder)
  {
    var n := x * remainder;
    assert n == n / wsum * wsum + n % wsum;
    Distribute(n / wsum, 1, wsum);
  }

  /** All shares together lose less than one each. */
  lemma {:induction false} SharesTight(ws: seq<nat>, wsum: nat, remainder: nat)
    requires wsum > 0 && ws != []
    ensures Total(ws) * remainder < (Total(Shares(ws, wsum, remainder)) + |ws|) * wsum
    decreases |ws|
  {
    var init, last := ws[..|ws| - 1], ws[|ws| - 1];
    ShareDue(last, wsum, remainder);
    assert Shares(ws, wsum, remainder)[..|ws| - 1] == Shares(init, wsum, remainder);
    var before, share := Total(Shares(init, wsum, remainder)), Share(last, wsum, remainder);
    if init != [] {
      SharesTight(init, wsum, remainder);
      Distribute(Total(init), last, remainder);
    }
    Distribute(before + |init|, share + 1, wsum);
  }

  /** The rounding leftover is smaller than the number of parts. */
  lemma LeftoverSmall(ws: seq<nat>, base: nat, remainder: nat)
    requires ws != [] && forall i :: 0 <= i < |ws| ==> ws[i] > 0
    ensures base * |ws| + remainder - Total(Floored(ws, base, remainder)) < |ws|
  {
    TotalPositive(ws);
    var shares := Shares(ws, Total(ws), remainder);
    SharesTight(ws, Total(ws), remainder);
    Cancel(remainder, Total(shares) + |ws|, Total(ws));
    RaisedTotal(shares, base);
  }

  lemma Cancel(a: int, b: int, c: nat)
    requires c * a < b * c
    ensures a < b
  {
  }

  /** A heavier weight is never due less. */
  lemma HeavierDue(p: int, x: nat, q: int, y: nat, wsum: nat, remainder: nat)
    requires Fair(p, 0, x, wsum, remainder) && Fair(q, 0, y, wsum, remainder) && x <= y
    ensures p <= q
  {
    Distribute(x, y - x, remainder);
    Cancel(p, q + 1, wsum);
  }

  lemma Exceeding(part: int, leftover: nat, extra: nat, x: nat, wsum: nat, remainder: nat)
    requires Fair(part, 0, x, wsum, remainder) && leftover <= extra
    ensures Fair(part + leftover, extra, x, wsum, remainder)
  {
    Distribute(part + leftover - extra, extra - leftover, wsum);
    Distribute(part + 1, leftover, wsum);
  }

  /**
   * Above the floor every part but the drawn one is the whole share of its weight, a draw from the
   * unit interval plus one hundredth; the drawn one exceeds its share by less than the number of parts.
   */
  lemma SplitShares(w: Stream, rng: Rng, total: nat, base: nat, n: nat)
    requires n >= 1 && base * n <= total
    ensures var (ws, parts, lucky) := (Weights(w, rng, n), SplitInto(w, rng, total, base, n), Index(w, rng + n, n));
      var rest := total - base * n;
      && (forall i :: 0 <= i < n ==> ws[i] == 100 * w.unit(rng + i) + UNIT_STEPS)
      && (forall i :: 0 <= i < n ==> Fair(parts[i] - base, if i == lucky then n - 1 else 0, ws[i], Total(ws), rest))
      && (forall i, j :: 0 <= i < n && 0 <= j < n && i != lucky && ws[i] <= ws[j] ==> parts[i] <= parts[j])
  {
    hide WeightAt, Total, SplitInto, Fair;
    var ws, parts, lucky := Weights(w, rng, n), SplitInto(w, rng, total, base, n), Index(w, rng + n, n);
    var rest := total - base * n;
    var floors, leftover := FlooredDue(w, rng, total, base, n);
    Exceeding(floors[lucky] - base, leftover, n - 1, ws[lucky], Total(ws), rest);
    forall i | 0 <= i < n ensures ws[i] == 100 * w.unit(rng + i) + UNIT_STEPS {
      WeightDrawn(w, rng, n, i);
    }
    forall i, j | 0 <= i < n && 0 <= j < n && i != lucky && ws[i] <= ws[j] ensures parts[i] <= parts[j] {
      HeavierDue(floors[i] - base, ws[i], floors[j] - base, ws[j], Total(ws), rest);
    }
  }

  lemma {:induction false} WeightDrawn(w: Stream, rng: Rng, n: nat, i: nat)
    requires i < n
    ensures Weights(w, rng, n)[i] == 100 * w.unit(rng + i) + UNIT_STEPS
    decreases n
  {
    if i < n - 1 {
      WeightDrawn(w, rng, n - 1, i);
    }
  }

  /** The parts before and the leftover as it is placed. */
  lemma FlooredDue(w: Stream, rng: Rng, total: nat, base: nat, n: nat) returns (floors: seq<nat>, leftover: nat)
    requires n >= 1 && base * n <= total
    ensures var (ws, lucky) := (Weights(w, rng, n), Index(w, rng + n, n));
      && |floors| == n && leftover < n
      && SplitInto(w, rng, total, base, n) == floors[lucky := floors[lucky] + leftover]
      && forall i :: 0 <= i < n ==> Fair(floors[i] - base, 0, ws[i], Total(ws), total - base * n)
  {
    hide WeightAt, Total, Fair, Share;
    var ws, rest := Weights(w, rng, n), total - base * n;
    TotalPositive(ws);
    FlooredWithin(ws, base, rest);
    LeftoverSmall(ws, base, rest);
    floors := Floored(ws, base, rest);
    leftover := total - Total(floors);
    forall i | 0 <= i < n ensures Fair(floors[i] - base, 0, ws[i], Total(ws), rest) {
      ShareAt(ws, Total(ws), rest, i);
      ShareDue(ws[i], Total(ws), rest);
    }
  }

  /** The original's loops: floor every part, add the shares, patch the leftover onto one part. */
  method Split(w: Stream, rng: Rng, total: nat, policy: SplitPolicy) returns (parts: seq<nat>, next: Rng)
    ensures parts == SplitAmount(w, rng, total, policy).0 && next == SplitAmount(w, rng, total, policy).1
  {
    if total == 0 {
      return [], rng;
    }
    var base := Floor(policy);
    if total <= base {
      return [total], rng;
    }
    var (n, rng1) := PartCount(w, rng, total, policy);
    Affordable(total, base, n);
    parts := Distributed(w, rng1, total, base, n);
    next := rng1 + n + 1;
  }

  method Distributed(w: Stream, rng: Rng, total: nat, base: nat, n: nat) returns (parts: seq<nat>)
    requires n >= 1 && base * n <= total
    ensures parts == SplitInto(w, rng, total, base, n)
  {
    hide Floored, Total, WeightAt;
    parts := seq(n, i => base);
    var remainder := total - base * n;
    var weights := DrawWeights(w, rng, n);
    parts := AddShares(parts, base, weights, remainder);
    FlooredWithin(weights, base, remainder);
    var leftover := total - Total(parts);
    var idx := Index(w, rng + n, n);
    parts := parts[idx := parts[idx] + leftover];
  }

  method DrawWeights(w: Stream, rng: Rng, n: nat) returns (weights: seq<nat>)
    ensures weights == Weights(w, rng, n)
  {
    weights := [];
    for i := 0 to n
      invariant weights == Weights(w, rng, i)
    {
      weights := weights + [WeightAt(w, rng + i)];
    }
  }

  /** Adds every weight's share to its part. */
  method AddShares(floors: seq<nat>, base: nat, weights: seq<nat>, remainder: nat) returns (parts: seq<nat>)
    requires weights != [] && forall i :: 0 <= i < |weights| ==> weights[i] > 0
    requires floors == seq(|weights|, i => base)
    ensures parts == Floored(weights, base, remainder)
  {
    parts := floors;
    TotalPositive(weights);
    var wsum := Total(weights);
    ghost var shares := Shares(weights, wsum, remainder);
    for i := 0 to |weights|
      invariant |parts| == |weights|
      invariant forall j :: 0 <= j < i ==> parts[j] == base + shares[j]
      invariant forall j :: i <= j < |weights| ==> parts[j] == base
    {
      ShareAt(weights, wsum, remainder, i);
      parts := parts[i := parts[i] + Share(weights[i], wsum, remainder)];
    }
    assert parts == Raised(shares, base);
  }

  lemma {:induction false} ShareAt(ws: seq<nat>, wsum: nat, remainder: nat, i: nat)
    requires wsum > 0 && i < |ws|
    ensures Shares(ws, wsum, remainder)[i] == Share(ws[i], wsum, remainder)
    decreases |ws|
  {
    if i < |ws| - 1 {
      ShareAt(ws[..|ws| - 1], wsum, remainder, i);
    }
  }

  /** What one planned amount is emitted as: its parts, or the amount itself when nothing is split. */
  function Emitted(w: Stream, rng: Rng, amount: nat, policy: SplitPolicy): seq<nat> {
    var parts := SplitAmount(w, rng, amount, policy).0;
    if parts == [] then [amount] else parts
  }

  lemma SplitAdvances(w: Stream, rng: Rng, amount: nat, policy: SplitPolicy)
    ensures SplitAmount(w, rng, amount, policy).1 >= rng
  {
  }

  /** The emitted parts conserve the planned amount, including the zero-value memo. */
  lemma EmissionConserves(w: Stream, rng: Rng, amount: nat, policy: SplitPolicy)
    ensures Total(Emitted(w, rng, amount, policy)) == amount && Emitted(w, rng, amount, policy) != []
    ensures amount == 0 ==> Emitted(w, rng, amount, policy) == [0]
    ensures amount > 0 ==> forall i :: 0 <= i < |Emitted(w, rng, amount, policy)| ==> Emitted(w, rng, amount, policy)[i] > 0
  {
    SplitExact(w, rng, amount, policy);
    assert [amount][..0] == [];
  }
}
