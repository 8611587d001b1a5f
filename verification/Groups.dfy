/** Cutting an ordered index list into maximal runs, and the two record groupings built on it. */
module Groups {
  import opened Types
  import opened Graph
  import opened Sorting

  /** Maximal runs of `order` whose consecutive elements satisfy `joins`. */
  function Runs(order: seq<nat>, joins: (nat, nat) -> bool): (gs: seq<seq<nat>>)
    ensures order != [] ==> gs != [] && gs[0] != [] && gs[0][0] == order[0]
  {
    if order == [] then []
    else
      var rest := Runs(order[1..], joins);
      if |order| > 1 && joins(order[0], order[1])
      then [[order[0]] + rest[0]] + rest[1..]
      else [[order[0]]] + rest
  }

  /** All links between positions `lo` and `hi` of `order` hold. */
  ghost predicate Joined(order: seq<nat>, joins: (nat, nat) -> bool, lo: nat, hi: nat)
    requires hi < |order|
  {
    forall k :: lo <= k < hi ==> joins(order[k], order[k + 1])
  }

  /** Cutting after the first `n` linked elements, where the link to the next one fails. */
  lemma {:induction false} RunsSplit(order: seq<nat>, joins: (nat, nat) -> bool, n: nat)
    requires 0 < n <= |order| && Joined(order, joins, 0, n - 1)
    requires n < |order| ==> !joins(order[n - 1], order[n])
    ensures Runs(order, joins) == [order[..n]] + Runs(order[n..], joins)
    decreases n
  {
    if n == 1 {
      assert order[..1] == [order[0]];
    } else {
      var tail := order[1..];
      forall k | 0 <= k < n - 2 ensures joins(tail[k], tail[k + 1]) {
        assert tail[k] == order[k + 1] && tail[k + 1] == order[k + 2];
      }
      assert n < |order| ==> tail[n - 2] == order[n - 1] && tail[n - 1] == order[n];
      RunsSplit(tail, joins, n - 1);
      assert tail[n - 1..] == order[n..];
      assert order[..n] == [order[0]] + tail[..n - 1];
      assert joins(order[0], order[1]);
    }
  }

  /** The same, for a segment inside `order`. */
  lemma RunsSplitAt(order: seq<nat>, joins: (nat, nat) -> bool, start: nat, i: nat)
    requires start < i <= |order| && Joined(order, joins, start, i - 1)
    requires i < |order| ==> !joins(order[i - 1], order[i])
    ensures Runs(order[start..], joins) == [order[start..i]] + Runs(order[i..], joins)
  {
    var tail := order[start..];
    forall k | 0 <= k < i - start - 1 ensures joins(tail[k], tail[k + 1]) {
      assert tail[k] == order[start + k] && tail[k + 1] == order[start + k + 1];
    }
    RunsSplit(tail, joins, i - start);
    assert tail[..i - start] == order[start..i] && tail[i - start..] == order[i..];
  }

  /** Taking the run from `start` to `i` off the front of what is left. */
  lemma RunTaken(order: seq<nat>, joins: (nat, nat) -> bool, start: nat, i: nat, groups: seq<seq<nat>>)
    requires start < i <= |order| && Joined(order, joins, start, i - 1)
    requires i < |order| ==> !joins(order[i - 1], order[i])
    ensures groups + Runs(order[start..], joins) == groups + [order[start..i]] + Runs(order[i..], joins)
  {
    hide Runs;
    RunsSplitAt(order, joins, start, i);
  }

  lemma RunsAtEnds(order: seq<nat>, joins: (nat, nat) -> bool, groups: seq<seq<nat>>)
    ensures [] + Runs(order[0..], joins) == Runs(order, joins)
    ensures groups + Runs(order[|order|..], joins) == groups
  {
    assert order[0..] == order;
  }

  lemma JoinedLonger(order: seq<nat>, joins: (nat, nat) -> bool, start: nat, i: nat)
    requires start < i <= |order|
    ensures i == start + 1 ==> Joined(order, joins, start, i - 1)
    ensures i < |order| && Joined(order, joins, start, i - 1) && joins(order[i - 1], order[i]) ==> Joined(order, joins, start, i)
  {
  }

  /** The loop both groupings share: advance `i` while the next element joins the previous one. */
  method CutRuns(order: seq<nat>, joins: (nat, nat) -> bool) returns (groups: seq<seq<nat>>)
    ensures groups == Runs(order, joins)
  {
    hide Runs, Joined;
    groups := [];
    var i := 0;
    RunsAtEnds(order, joins, groups);
    while i < |order|
      invariant i <= |order|
      invariant groups + Runs(order[i..], joins) == Runs(order, joins)
    {
      var start := i;
      i := i + 1;
      JoinedLonger(order, joins, start, i);
      while i < |order| && joins(order[i - 1], order[i])
        invariant start < i <= |order|
        invariant Joined(order, joins, start, i - 1)
      {
        JoinedLonger(order, joins, start, i);
        i := i + 1;
      }
      RunTaken(order, joins, start, i, groups);
      groups := groups + [order[start..i]];
    }
    RunsAtEnds(order, joins, groups);
  }

  /** `cs` lists where the runs of `order` begin, ending with `|order|`. */
  ghost predicate Cuts(order: seq<nat>, joins: (nat, nat) -> bool, cs: seq<nat>) {
    && |cs| == |Runs(order, joins)| + 1
    && cs[0] == 0 && cs[|cs| - 1] == |order|
    && (forall k :: 0 <= k < |cs| - 1 ==> RunAt(order, joins, cs, k))
  }

  /** Run `k` is the non-empty, fully linked segment between two cuts, unlinked to the next. */
  ghost predicate RunAt(order: seq<nat>, joins: (nat, nat) -> bool, cs: seq<nat>, k: nat)
    requires k < |cs| - 1 == |Runs(order, joins)|
  {
    && cs[k] < cs[k + 1] <= |order|
    && Runs(order, joins)[k] == order[cs[k]..cs[k + 1]]
    && Joined(order, joins, cs[k], cs[k + 1] - 1)
    && (cs[k + 1] < |order| ==> !joins(order[cs[k + 1] - 1], order[cs[k + 1]]))
  }

  lemma {:induction false} RunsHaveCuts(order: seq<nat>, joins: (nat, nat) -> bool) returns (cs: seq<nat>)
    ensures Cuts(order, joins, cs)
    decreases |order|
  {
    cs := [0];
    if order != [] {
      var n := 1;
      while n < |order| && joins(order[n - 1], order[n])
        invariant 1 <= n <= |order| && Joined(order, joins, 0, n - 1)
      {
        n := n + 1;
      }
      RunsSplit(order, joins, n);
      var tail := order[n..];
      var ds := RunsHaveCuts(tail, joins);
      cs := [0] + seq(|ds|, i requires 0 <= i < |ds| => ds[i] + n);
      forall k | 0 <= k < |cs| - 1 ensures RunAt(order, joins, cs, k) {
        if k > 0 {
          LaterRun(order, joins, n, ds, cs, k);
        } else {
          assert cs[1] == n;
        }
      }
    }
  }

  /** A run of the tail is the next run of the whole, its cuts shifted by what went before. */
  lemma LaterRun(order: seq<nat>, joins: (nat, nat) -> bool, n: nat, ds: seq<nat>, cs: seq<nat>, k: nat)
    requires 0 < n <= |order| && Cuts(order[n..], joins, ds)
    requires Runs(order, joins) == [order[..n]] + Runs(order[n..], joins)
    requires |cs| == |ds| + 1 && 0 < k < |cs| - 1 && forall i :: 0 <= i < |ds| ==> cs[i + 1] == ds[i] + n
    ensures RunAt(order, joins, cs, k)
  {
    hide Runs;
    var tail := order[n..];
    assert RunAt(tail, joins, ds, k - 1);
    assert cs[k - 1 + 1] == ds[k - 1] + n && cs[k + 1] == ds[k] + n;
    SliceOfTail(order, n, ds[k - 1], ds[k]);
    JoinedInTail(order, joins, n, ds[k - 1], ds[k] - 1);
  }

  lemma SliceOfTail(order: seq<nat>, n: nat, a: nat, b: nat)
    requires n <= |order| && a <= b <= |order| - n
    ensures order[a + n..b + n] == order[n..][a..b]
  {
  }

  lemma JoinedInTail(order: seq<nat>, joins: (nat, nat) -> bool, n: nat, a: nat, b: nat)
    requires n <= |order| && a <= b < |order| - n && Joined(order[n..], joins, a, b)
    ensures Joined(order, joins, a + n, b + n)
  {
    forall j | a + n <= j < b + n ensures joins(order[j], order[j + 1]) {
      assert joins(order[n..][j - n], order[n..][j - n + 1]);
    }
  }

  lemma {:induction false} CutsAscend(order: seq<nat>, joins: (nat, nat) -> bool, cs: seq<nat>, j: nat, k: nat)
    requires Cuts(order, joins, cs) && j <= k < |cs|
    ensures cs[j] <= cs[k] <= |order|
    decreases k - j
  {
    if j < k {
      assert RunAt(order, joins, cs, k - 1);
      CutsAscend(order, joins, cs, j, k - 1);
    } else if k < |cs| - 1 {
      assert RunAt(order, joins, cs, k);
    }
  }

  lemma FindRun(order: seq<nat>, joins: (nat, nat) -> bool, cs: seq<nat>, p: nat) returns (k: nat)
    requires Cuts(order, joins, cs) && p < |order|
    ensures k < |cs| - 1 && cs[k] <= p < cs[k + 1]
  {
    k := 0;
    while cs[k + 1] <= p
      invariant k < |cs| - 1 && cs[k] <= p
      decreases |cs| - k
    {
      k := k + 1;
    }
  }

  /** Group `k` holds exactly the positions between its two cuts. */
  lemma InRun(order: seq<nat>, joins: (nat, nat) -> bool, cs: seq<nat>, p: nat, k: nat)
    requires NoDup(order) && Cuts(order, joins, cs) && p < |order| && k < |cs| - 1
    ensures order[p] in Runs(order, joins)[k] <==> cs[k] <= p < cs[k + 1]
  {
    assert RunAt(order, joins, cs, k);
    var g := Runs(order, joins)[k];
    if cs[k] <= p < cs[k + 1] {
      assert g[p - cs[k]] == order[p];
    }
    if order[p] in g {
      var i :| 0 <= i < |g| && g[i] == order[p];
      assert g[i] == order[cs[k] + i];
    }
  }

  lemma Position(order: seq<nat>, x: nat) returns (p: nat)
    requires x in order
    ensures p < |order| && order[p] == x
  {
    p :| 0 <= p < |order| && order[p] == x;
  }

  /** Group numbers `j` and `k` both hold `x` only when they are the same group. */
  lemma OneGroupEach(order: seq<nat>, joins: (nat, nat) -> bool, x: nat, j: nat, k: nat)
    requires NoDup(order) && j < |Runs(order, joins)| && k < |Runs(order, joins)|
    requires x in Runs(order, joins)[j] && x in Runs(order, joins)[k]
    ensures j == k
  {
    var cs := RunsHaveCuts(order, joins);
    assert RunAt(order, joins, cs, j);
    var p := Position(order, x);
    InRun(order, joins, cs, p, j);
    InRun(order, joins, cs, p, k);
    if j < k {
      CutsAscend(order, joins, cs, j + 1, k);
    } else if k < j {
      CutsAscend(order, joins, cs, k + 1, j);
    }
  }

  /** Some group holds every element of the order, and no group holds anything else. */
  lemma GroupOf(order: seq<nat>, joins: (nat, nat) -> bool, x: nat) returns (k: nat)
    requires x in order
    ensures k < |Runs(order, joins)| && x in Runs(order, joins)[k]
  {
    var cs := RunsHaveCuts(order, joins);
    var p := Position(order, x);
    k := FindRun(order, joins, cs, p);
    assert RunAt(order, joins, cs, k);
    assert Runs(order, joins)[k][p - cs[k]] == x;
  }

  lemma GroupMember(order: seq<nat>, joins: (nat, nat) -> bool, k: nat, x: nat)
    requires k < |Runs(order, joins)| && x in Runs(order, joins)[k]
    ensures x in order
  {
    var cs := RunsHaveCuts(order, joins);
    assert RunAt(order, joins, cs, k);
  }

  /** `a` and `b` are members of one common group. */
  ghost predicate Together(groups: seq<seq<nat>>, a: nat, b: nat) {
    exists k :: 0 <= k < |groups| && a in groups[k] && b in groups[k]
  }

  /** Two positions share a run iff every link between them holds. */
  lemma TogetherIffJoined(order: seq<nat>, joins: (nat, nat) -> bool, p: nat, q: nat)
    requires NoDup(order) && p <= q < |order|
    ensures Together(Runs(order, joins), order[p], order[q]) <==> Joined(order, joins, p, q)
  {
    var cs := RunsHaveCuts(order, joins);
    var k := FindRun(order, joins, cs, p);
    assert RunAt(order, joins, cs, k);
    TogetherIffSameRun(order, joins, cs, p, q, k);
    if q >= cs[k + 1] {
      assert !joins(order[cs[k + 1] - 1], order[cs[k + 1] - 1 + 1]);
    }
  }

  lemma TogetherIffSameRun(order: seq<nat>, joins: (nat, nat) -> bool, cs: seq<nat>, p: nat, q: nat, k: nat)
    requires NoDup(order) && p <= q < |order| && Cuts(order, joins, cs)
    requires k < |cs| - 1 && cs[k] <= p < cs[k + 1]
    ensures Together(Runs(order, joins), order[p], order[q]) <==> q < cs[k + 1]
  {
    var gs := Runs(order, joins);
    InRun(order, joins, cs, p, k);
    InRun(order, joins, cs, q, k);
    if Together(gs, order[p], order[q]) {
      var j :| 0 <= j < |gs| && order[p] in gs[j] && order[q] in gs[j];
      OneGroupEach(order, joins, order[p], j, k);
    }
  }

  // ---- the two record groupings ----

  function Indices(n: nat): seq<nat> {
    seq(n, i => i)
  }

  lemma IndicesFacts(n: nat)
    ensures NoDup(Indices(n)) && forall i :: i in Indices(n) <==> 0 <= i < n
  {
    forall i | 0 <= i < n ensures i in Indices(n) { assert Indices(n)[i] == i; }
  }

  /** Record `i`; indices outside the ledger never occur in an order. */
  function At(rs: Ledger, i: nat): TxRecord {
    if i < |rs| then rs[i] else TxRecord(0, 0, 0, 0, 0, 0, 0, Transfer, None)
  }

  predicate SlotLeq(rs: Ledger, i: nat, j: nat) {
    At(rs, i).slot <= At(rs, j).slot
  }

  /** Order by `(ts, slot, sig)`. */
  predicate TimeLeq(rs: Ledger, i: nat, j: nat) {
    var (a, b) := (At(rs, i), At(rs, j));
    a.ts < b.ts || (a.ts == b.ts && (a.slot < b.slot || (a.slot == b.slot && a.sig <= b.sig)))
  }

  function BySlot(rs: Ledger): (nat, nat) -> bool {
    (i: nat, j: nat) => SlotLeq(rs, i, j)
  }

  function ByTime(rs: Ledger): (nat, nat) -> bool {
    (i: nat, j: nat) => TimeLeq(rs, i, j)
  }

  function SlotOrder(rs: Ledger): seq<nat> {
    SortBy<nat>(Indices(|rs|), BySlot(rs))
  }

  function TimeOrder(rs: Ledger): seq<nat> {
    SortBy<nat>(Indices(|rs|), ByTime(rs))
  }

  /** A burst continues while the timestamp repeats and the slot is contiguous. */
  function BurstJoins(rs: Ledger): (nat, nat) -> bool {
    (i: nat, j: nat) => At(rs, j).ts == At(rs, i).ts && At(rs, j).slot == At(rs, i).slot + 1
  }

  /** A window continues while the gap to the previous record is at most `w`. */
  function WindowJoins(rs: Ledger, w: int): (nat, nat) -> bool {
    (i: nat, j: nat) => SatSub(At(rs, j).ts, At(rs, i).ts) <= Max(w, 0)
  }

  /** Specification of `burst_groups`. */
  function Bursts(rs: Ledger): seq<seq<nat>> {
    Runs(SlotOrder(rs), BurstJoins(rs))
  }

  /** Specification of `window_groups`. */
  function Windows(rs: Ledger, w: int): seq<seq<nat>> {
    Runs(TimeOrder(rs), WindowJoins(rs, w))
  }

  /** Records that share one timestamp and are slot-contiguous. */
  method BurstGroups(rs: Ledger) returns (groups: seq<seq<nat>>)
    ensures groups == Bursts(rs)
    ensures forall k :: 0 <= k < |groups| ==> InLedger(rs, groups[k])
  {
    groups := CutRuns(SlotOrder(rs), BurstJoins(rs));
    BurstIndices(rs);
  }

  /** Time-proximity components. */
  method WindowGroups(rs: Ledger, w: int) returns (groups: seq<seq<nat>>)
    ensures groups == Windows(rs, w)
    ensures forall k :: 0 <= k < |groups| ==> InLedger(rs, groups[k])
  {
    groups := CutRuns(TimeOrder(rs), WindowJoins(rs, w));
    WindowIndices(rs, w);
  }

  lemma SlotOrderFacts(rs: Ledger)
    ensures NoDup(SlotOrder(rs)) && Sorted<nat>(SlotOrder(rs), BySlot(rs))
    ensures forall i :: i in SlotOrder(rs) <==> 0 <= i < |rs|
  {
    IndicesFacts(|rs|);
    assert TotalPreorder<nat>(BySlot(rs));
    SortBySorts<nat>(Indices(|rs|), BySlot(rs));
    SortByNoDup<nat>(Indices(|rs|), BySlot(rs));
  }

  lemma TimeOrderFacts(rs: Ledger)
    ensures NoDup(TimeOrder(rs)) && Sorted<nat>(TimeOrder(rs), ByTime(rs))
    ensures forall i :: i in TimeOrder(rs) <==> 0 <= i < |rs|
  {
    IndicesFacts(|rs|);
    assert TotalPreorder<nat>(ByTime(rs));
    SortBySorts<nat>(Indices(|rs|), ByTime(rs));
    SortByNoDup<nat>(Indices(|rs|), ByTime(rs));
  }

  /** Every element of `g` is a record index. */
  ghost predicate InLedger(rs: Ledger, g: seq<nat>) {
    forall n :: 0 <= n < |g| ==> g[n] < |rs|
  }

  lemma BurstIndices(rs: Ledger)
    ensures forall k :: 0 <= k < |Bursts(rs)| ==> InLedger(rs, Bursts(rs)[k])
  {
    SlotOrderFacts(rs);
    forall k, n | 0 <= k < |Bursts(rs)| && 0 <= n < |Bursts(rs)[k]| ensures Bursts(rs)[k][n] < |rs| {
      GroupMember(SlotOrder(rs), BurstJoins(rs), k, Bursts(rs)[k][n]);
    }
  }

  lemma WindowIndices(rs: Ledger, w: int)
    ensures forall k :: 0 <= k < |Windows(rs, w)| ==> InLedger(rs, Windows(rs, w)[k])
  {
    TimeOrderFacts(rs);
    forall k, n | 0 <= k < |Windows(rs, w)| && 0 <= n < |Windows(rs, w)[k]| ensures Windows(rs, w)[k][n] < |rs| {
      GroupMember(TimeOrder(rs), WindowJoins(rs, w), k, Windows(rs, w)[k][n]);
    }
  }

  // ---- what a window group means ----

  /** Timestamps at most `w` apart, in either direction; no gap exceeds a saturated window. */
  ghost predicate Near(rs: Ledger, w: int, i: nat, j: nat) {
    At(rs, i).ts == At(rs, j).ts || w >= I64_MAX || -w <= At(rs, i).ts - At(rs, j).ts <= w
  }

  ghost function NearEdges(rs: Ledger, w: int): Edges {
    set i, j | 0 <= i < |rs| && 0 <= j < |rs| && Near(rs, w, i, j) :: (i, j)
  }

  /** Those among the records of `order`. */
  ghost function NearWithin(rs: Ledger, w: int, order: seq<nat>): Edges {
    set i, j | i in order && j in order && Near(rs, w, i, j) :: (i, j)
  }

  /** Positions on both sides of a gap wider than `w` are not near each other. */
  lemma GapSeparates(rs: Ledger, w: int, order: seq<nat>, c: nat, i: nat, j: nat)
    requires Sorted<nat>(order, ByTime(rs)) && c + 1 < |order|
    requires !WindowJoins(rs, w)(order[c], order[c + 1])
    requires i in order && j in order && Near(rs, w, i, j)
    ensures ByTime(rs)(i, order[c]) <==> ByTime(rs)(j, order[c])
  {
    var p := Position(order, i);
    var q := Position(order, j);
    assert p <= c ==> p == c || ByTime(rs)(order[p], order[c]);
    assert q <= c ==> q == c || ByTime(rs)(order[q], order[c]);
    assert p > c ==> p == c + 1 || ByTime(rs)(order[c + 1], order[p]);
    assert q > c ==> q == c + 1 || ByTime(rs)(order[c + 1], order[q]);
    assert ByTime(rs)(order[c], order[c + 1]);
  }

  lemma JoinNear(rs: Ledger, w: int, order: seq<nat>, c: nat)
    requires Sorted<nat>(order, ByTime(rs)) && c + 1 < |order| && WindowJoins(rs, w)(order[c], order[c + 1])
    ensures Connected(NearWithin(rs, w, order), order[c], order[c + 1])
  {
    assert order[c] in order && order[c + 1] in order;
    assert ByTime(rs)(order[c], order[c + 1]);
    assert Near(rs, w, order[c], order[c + 1]);
    Edge(NearWithin(rs, w, order), order[c], order[c + 1]);
  }

  lemma {:induction false} JoinedReaches(rs: Ledger, w: int, order: seq<nat>, p: nat, q: nat)
    requires Sorted<nat>(order, ByTime(rs)) && p <= q < |order|
    requires Joined(order, WindowJoins(rs, w), p, q)
    ensures Connected(NearWithin(rs, w, order), order[p], order[q])
    decreases q - p
  {
    hide NearWithin, Connected, Sorted, WindowJoins;
    var E := NearWithin(rs, w, order);
    if p == q {
      Refl(E, order[p]);
    } else {
      JoinedReaches(rs, w, order, p, q - 1);
      assert WindowJoins(rs, w)(order[q - 1], order[q - 1 + 1]);
      JoinNear(rs, w, order, q - 1);
      Trans(E, order[p], order[q - 1], order[q]);
    }
  }

  lemma ReachesJoined(rs: Ledger, w: int, order: seq<nat>, p: nat, q: nat)
    requires Sorted<nat>(order, ByTime(rs)) && p <= q < |order|
    requires Connected(NearWithin(rs, w, order), order[p], order[q])
    ensures Joined(order, WindowJoins(rs, w), p, q)
  {
    hide NearWithin, Connected, Sorted, WindowJoins;
    forall c | p <= c < q ensures WindowJoins(rs, w)(order[c], order[c + 1]) {
      if !WindowJoins(rs, w)(order[c], order[c + 1]) {
        GapDisconnects(rs, w, order, p, c, q);
      }
    }
  }

  lemma GapDisconnects(rs: Ledger, w: int, order: seq<nat>, p: nat, c: nat, q: nat)
    requires Sorted<nat>(order, ByTime(rs)) && p <= c < q < |order| && !WindowJoins(rs, w)(order[c], order[c + 1])
    ensures !Connected(NearWithin(rs, w, order), order[p], order[q])
  {
    hide Connected;
    assert ByTime(rs)(order[p], order[c]);
    assert c + 1 == q || ByTime(rs)(order[c + 1], order[q]);
    assert ByTime(rs)(order[c], order[c + 1]);
    var E := NearWithin(rs, w, order);
    var R := (i: nat, j: nat) => ByTime(rs)(i, order[c]) == ByTime(rs)(j, order[c]);
    forall e | e in E ensures R(e.0, e.1) {
      GapSeparates(rs, w, order, c, e.0, e.1);
    }
    if Connected(E, order[p], order[q]) {
      LeastEquivalence(E, R, order[p], order[q]);
    }
  }

  /** The runs of any list of records in time order are the components of "at most `w` apart" within it. */
  lemma RunsAreComponents(rs: Ledger, w: int, order: seq<nat>, i: nat, j: nat)
    requires Sorted<nat>(order, ByTime(rs)) && NoDup(order) && i in order && j in order
    ensures Together(Runs(order, WindowJoins(rs, w)), i, j) <==> Connected(NearWithin(rs, w, order), i, j)
  {
    var E := NearWithin(rs, w, order);
    var p := Position(order, i);
    var q := Position(order, j);
    var lo, hi := if p <= q then p else q, if p <= q then q else p;
    TogetherIffJoined(order, WindowJoins(rs, w), lo, hi);
    if Joined(order, WindowJoins(rs, w), lo, hi) {
      JoinedReaches(rs, w, order, lo, hi);
      Sym(E, order[lo], order[hi]);
    }
    if Connected(E, i, j) {
      Sym(E, i, j);
      ReachesJoined(rs, w, order, lo, hi);
    }
  }

  /**
   * `window_groups` cuts the records into exactly the classes of the transitive closure of
   * "timestamps at most `w` apart".
   */
  lemma WindowGroupsAreComponents(rs: Ledger, w: int, i: nat, j: nat)
    requires i < |rs| && j < |rs|
    ensures Together(Windows(rs, w), i, j) <==> Connected(NearEdges(rs, w), i, j)
  {
    TimeOrderFacts(rs);
    RunsAreComponents(rs, w, TimeOrder(rs), i, j);
    assert NearWithin(rs, w, TimeOrder(rs)) == NearEdges(rs, w);
  }

  // ---- what a burst means ----

  /** Neighbouring slots at one time. */
  ghost predicate Adjacent(rs: Ledger, i: nat, j: nat) {
    At(rs, i).ts == At(rs, j).ts && (At(rs, i).slot + 1 == At(rs, j).slot || At(rs, j).slot + 1 == At(rs, i).slot)
  }

  ghost function AdjacentEdges(rs: Ledger): Edges {
    set i, j | 0 <= i < |rs| && 0 <= j < |rs| && Adjacent(rs, i, j) :: (i, j)
  }

  /** No two records share a slot. */
  ghost predicate OwnSlots(rs: Ledger) {
    forall i, j :: 0 <= i < j < |rs| ==> rs[i].slot != rs[j].slot
  }

  lemma {:induction false} JoinedAdjacent(rs: Ledger, order: seq<nat>, p: nat, q: nat)
    requires order == SlotOrder(rs) && p <= q < |order| && Joined(order, BurstJoins(rs), p, q)
    ensures Connected(AdjacentEdges(rs), order[p], order[q])
    decreases q - p
  {
    SlotOrderFacts(rs);
    if p == q {
      Refl(AdjacentEdges(rs), order[p]);
    } else {
      JoinedAdjacent(rs, order, p, q - 1);
      assert order[q - 1] in order && order[q] in order;
      assert BurstJoins(rs)(order[q - 1], order[q - 1 + 1]);
      Edge(AdjacentEdges(rs), order[q - 1], order[q]);
      Trans(AdjacentEdges(rs), order[p], order[q - 1], order[q]);
    }
  }

  /** Adjacent records are on one side of every cut. */
  lemma CutSeparates(rs: Ledger, order: seq<nat>, c: nat, i: nat, j: nat)
    requires order == SlotOrder(rs) && OwnSlots(rs) && c + 1 < |order| && !BurstJoins(rs)(order[c], order[c + 1])
    requires i < |rs| && j < |rs| && Adjacent(rs, i, j)
    ensures BySlot(rs)(i, order[c]) <==> BySlot(rs)(j, order[c])
  {
    SlotOrderFacts(rs);
    var p := Position(order, i);
    var q := Position(order, j);
    assert order[c] in order && order[c + 1] in order;
    assert p <= c ==> p == c || BySlot(rs)(order[p], order[c]);
    assert q <= c ==> q == c || BySlot(rs)(order[q], order[c]);
    assert p > c ==> p == c + 1 || BySlot(rs)(order[c + 1], order[p]);
    assert q > c ==> q == c + 1 || BySlot(rs)(order[c + 1], order[q]);
    assert BySlot(rs)(order[c], order[c + 1]);
  }

  lemma AdjacentJoined(rs: Ledger, order: seq<nat>, p: nat, q: nat)
    requires order == SlotOrder(rs) && OwnSlots(rs) && p <= q < |order|
    requires Connected(AdjacentEdges(rs), order[p], order[q])
    ensures Joined(order, BurstJoins(rs), p, q)
  {
    SlotOrderFacts(rs);
    forall c | p <= c < q ensures BurstJoins(rs)(order[c], order[c + 1]) {
      if !BurstJoins(rs)(order[c], order[c + 1]) {
        BothSides(rs, order, p, c, q);
        var E := AdjacentEdges(rs);
        var R := (i: nat, j: nat) => BySlot(rs)(i, order[c]) == BySlot(rs)(j, order[c]);
        forall e | e in E ensures R(e.0, e.1) {
          CutSeparates(rs, order, c, e.0, e.1);
        }
        LeastEquivalence(E, R, order[p], order[q]);
      }
    }
  }

  lemma BothSides(rs: Ledger, order: seq<nat>, p: nat, c: nat, q: nat)
    requires order == SlotOrder(rs) && OwnSlots(rs) && p <= c < q < |order|
    ensures BySlot(rs)(order[p], order[c]) && !BySlot(rs)(order[q], order[c])
  {
    SlotOrderFacts(rs);
    assert order[p] in order && order[c] in order && order[q] in order;
    assert p == c || BySlot(rs)(order[p], order[c]);
    assert BySlot(rs)(order[c], order[q]) && order[c] != order[q];
  }

  /** Where every record has its own slot, bursts are the components of "neighbouring slots at one time". */
  lemma BurstsAreComponents(rs: Ledger, i: nat, j: nat)
    requires OwnSlots(rs) && i < |rs| && j < |rs|
    ensures Together(Bursts(rs), i, j) <==> Connected(AdjacentEdges(rs), i, j)
  {
    SlotOrderFacts(rs);
    var order := SlotOrder(rs);
    var p := Position(order, i);
    var q := Position(order, j);
    var lo, hi := if p <= q then p else q, if p <= q then q else p;
    TogetherIffJoined(order, BurstJoins(rs), lo, hi);
    if Joined(order, BurstJoins(rs), lo, hi) {
      JoinedAdjacent(rs, order, lo, hi);
      Sym(AdjacentEdges(rs), order[lo], order[hi]);
    }
    if Connected(AdjacentEdges(rs), i, j) {
      Sym(AdjacentEdges(rs), i, j);
      AdjacentJoined(rs, order, lo, hi);
    }
  }

  // ---- windows ----

  /** Every record is in exactly one window group. */
  lemma WindowGroupsPartition(rs: Ledger, w: int, i: nat)
    requires i < |rs|
    ensures exists k :: 0 <= k < |Windows(rs, w)| && i in Windows(rs, w)[k]
    ensures forall j, k {:trigger Windows(rs, w)[j], Windows(rs, w)[k]} ::
      && 0 <= j < |Windows(rs, w)| && i in Windows(rs, w)[j]
      && 0 <= k < |Windows(rs, w)| && i in Windows(rs, w)[k]
      ==> j == k
  {
    TimeOrderFacts(rs);
    var order := TimeOrder(rs);
    var g := GroupOf(order, WindowJoins(rs, w), i);
    assert i in Windows(rs, w)[g];
    forall j, k | 0 <= j < |Windows(rs, w)| && 0 <= k < |Windows(rs, w)| &&
      i in Windows(rs, w)[j] && i in Windows(rs, w)[k] ensures j == k
    {
      OneGroupEach(order, WindowJoins(rs, w), i, j, k);
    }
  }

  /** Widening the window merges groups and never splits one. */
  lemma WideningMerges(rs: Ledger, w: int, v: int, i: nat, j: nat)
    requires w <= v && i < |rs| && j < |rs| && Together(Windows(rs, w), i, j)
    ensures Together(Windows(rs, v), i, j)
  {
    WindowGroupsAreComponents(rs, w, i, j);
    WindowGroupsAreComponents(rs, v, i, j);
    assert NearEdges(rs, w) <= NearEdges(rs, v);
    Monotone(NearEdges(rs, w), NearEdges(rs, v), i, j);
  }

  /** Two records of one burst have the same timestamp, so the zero window groups them too. */
  lemma BurstsWithinZeroWindow(rs: Ledger, i: nat, j: nat)
    requires Together(Bursts(rs), i, j)
    ensures i < |rs| && j < |rs| && rs[i].ts == rs[j].ts && Together(Windows(rs, 0), i, j)
  {
    BurstIndices(rs);
    SlotOrderFacts(rs);
    var order := SlotOrder(rs);
    var p := Position(order, i);
    var q := Position(order, j);
    var lo, hi := if p <= q then p else q, if p <= q then q else p;
    TogetherIffJoined(order, BurstJoins(rs), lo, hi);
    JoinedSameTime(rs, order, lo, hi);
    assert Near(rs, 0, i, j);
    Edge(NearEdges(rs, 0), i, j);
    WindowGroupsAreComponents(rs, 0, i, j);
  }

  lemma {:induction false} JoinedSameTime(rs: Ledger, order: seq<nat>, p: nat, q: nat)
    requires p <= q < |order| && Joined(order, BurstJoins(rs), p, q)
    ensures At(rs, order[p]).ts == At(rs, order[q]).ts
    decreases q - p
  {
    if p < q {
      JoinedSameTime(rs, order, p, q - 1);
      assert BurstJoins(rs)(order[q - 1], order[q - 1 + 1]);
    }
  }
}
