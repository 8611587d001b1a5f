/** Rank-based ROC AUC against the Mann-Whitney pair count. */
module Auc {
  import opened Types
  import opened Sorting
  import opened Groups

  datatype Scored = Scored(score: real, positive: bool)

  function SumOver<T>(f: T -> nat, xs: seq<T>): nat {
    if xs == [] then 0 else f(xs[0]) + SumOver(f, xs[1..])
  }

  lemma {:induction false} SumConcat<T>(f: T -> nat, xs: seq<T>, ys: seq<T>)
    ensures SumOver(f, xs + ys) == SumOver(f, xs) + SumOver(f, ys)
  {
    if xs == [] {
      assert xs + ys == ys;
    } else {
      assert (xs + ys)[1..] == xs[1..] + ys;
      SumConcat(f, xs[1..], ys);
    }
  }

  /** The sequence without its `k`-th element. */
  function Without<T>(ys: seq<T>, k: nat): seq<T>
    requires k < |ys|
  {
    ys[..k] + ys[k + 1..]
  }

  lemma SumWithout<T>(f: T -> nat, ys: seq<T>, k: nat)
    requires k < |ys|
    ensures SumOver(f, ys) == f(ys[k]) + SumOver(f, Without(ys, k))
  {
    var rest := ys[k..];
    assert ys == ys[..k] + rest && rest[1..] == ys[k + 1..];
    SumConcat(f, ys[..k], rest);
    SumConcat(f, ys[..k], ys[k + 1..]);
  }

  lemma WithoutOne<T>(ys: seq<T>, k: nat)
    requires k < |ys|
    ensures multiset(Without(ys, k)) == multiset(ys) - multiset{ys[k]}
  {
    assert ys == ys[..k] + [ys[k]] + ys[k + 1..];
  }

  lemma FirstOff<T>(xs: seq<T>)
    requires xs != []
    ensures Without(xs, 0) == xs[1..]
  {
  }

  /** A sum does not depend on the order of its terms. */
  lemma {:induction false} SumPermuted<T>(f: T -> nat, xs: seq<T>, ys: seq<T>)
    requires multiset(xs) == multiset(ys)
    ensures SumOver(f, xs) == SumOver(f, ys)
    decreases xs
  {
    hide Without;
    if xs == [] {
      assert |multiset(ys)| == 0;
    } else {
      var x := xs[0];
      assert x in multiset(ys);
      var k :| 0 <= k < |ys| && ys[k] == x;
      SumWithout(f, ys, k);
      WithoutOne(ys, k);
      WithoutOne(xs, 0);
      assert Without(xs, 0) == xs[1..] by { FirstOff(xs); }
      assert multiset(xs[1..]) == multiset(Without(ys, k));
      SumPermuted(f, xs[1..], Without(ys, k));
    }
  }

  lemma {:induction false} SumConstant<T>(f: T -> nat, xs: seq<T>, c: nat)
    requires forall k :: 0 <= k < |xs| ==> f(xs[k]) == c
    ensures SumOver(f, xs) == c * |xs|
  {
    if xs != [] {
      assert forall k :: 0 <= k < |xs| - 1 ==> xs[1..][k] == xs[k + 1];
      SumConstant(f, xs[1..], c);
    }
  }

  lemma {:induction false} SumAdds<T>(f: T -> nat, g: T -> nat, h: T -> nat, xs: seq<T>)
    requires forall k :: 0 <= k < |xs| ==> h(xs[k]) == f(xs[k]) + g(xs[k])
    ensures SumOver(h, xs) == SumOver(f, xs) + SumOver(g, xs)
  {
    if xs != [] {
      assert forall k :: 0 <= k < |xs| - 1 ==> xs[1..][k] == xs[k + 1];
      SumAdds(f, g, h, xs[1..]);
    }
  }

  lemma {:induction false} SumBounded<T>(f: T -> nat, g: T -> nat, xs: seq<T>)
    requires forall k :: 0 <= k < |xs| ==> f(xs[k]) <= g(xs[k])
    ensures SumOver(f, xs) <= SumOver(g, xs)
  {
    if xs != [] {
      assert forall k :: 0 <= k < |xs| - 1 ==> xs[1..][k] == xs[k + 1];
      SumBounded(f, g, xs[1..]);
    }
  }

  lemma {:induction false} SumMapped<S, T>(f: T -> nat, m: S -> T, g: S -> nat, xs: seq<S>, ys: seq<T>)
    requires |xs| == |ys| && forall k :: 0 <= k < |xs| ==> ys[k] == m(xs[k]) && g(xs[k]) == f(m(xs[k]))
    ensures SumOver(g, xs) == SumOver(f, ys)
  {
    if xs != [] {
      assert forall k :: 0 <= k < |xs| - 1 ==> xs[1..][k] == xs[k + 1] && ys[1..][k] == ys[k + 1];
      SumMapped(f, m, g, xs[1..], ys[1..]);
    }
  }

  // ---- the Mann-Whitney count ----

  /** Twice the credit of ranking `a` against `b`: a win, a tie, or a loss. */
  function Credit(a: real, b: real): nat {
    if a > b then 2 else if a == b then 1 else 0
  }

  function One(p: bool): Scored -> nat {
    (x: Scored) => if x.positive == p then 1 else 0
  }

  function CreditOver(s: real): Scored -> nat {
    (x: Scored) => Credit(s, x.score)
  }

  function CreditOverClass(s: real, p: bool): Scored -> nat {
    (x: Scored) => if x.positive == p then Credit(s, x.score) else 0
  }

  /** Credit of one positive against all members of class `p`; negatives earn nothing. */
  function PairCredit(xs: seq<Scored>, p: bool): Scored -> nat {
    (y: Scored) => if y.positive then SumOver(CreditOverClass(y.score, p), xs) else 0
  }

  function Positives(xs: seq<Scored>): nat {
    SumOver(One(true), xs)
  }

  function Negatives(xs: seq<Scored>): nat {
    SumOver(One(false), xs)
  }

  /** Twice the number of positive/negative pairs ranked correctly, ties counting half. */
  function Wins2(xs: seq<Scored>): nat {
    SumOver(PairCredit(xs, false), xs)
  }

  lemma CreditPermuted(xs: seq<Scored>, ys: seq<Scored>, p: bool)
    requires multiset(xs) == multiset(ys)
    ensures SumOver(PairCredit(xs, p), xs) == SumOver(PairCredit(ys, p), ys)
  {
    SumPermuted(PairCredit(xs, p), xs, ys);
    forall y: Scored ensures PairCredit(xs, p)(y) == PairCredit(ys, p)(y) {
      SumPermuted(CreditOverClass(y.score, p), xs, ys);
    }
    SumBounded(PairCredit(xs, p), PairCredit(ys, p), ys);
    SumBounded(PairCredit(ys, p), PairCredit(xs, p), ys);
  }

  /** Every two positives share two points: `n` of them share `n * n`. */
  lemma {:induction false} PositivesAgainstPositives(xs: seq<Scored>)
    ensures SumOver(PairCredit(xs, true), xs) == Positives(xs) * Positives(xs)
  {
    if xs != [] {
      var x, t := xs[0], xs[1..];
      assert xs == [x] + t;
      PositivesAgainstPositives(t);
      var n := Positives(t);
      if x.positive {
        SplitHead(x, t);
        CreditAround(x.score, t);
        assert SumOver(PairCredit(xs, true), xs) == n * n + 2 * n + 1;
        assert (n + 1) * (n + 1) == n * n + 2 * n + 1;
      } else {
        SameCredit(x, t);
      }
    }
  }

  /** What the positives of `t` earn against `x`. */
  function Against(s: real): Scored -> nat {
    (y: Scored) => if y.positive then Credit(y.score, s) else 0
  }

  lemma SplitHead(x: Scored, t: seq<Scored>)
    requires x.positive
    ensures SumOver(PairCredit([x] + t, true), [x] + t)
      == 1 + SumOver(CreditOverClass(x.score, true), t) + SumOver(Against(x.score), t) + SumOver(PairCredit(t, true), t)
  {
    var xs := [x] + t;
    assert xs[1..] == t;
    forall y: Scored ensures PairCredit(xs, true)(y) == Against(x.score)(y) + PairCredit(t, true)(y) {
      assert SumOver(CreditOverClass(y.score, true), xs) == Credit(y.score, x.score) + SumOver(CreditOverClass(y.score, true), t);
    }
    SumAdds(Against(x.score), PairCredit(t, true), PairCredit(xs, true), t);
    assert PairCredit(xs, true)(x) == 1 + SumOver(CreditOverClass(x.score, true), t);
  }

  lemma SameCredit(x: Scored, t: seq<Scored>)
    requires !x.positive
    ensures SumOver(PairCredit([x] + t, true), [x] + t) == SumOver(PairCredit(t, true), t)
  {
    var xs := [x] + t;
    assert xs[1..] == t;
    forall y: Scored ensures PairCredit(xs, true)(y) == PairCredit(t, true)(y) {
      assert SumOver(CreditOverClass(y.score, true), xs) == 0 + SumOver(CreditOverClass(y.score, true), t);
    }
    SumBounded(PairCredit(xs, true), PairCredit(t, true), t);
    SumBounded(PairCredit(t, true), PairCredit(xs, true), t);
  }

  lemma {:induction false} CreditAround(s: real, t: seq<Scored>)
    ensures SumOver(CreditOverClass(s, true), t) + SumOver(Against(s), t) == 2 * Positives(t)
  {
    if t != [] {
      CreditAround(s, t[1..]);
    }
  }

  // ---- ranks ----

  /** Twice the average rank of an element scoring `s`. */
  function Rank2(xs: seq<Scored>, s: real): nat {
    1 + SumOver(CreditOver(s), xs)
  }

  function PositiveRank2(xs: seq<Scored>): Scored -> nat {
    (y: Scored) => if y.positive then Rank2(xs, y.score) else 0
  }

  /** Ranks of positives add up to their own count, their mutual credit, and their wins. */
  lemma RankSum(xs: seq<Scored>)
    ensures SumOver(PositiveRank2(xs), xs) == Positives(xs) * (Positives(xs) + 1) + Wins2(xs)
  {
    forall y: Scored ensures PositiveRank2(xs)(y) == CreditPlusOne(xs)(y) + PairCredit(xs, false)(y) {
      SplitByClass(y.score, xs);
    }
    SumAdds(CreditPlusOne(xs), PairCredit(xs, false), PositiveRank2(xs), xs);
    SumAdds(One(true), PairCredit(xs, true), CreditPlusOne(xs), xs);
    PositivesAgainstPositives(xs);
  }

  function CreditPlusOne(xs: seq<Scored>): Scored -> nat {
    (y: Scored) => if y.positive then 1 + SumOver(CreditOverClass(y.score, true), xs) else 0
  }

  lemma {:induction false} SplitByClass(s: real, xs: seq<Scored>)
    ensures SumOver(CreditOver(s), xs) == SumOver(CreditOverClass(s, true), xs) + SumOver(CreditOverClass(s, false), xs)
  {
    SumAdds(CreditOverClass(s, true), CreditOverClass(s, false), CreditOver(s), xs);
  }

  ghost predicate Ascends(ys: seq<Scored>) {
    forall i, j :: 0 <= i < j < |ys| ==> ys[i].score <= ys[j].score
  }

  lemma LowerTwice(ys: seq<Scored>, i: nat, s: real)
    requires Ascends(ys) && i <= |ys| && (i > 0 ==> ys[i - 1].score < s)
    ensures SumOver(CreditOver(s), ys[..i]) == 2 * i
  {
    forall k | 0 <= k < i ensures CreditOver(s)(ys[..i][k]) == 2 {
      assert k == i - 1 || ys[k].score <= ys[i - 1].score;
    }
    SumConstant(CreditOver(s), ys[..i], 2);
  }

  lemma TiedOnce(ys: seq<Scored>, i: nat, j: nat)
    requires i < j <= |ys| && forall k :: i <= k < j ==> ys[k].score == ys[i].score
    ensures SumOver(CreditOver(ys[i].score), ys[i..j]) == j - i
  {
    var f := CreditOver(ys[i].score);
    forall k | 0 <= k < j - i ensures f(ys[i..j][k]) == 1 {
      assert ys[i..j][k] == ys[i + k];
    }
    SumConstant(f, ys[i..j], 1);
  }

  lemma HigherNothing(ys: seq<Scored>, j: nat, s: real)
    requires Ascends(ys) && j <= |ys| && (j < |ys| ==> s < ys[j].score)
    ensures SumOver(CreditOver(s), ys[j..]) == 0
  {
    forall k | 0 <= k < |ys| - j ensures CreditOver(s)(ys[j..][k]) == 0 {
      assert ys[j..][k] == ys[j + k];
      assert k == 0 || ys[j].score <= ys[j + k].score;
    }
    SumConstant(CreditOver(s), ys[j..], 0);
  }

  /** In ascending order, the tie group at positions `i..j` has average rank `(i + 1 + j) / 2`. */
  lemma TieGroupRank(ys: seq<Scored>, i: nat, j: nat)
    requires Ascends(ys) && i < j <= |ys|
    requires forall k :: i <= k < j ==> ys[k].score == ys[i].score
    requires i > 0 ==> ys[i - 1].score < ys[i].score
    requires j < |ys| ==> ys[j].score != ys[i].score
    ensures Rank2(ys, ys[i].score) == i + 1 + j
  {
    var s := ys[i].score;
    var f := CreditOver(s);
    LowerTwice(ys, i, s);
    assert j < |ys| ==> ys[i].score <= ys[j].score;
    HigherNothing(ys, j, s);
    TiedOnce(ys, i, j);
    hide SumOver, CreditOver, Ascends;
    assert ys == ys[..i] + ys[i..j] + ys[j..];
    SumConcat(f, ys[..i] + ys[i..j], ys[j..]);
    SumConcat(f, ys[..i], ys[i..j]);
  }

  // ---- the sweep ----

  function ScoreAt(xs: seq<Scored>, i: nat): Scored {
    if i < |xs| then xs[i] else Scored(0.0, false)
  }

  function ByScore(xs: seq<Scored>): (nat, nat) -> bool {
    (i: nat, j: nat) => ScoreAt(xs, i).score < ScoreAt(xs, j).score || (ScoreAt(xs, i).score == ScoreAt(xs, j).score && i <= j)
  }

  function Ranked(xs: seq<Scored>): seq<Scored> {
    var order := SortBy<nat>(Indices(|xs|), ByScore(xs));
    seq(|order|, k requires 0 <= k < |order| => ScoreAt(xs, order[k]))
  }

  /** Sorting by score keeps every sum over the scores. */
  lemma RankedFacts(xs: seq<Scored>)
    ensures |Ranked(xs)| == |xs| && Ascends(Ranked(xs)) && multiset(Ranked(xs)) == multiset(xs)
  {
    var order := SortBy<nat>(Indices(|xs|), ByScore(xs));
    assert TotalPreorder<nat>(ByScore(xs));
    SortBySorts<nat>(Indices(|xs|), ByScore(xs));
    forall i, j | 0 <= i < j < |order| ensures Ranked(xs)[i].score <= Ranked(xs)[j].score {
      assert ByScore(xs)(order[i], order[j]);
    }
    IndexedMultiset(xs, order);
  }

  lemma IndexedMultiset(xs: seq<Scored>, order: seq<nat>)
    requires multiset(order) == multiset(Indices(|xs|))
    ensures multiset(seq(|order|, k requires 0 <= k < |order| => ScoreAt(xs, order[k]))) == multiset(xs)
  {
    var ys := seq(|order|, k requires 0 <= k < |order| => ScoreAt(xs, order[k]));
    forall s: Scored ensures multiset(ys)[s] == multiset(xs)[s] {
      var hit := (i: nat) => if ScoreAt(xs, i) == s then 1 else 0;
      var same := (x: Scored) => if x == s then 1 else 0;
      SumPermuted(hit, order, Indices(|xs|));
      SumMapped(same, (i: nat) => ScoreAt(xs, i), hit, order, ys);
      SumMapped(same, (i: nat) => ScoreAt(xs, i), hit, Indices(|xs|), xs);
      Multiplicity(xs, s);
      Multiplicity(ys, s);
    }
  }

  lemma {:induction false} Multiplicity(xs: seq<Scored>, s: Scored)
    ensures multiset(xs)[s] == SumOver((x: Scored) => if x == s then 1 else 0, xs)
  {
    if xs != [] {
      assert xs == [xs[0]] + xs[1..];
      Multiplicity(xs[1..], s);
    }
  }

  method CountPositives(xs: seq<Scored>) returns (n: nat)
    ensures n == Positives(xs) && |xs| == Positives(xs) + Negatives(xs)
  {
    n := 0;
    ghost var m: nat := 0;
    for k := 0 to |xs|
      invariant n == Positives(xs[..k]) && m == Negatives(xs[..k]) && n + m == k
    {
      assert xs[..k + 1] == xs[..k] + [xs[k]];
      SumConcat(One(true), xs[..k], [xs[k]]);
      SumConcat(One(false), xs[..k], [xs[k]]);
      if xs[k].positive { n := n + 1; } else { m := m + 1; }
    }
    assert xs[..|xs|] == xs;
  }

  /** The Mann-Whitney statistic as a share of all positive/negative pairs. */
  ghost function MannWhitney(xs: seq<Scored>): real
    requires Positives(xs) > 0 && Negatives(xs) > 0
  {
    Wins2(xs) as real / (2 * (Positives(xs) * Negatives(xs))) as real
  }

  /** Sums twice the average ranks of the positives, one tie group at a time. */
  method RankSumPositives(ys: seq<Scored>) returns (sum: real)
    requires Ascends(ys)
    ensures 2.0 * sum == SumOver(PositiveRank2(ys), ys) as real
  {
    sum := 0.0;
    var i := 0;
    var f := PositiveRank2(ys);
    while i < |ys|
      invariant i <= |ys|
      invariant 0 < i < |ys| ==> ys[i - 1].score < ys[i].score
      invariant 2.0 * sum == SumOver(f, ys[..i]) as real
    {
      var j := i + 1;
      while j < |ys| && ys[j].score == ys[i].score
        invariant i < j <= |ys| && forall k :: i <= k < j ==> ys[k].score == ys[i].score
      {
        j := j + 1;
      }
      var avg := (i + 1 + j) as real / 2.0;
      TieGroupRank(ys, i, j);
      for k := i to j
        invariant 2.0 * sum == SumOver(f, ys[..k]) as real
      {
        assert ys[..k + 1] == ys[..k] + [ys[k]];
        SumConcat(f, ys[..k], [ys[k]]);
        if ys[k].positive {
          sum := sum + avg;
        }
      }
      i := j;
    }
    assert ys[..|ys|] == ys;
  }

  /** ROC AUC by average ranks; undefined exactly when one class is missing. */
  method RocAuc(xs: seq<Scored>) returns (auc: Option<real>)
    ensures auc.None? <==> Positives(xs) == 0 || Negatives(xs) == 0
    ensures auc.Some? ==> auc.value == MannWhitney(xs) && 0.0 <= auc.value <= 1.0
  {
    var nPos := CountPositives(xs);
    var nNeg := |xs| - nPos;
    if nPos == 0 || nNeg == 0 {
      return None;
    }
    var ys := Ranked(xs);
    RankedFacts(xs);
    SumPermuted(One(true), ys, xs);
    CreditPermuted(ys, xs, false);
    RankSum(ys);
    var rankSum := RankSumPositives(ys);
    WinsBounded(xs);
    var value := (rankSum - (nPos * (nPos + 1)) as real / 2.0) / (nPos as real * nNeg as real);
    Scaled(rankSum, nPos, nNeg, Wins2(xs), value);
    auc := Some(value);
  }

  lemma Scaled(rankSum: real, p: nat, n: nat, w: nat, value: real)
    requires p > 0 && n > 0 && w <= 2 * (p * n)
    requires 2.0 * rankSum == (p * (p + 1) + w) as real
    requires p as real * n as real > 0.0
    requires value == (rankSum - (p * (p + 1)) as real / 2.0) / (p as real * n as real)
    ensures p * n > 0 && value == w as real / (2 * (p * n)) as real && 0.0 <= value <= 1.0
  {
  }

  lemma WinsBounded(xs: seq<Scored>)
    ensures Wins2(xs) <= 2 * (Positives(xs) * Negatives(xs))
  {
    var n := Negatives(xs);
    forall y: Scored ensures PairCredit(xs, false)(y) <= (if y.positive then 2 * n else 0) {
      CreditBounded(y.score, xs);
    }
    var cap := (y: Scored) => if y.positive then 2 * n else 0;
    SumBounded(PairCredit(xs, false), cap, xs);
    CapSum(xs, 2 * n);
    assert 2 * n * Positives(xs) == 2 * (Positives(xs) * n);
  }

  lemma {:induction false} CapSum(xs: seq<Scored>, c: nat)
    ensures SumOver((y: Scored) => if y.positive then c else 0, xs) == c * Positives(xs)
  {
    if xs != [] {
      CapSum(xs[1..], c);
      assert c * (1 + Positives(xs[1..])) == c + c * Positives(xs[1..]);
    }
  }

  lemma {:induction false} CreditBounded(s: real, xs: seq<Scored>)
    ensures SumOver(CreditOverClass(s, false), xs) <= 2 * Negatives(xs)
  {
    if xs != [] {
      CreditBounded(s, xs[1..]);
    }
  }

  /** The statistic does not depend on the order of the input. */
  lemma MannWhitneyPermuted(xs: seq<Scored>, ys: seq<Scored>)
    requires multiset(xs) == multiset(ys)
    ensures Positives(xs) == Positives(ys) && Negatives(xs) == Negatives(ys)
    ensures Positives(xs) > 0 && Negatives(xs) > 0 ==> MannWhitney(xs) == MannWhitney(ys)
  {
    SumPermuted(One(true), xs, ys);
    SumPermuted(One(false), xs, ys);
    CreditPermuted(xs, ys, false);
  }
}
