/** Operator-disjoint cross-validation over all owned account pairs. */
module CrossValidation {
  import opened Types
  import opened Sorting

  /** One owned pair with its label and the folds of its two operators. */
  datatype Pair = Pair(a: AccountId, b: AccountId, y: bool, fa: nat, fb: nat)

  /** The trained model is abstract: any function from a training set and two accounts to a score. */
  type Model = (seq<Pair>, AccountId, AccountId) -> real

  function Operators(owner: map<AccountId, AgentId>): set<AgentId> {
    set a | a in owner :: owner[a]
  }

  function Smaller(ops: set<AgentId>, op: AgentId): set<AgentId> {
    set o: AgentId | o in ops && o < op
  }

  /** Position of an operator in ascending order. */
  function OpIndex(ops: set<AgentId>, op: AgentId): nat {
    |Smaller(ops, op)|
  }

  function FoldCount(folds: nat, ops: set<AgentId>): (k: nat)
    ensures k >= 1
  {
    Max(Min(folds, |ops|), 1)
  }

  function FoldOf(ops: set<AgentId>, k: nat, op: AgentId): (f: nat)
    requires k >= 1
    ensures f < k
  {
    OpIndex(ops, op) % k
  }

  function PairOf(owner: map<AccountId, AgentId>, k: nat, a: AccountId, b: AccountId): Pair
    requires a in owner && b in owner && k >= 1
  {
    var ops := Operators(owner);
    Pair(a, b, owner[a] == owner[b], FoldOf(ops, k, owner[a]), FoldOf(ops, k, owner[b]))
  }

  predicate Lexical(p: (AccountId, AccountId), q: (AccountId, AccountId)) {
    p.0 < q.0 || (p.0 == q.0 && p.1 < q.1)
  }

  ghost predicate PairsAscend(ab: seq<(AccountId, AccountId)>) {
    forall i, j :: 0 <= i < j < |ab| ==> Lexical(ab[i], ab[j])
  }

  lemma NoneAscend()
    ensures PairsAscend([])
  {
  }

  lemma AscendMore(ab: seq<(AccountId, AccountId)>, p: (AccountId, AccountId))
    requires PairsAscend(ab) && forall q :: q in ab ==> Lexical(q, p)
    ensures PairsAscend(ab + [p])
  {
    assert forall m :: 0 <= m < |ab| ==> ab[m] in ab;
  }

  /** The pairs ascend by their accounts, so that none occurs twice. */
  ghost predicate InOrder(pairs: seq<Pair>) {
    forall i, j :: 0 <= i < j < |pairs| ==> Lexical((pairs[i].a, pairs[i].b), (pairs[j].a, pairs[j].b))
  }

  /** `pairs` lists every unordered owned pair once, smaller account first. */
  ghost predicate IsPairList(owner: map<AccountId, AgentId>, k: nat, pairs: seq<Pair>)
    requires k >= 1
  {
    && (forall p :: p in pairs ==> p.a in owner && p.b in owner && p.a < p.b && p == PairOf(owner, k, p.a, p.b))
    && (forall a, b :: a in owner && b in owner && a < b ==> PairOf(owner, k, a, b) in pairs)
    && InOrder(pairs)
  }

  /** All index pairs of an ascending list, row by row. */
  method AccountPairs(v: seq<AccountId>) returns (ab: seq<(AccountId, AccountId)>)
    requires Ascending(v)
    ensures PairsAscend(ab)
    ensures forall p :: p in ab ==> p.0 in v && p.1 in v && p.0 < p.1
    ensures forall x, y :: 0 <= x < y < |v| ==> (v[x], v[y]) in ab
  {
    hide PairsAscend;
    ab := [];
    NoneAscend();
    for i := 0 to |v|
      invariant PairsAscend(ab)
      invariant forall p :: p in ab ==> p.0 in v && p.1 in v && p.0 < p.1 && (i < |v| ==> p.0 < v[i])
      invariant forall x, y :: 0 <= x < i && x < y < |v| ==> (v[x], v[y]) in ab
    {
      for j := i + 1 to |v|
        invariant PairsAscend(ab)
        invariant forall p :: p in ab ==>
          p.0 in v && p.1 in v && p.0 < p.1 && (p.0 < v[i] || (p.0 == v[i] && (j < |v| ==> p.1 < v[j])))
        invariant forall x, y :: 0 <= x < i && x < y < |v| ==> (v[x], v[y]) in ab
        invariant forall y :: i < y < j ==> (v[i], v[y]) in ab
      {
        AscendMore(ab, (v[i], v[j]));
        ab := ab + [(v[i], v[j])];
      }
    }
  }

  method BuildPairs(owner: map<AccountId, AgentId>, k: nat) returns (pairs: seq<Pair>)
    requires k >= 1
    ensures IsPairList(owner, k, pairs)
  {
    hide PairOf, IsPairList;
    var v := Ordered(owner.Keys);
    OrderedAscends(owner.Keys);
    var ab := AccountPairs(v);
    assert forall n :: 0 <= n < |ab| ==> ab[n] in ab;
    pairs := seq(|ab|, n requires 0 <= n < |ab| => PairOf(owner, k, ab[n].0, ab[n].1));
    forall a, b | a in owner && b in owner && a < b ensures (a, b) in ab {
      PairListed(v, ab, a, b);
    }
    AllListed(owner, k, ab, pairs);
  }

  lemma AllListed(owner: map<AccountId, AgentId>, k: nat, ab: seq<(AccountId, AccountId)>, pairs: seq<Pair>)
    requires k >= 1 && |pairs| == |ab| && PairsAscend(ab)
    requires forall n :: 0 <= n < |ab| ==> ab[n].0 in owner && ab[n].1 in owner && ab[n].0 < ab[n].1
    requires forall n :: 0 <= n < |ab| ==> pairs[n] == PairOf(owner, k, ab[n].0, ab[n].1)
    requires forall a, b :: a in owner && b in owner && a < b ==> (a, b) in ab
    ensures IsPairList(owner, k, pairs)
  {
    hide FoldOf, Operators;
    forall a, b | a in owner && b in owner && a < b ensures PairOf(owner, k, a, b) in pairs {
      var n :| 0 <= n < |ab| && ab[n] == (a, b);
      assert pairs[n] == PairOf(owner, k, a, b);
    }
  }

  lemma PairListed(v: seq<AccountId>, ab: seq<(AccountId, AccountId)>, a: AccountId, b: AccountId)
    requires Ascending(v) && a in v && b in v && a < b
    requires forall x, y :: 0 <= x < y < |v| ==> (v[x], v[y]) in ab
    ensures (a, b) in ab
  {
  }

  // ---- folds ----

  predicate Outside(p: Pair, fi: nat, fj: nat) {
    p.fa != fi && p.fa != fj && p.fb != fi && p.fb != fj
  }

  predicate HeldOut(p: Pair, fi: nat, fj: nat) {
    (p.fa == fi && p.fb == fj) || (p.fa == fj && p.fb == fi)
  }

  /** The pairs both of whose endpoints avoid the two held-out folds. */
  function Train(pairs: seq<Pair>, fi: nat, fj: nat): seq<Pair> {
    if pairs == [] then []
    else if Outside(pairs[|pairs| - 1], fi, fj) then Train(pairs[..|pairs| - 1], fi, fj) + [pairs[|pairs| - 1]]
    else Train(pairs[..|pairs| - 1], fi, fj)
  }

  lemma {:induction false} TrainMembers(pairs: seq<Pair>, fi: nat, fj: nat)
    ensures forall p :: p in Train(pairs, fi, fj) <==> p in pairs && Outside(p, fi, fj)
  {
    if pairs != [] {
      TrainMembers(pairs[..|pairs| - 1], fi, fj);
      assert pairs == pairs[..|pairs| - 1] + [pairs[|pairs| - 1]];
    }
  }

  lemma {:induction false} TrainSymmetric(pairs: seq<Pair>, fi: nat, fj: nat)
    ensures Train(pairs, fi, fj) == Train(pairs, fj, fi)
  {
    if pairs != [] {
      TrainSymmetric(pairs[..|pairs| - 1], fi, fj);
    }
  }

  method FilterTrain(pairs: seq<Pair>, fi: nat, fj: nat) returns (train: seq<Pair>)
    ensures train == Train(pairs, fi, fj)
  {
    train := [];
    for n := 0 to |pairs|
      invariant train == Train(pairs[..n], fi, fj)
    {
      assert pairs[..n + 1][..n] == pairs[..n];
      if Outside(pairs[n], fi, fj) {
        train := train + [pairs[n]];
      }
    }
    assert pairs[..|pairs|] == pairs;
  }

  /** The score of a pair: the model blind to both its folds, or 0 when nothing is left to train on. */
  function HeldOutScore(predict: Model, pairs: seq<Pair>, p: Pair): real {
    var train := Train(pairs, p.fa, p.fb);
    if train == [] then 0.0 else predict(train, p.a, p.b)
  }

  lemma {:induction false} TrainInOrder(pairs: seq<Pair>, fi: nat, fj: nat)
    requires InOrder(pairs)
    ensures InOrder(Train(pairs, fi, fj))
  {
    if pairs != [] {
      var init, last := pairs[..|pairs| - 1], pairs[|pairs| - 1];
      TrainInOrder(init, fi, fj);
      TrainMembers(init, fi, fj);
      var train := Train(init, fi, fj);
      forall i | 0 <= i < |train| ensures Lexical((train[i].a, train[i].b), (last.a, last.b)) {
        assert train[i] in init;
      }
    }
  }

  /** `train` lists, in order, exactly the pairs that share no fold with `p`. */
  ghost predicate TrainsFor(pairs: seq<Pair>, p: Pair, train: seq<Pair>) {
    InOrder(train) && forall q :: q in train <==> q in pairs && {q.fa, q.fb} !! {p.fa, p.fb}
  }

  /** `x` is what a model trained on all pairs in other folds gives `p`, or 0 when there are none. */
  ghost predicate BlindScore(predict: Model, pairs: seq<Pair>, p: Pair, x: real) {
    exists train :: TrainsFor(pairs, p, train) && x == if train == [] then 0.0 else predict(train, p.a, p.b)
  }

  lemma HeldOutIsBlind(predict: Model, pairs: seq<Pair>, p: Pair)
    requires InOrder(pairs)
    ensures BlindScore(predict, pairs, p, HeldOutScore(predict, pairs, p))
  {
    TrainInOrder(pairs, p.fa, p.fb);
    TrainMembers(pairs, p.fa, p.fb);
    assert TrainsFor(pairs, p, Train(pairs, p.fa, p.fb));
  }

  lemma SomeMember(t: seq<Pair>)
    requires |t| > 0
    ensures exists q :: q in t
  {
    assert t[0] in t;
  }

  /** The members determine an ordered list. */
  lemma {:induction false} OrderedUnique(s: seq<Pair>, t: seq<Pair>)
    requires InOrder(s) && InOrder(t) && forall q :: q in s <==> q in t
    ensures s == t
    decreases |s|
  {
    if s == [] {
      if |t| > 0 {
        SomeMember(t);
      }
    } else {
      assert s[0] in s && s[0] in t && t[0] in t && t[0] in s;
      assert s[0] == t[0];
      assert s == [s[0]] + s[1..] && t == [t[0]] + t[1..];
      assert s[0] !in s[1..] && s[0] !in t[1..];
      forall q ensures q in s[1..] <==> q in t[1..] {
        assert q in s <==> q == s[0] || q in s[1..];
        assert q in t <==> q == t[0] || q in t[1..];
      }
      OrderedUnique(s[1..], t[1..]);
    }
  }

  /** A pair has one score. */
  lemma BlindScoreUnique(predict: Model, pairs: seq<Pair>, p: Pair, x: real, y: real)
    requires BlindScore(predict, pairs, p, x) && BlindScore(predict, pairs, p, y)
    ensures x == y
  {
    hide InOrder;
    var s :| TrainsFor(pairs, p, s) && x == if s == [] then 0.0 else predict(s, p.a, p.b);
    var t :| TrainsFor(pairs, p, t) && y == if t == [] then 0.0 else predict(t, p.a, p.b);
    OrderedUnique(s, t);
  }

  /** The unordered fold pairs handled before `(fi, fj)`. */
  predicate Before(p: Pair, fi: nat, fj: nat) {
    var (lo, hi) := (Min(p.fa, p.fb), Max(p.fa, p.fb));
    lo < fi || (lo == fi && hi < fj)
  }

  /** One model per unordered pair of folds; every pair ends with its held-out score. */
  method CrossValidate(pairs: seq<Pair>, k: nat, predict: Model) returns (proba: seq<real>)
    requires forall n :: 0 <= n < |pairs| ==> pairs[n].fa < k && pairs[n].fb < k
    ensures |proba| == |pairs|
    ensures forall n :: 0 <= n < |pairs| ==> proba[n] == HeldOutScore(predict, pairs, pairs[n])
    ensures InOrder(pairs) ==> forall n :: 0 <= n < |pairs| ==> BlindScore(predict, pairs, pairs[n], proba[n])
  {
    hide InOrder, HeldOutScore, BlindScore;
    proba := seq(|pairs|, n => 0.0);
    for fi := 0 to k
      invariant |proba| == |pairs|
      invariant forall n :: 0 <= n < |pairs| ==>
        proba[n] == if Before(pairs[n], fi, fi) then HeldOutScore(predict, pairs, pairs[n]) else 0.0
    {
      for fj := fi to k
        invariant |proba| == |pairs|
        invariant forall n :: 0 <= n < |pairs| ==>
          proba[n] == if Before(pairs[n], fi, fj) then HeldOutScore(predict, pairs, pairs[n]) else 0.0
      {
        proba := ScoreFolds(pairs, fi, fj, predict, proba);
      }
    }
    if InOrder(pairs) {
      forall n | 0 <= n < |pairs| ensures BlindScore(predict, pairs, pairs[n], proba[n]) {
        HeldOutIsBlind(predict, pairs, pairs[n]);
      }
    }
  }

  /** Trains on what avoids both folds and scores exactly the pairs that land in them. */
  method ScoreFolds(pairs: seq<Pair>, fi: nat, fj: nat, predict: Model, proba: seq<real>) returns (next: seq<real>)
    requires fi <= fj && |proba| == |pairs|
    requires forall n :: 0 <= n < |pairs| ==>
      proba[n] == if Before(pairs[n], fi, fj) then HeldOutScore(predict, pairs, pairs[n]) else 0.0
    ensures |next| == |pairs|
    ensures forall n :: 0 <= n < |pairs| ==>
      next[n] == if Before(pairs[n], fi, fj + 1) then HeldOutScore(predict, pairs, pairs[n]) else 0.0
  {
    next := proba;
    var train := FilterTrain(pairs, fi, fj);
    TrainSymmetric(pairs, fi, fj);
    forall n | 0 <= n < |pairs| ensures Before(pairs[n], fi, fj + 1) <==> Before(pairs[n], fi, fj) || HeldOut(pairs[n], fi, fj) {}
    if train == [] {
      return;
    }
    for n := 0 to |pairs|
      invariant |next| == |pairs|
      invariant forall m :: 0 <= m < |pairs| ==>
        next[m] == if Before(pairs[m], fi, fj) || (m < n && HeldOut(pairs[m], fi, fj))
                   then HeldOutScore(predict, pairs, pairs[m]) else 0.0
    {
      if HeldOut(pairs[n], fi, fj) {
        next := next[n := predict(train, pairs[n].a, pairs[n].b)];
      }
    }
  }

  // ---- the gate ----

  datatype MlConfig = MlConfig(folds: nat, minOperators: nat, minPositivePairs: nat)

  /** How many pairs have one operator. */
  function Positives(pairs: seq<Pair>): nat {
    if pairs == [] then 0 else Positives(pairs[..|pairs| - 1]) + if pairs[|pairs| - 1].y then 1 else 0
  }

  /** The unordered pairs of accounts with one operator. */
  ghost function OneOperator(owner: map<AccountId, AgentId>): set<(AccountId, AccountId)> {
    set a, b | a in owner && b in owner && a < b && owner[a] == owner[b] :: (a, b)
  }

  ghost function PositiveSet(pairs: seq<Pair>): set<(AccountId, AccountId)> {
    set p | p in pairs && p.y :: (p.a, p.b)
  }

  lemma {:induction false} PositivesAreSet(pairs: seq<Pair>)
    requires InOrder(pairs)
    ensures Positives(pairs) == |PositiveSet(pairs)|
    decreases |pairs|
  {
    if pairs == [] {
      assert PositiveSet(pairs) == {};
    } else {
      var init, last := pairs[..|pairs| - 1], pairs[|pairs| - 1];
      PositivesAreSet(init);
      assert pairs == init + [last];
      assert (last.a, last.b) !in PositiveSet(init);
      assert PositiveSet(pairs) == if last.y then PositiveSet(init) + {(last.a, last.b)} else PositiveSet(init);
    }
  }

  /** The gate counts the pairs of accounts with one operator. */
  lemma PositivesCount(owner: map<AccountId, AgentId>, k: nat, pairs: seq<Pair>)
    requires k >= 1 && IsPairList(owner, k, pairs)
    ensures Positives(pairs) == |OneOperator(owner)|
  {
    PositivesAreSet(pairs);
    forall a, b ensures (a, b) in PositiveSet(pairs) <==> (a, b) in OneOperator(owner) {
      if (a, b) in OneOperator(owner) {
        assert PairOf(owner, k, a, b) in pairs && PairOf(owner, k, a, b).y;
      }
    }
    assert PositiveSet(pairs) == OneOperator(owner);
  }

  /** There is enough to learn from and to test on; otherwise nothing is trained. */
  ghost predicate Defined(owner: map<AccountId, AgentId>, cfg: MlConfig) {
    && |Operators(owner)| >= cfg.minOperators && |OneOperator(owner)| >= cfg.minPositivePairs
    && cfg.folds >= 2 && |Operators(owner)| >= 2
  }

  method CountPositives(pairs: seq<Pair>) returns (n: nat)
    ensures n == Positives(pairs)
  {
    n := 0;
    for i := 0 to |pairs|
      invariant n == Positives(pairs[..i])
    {
      assert pairs[..i + 1][..i] == pairs[..i];
      if pairs[i].y {
        n := n + 1;
      }
    }
    assert pairs[..|pairs|] == pairs;
  }

  /** All owned pairs and their scores: held out behind the gate, and zero when it stays shut. */
  method ScorePairs(owner: map<AccountId, AgentId>, cfg: MlConfig, predict: Model)
    returns (pairs: seq<Pair>, defined: bool, proba: seq<real>)
    ensures IsPairList(owner, FoldCount(cfg.folds, Operators(owner)), pairs)
    ensures defined == Defined(owner, cfg) && |proba| == |pairs|
    ensures forall n :: 0 <= n < |pairs| ==>
      if defined then BlindScore(predict, pairs, pairs[n], proba[n]) else proba[n] == 0.0
  {
    hide Positives, HeldOutScore, BlindScore, InOrder;
    var operators := Operators(owner);
    var k := FoldCount(cfg.folds, operators);
    pairs := BuildPairs(owner, k);
    var positive := CountPositives(pairs);
    PositivesCount(owner, k, pairs);
    defined := |operators| >= cfg.minOperators && positive >= cfg.minPositivePairs && k >= 2;
    if defined {
      forall n | 0 <= n < |pairs| ensures pairs[n].fa < k && pairs[n].fb < k {
        assert pairs[n] in pairs;
      }
      proba := CrossValidate(pairs, k, predict);
    } else {
      proba := seq(|pairs|, n => 0.0);
    }
  }

  // ---- what the folds guarantee ----

  /** Every pair lands in exactly one unordered fold pair. */
  lemma HeldOutOnce(p: Pair, fi: nat, fj: nat)
    requires fi <= fj
    ensures HeldOut(p, fi, fj) <==> fi == Min(p.fa, p.fb) && fj == Max(p.fa, p.fb)
  {
  }

  /** No training pair touches an operator of the pair it helps to score. */
  lemma TrainingIsBlind(owner: map<AccountId, AgentId>, k: nat, pairs: seq<Pair>, p: Pair, q: Pair)
    requires k >= 1 && IsPairList(owner, k, pairs) && p in pairs && q in Train(pairs, p.fa, p.fb)
    ensures q.a in owner && q.b in owner && p.a in owner && p.b in owner
    ensures {owner[q.a], owner[q.b]} !! {owner[p.a], owner[p.b]}
  {
    TrainMembers(pairs, p.fa, p.fb);
  }

  /** Every pair of `train` is apart from both operators of `p`. */
  ghost predicate Blind(owner: map<AccountId, AgentId>, p: Pair, train: seq<Pair>)
    requires p.a in owner && p.b in owner
  {
    forall q :: q in train ==> q.a in owner && q.b in owner && {owner[q.a], owner[q.b]} !! {owner[p.a], owner[p.b]}
  }

  /** What a model makes of pairs that touch an operator of `p` does not influence the score of `p`. */
  lemma NoInterference(owner: map<AccountId, AgentId>, k: nat, pairs: seq<Pair>, p: Pair, f: Model, g: Model,
      x: real, y: real)
    requires k >= 1 && IsPairList(owner, k, pairs) && p in pairs
    requires BlindScore(f, pairs, p, x) && BlindScore(g, pairs, p, y)
    requires forall train :: Blind(owner, p, train) ==> f(train, p.a, p.b) == g(train, p.a, p.b)
    ensures x == y
  {
    var s :| TrainsFor(pairs, p, s) && x == if s == [] then 0.0 else f(s, p.a, p.b);
    forall q | q in s ensures q.a in owner && q.b in owner && {owner[q.a], owner[q.b]} !! {owner[p.a], owner[p.b]} {
      TrainMembers(pairs, p.fa, p.fb);
      assert q in Train(pairs, p.fa, p.fb);
      TrainingIsBlind(owner, k, pairs, p, q);
    }
    assert Blind(owner, p, s);
    hide Blind, TrainsFor, IsPairList;
    assert BlindScore(g, pairs, p, x);
    BlindScoreUnique(g, pairs, p, x, y);
  }

  ghost function OutsideAccounts(owner: map<AccountId, AgentId>, k: nat, fi: nat, fj: nat): set<AccountId>
    requires k >= 1
  {
    set a | a in owner && FoldOf(Operators(owner), k, owner[a]) != fi && FoldOf(Operators(owner), k, owner[a]) != fj
  }

  /** A fold pair can be trained for iff at least two owned accounts lie outside it. */
  lemma TrainableIff(owner: map<AccountId, AgentId>, k: nat, pairs: seq<Pair>, fi: nat, fj: nat)
    requires k >= 1 && IsPairList(owner, k, pairs)
    ensures Train(pairs, fi, fj) != [] <==> |OutsideAccounts(owner, k, fi, fj)| >= 2
  {
    TrainMembers(pairs, fi, fj);
    var out := OutsideAccounts(owner, k, fi, fj);
    if Train(pairs, fi, fj) != [] {
      var q := Train(pairs, fi, fj)[0];
      assert q in pairs && Outside(q, fi, fj);
      assert {q.a, q.b} <= out;
      assert out == {q.a, q.b} + (out - {q.a, q.b});
      assert |out| == |{q.a, q.b}| + |out - {q.a, q.b}|;
    }
    if |out| >= 2 {
      var x :| x in out;
      var rest := out - {x};
      assert |rest| >= 1;
      var y :| y in rest;
      var (a, b) := (Min(x, y) as nat, Max(x, y) as nat);
      assert PairOf(owner, k, a, b) in pairs && Outside(PairOf(owner, k, a, b), fi, fj);
      assert PairOf(owner, k, a, b) in Train(pairs, fi, fj);
    }
  }

  /** The operator at position `r` of the ascending order has index `r`. */
  lemma OpIndexOfOrdered(ops: set<AgentId>, r: nat)
    requires r < |ops|
    ensures r < |Ordered(ops)| && Ordered(ops)[r] in ops && OpIndex(ops, Ordered(ops)[r]) == r
  {
    OrderedAscends(ops);
    var v := Ordered(ops);
    assert v[r] in v;
    forall o: nat ensures o in Smaller(ops, v[r]) <==> o in v[..r] {
      BelowIsPrefix(v, r, o);
    }
    DistinctCount(v[..r], Smaller(ops, v[r]));
  }

  lemma BelowIsPrefix(v: seq<nat>, r: nat, o: nat)
    requires Ascending(v) && r < |v|
    ensures o in v && o < v[r] <==> o in v[..r]
  {
  }

  lemma {:induction false} DistinctCount(v: seq<nat>, s: set<nat>)
    requires Ascending(v) && forall x :: x in s <==> x in v
    ensures |s| == |v|
    decreases v
  {
    if v == [] {
      assert s == {};
    } else {
      var t := v[..|v| - 1];
      var last := v[|v| - 1];
      assert v == t + [last];
      assert last !in t;
      DistinctCount(t, s - {last});
    }
  }

  /** With at least four folds every fold pair leaves a non-empty training set. */
  lemma FourFoldsAlwaysTrain(owner: map<AccountId, AgentId>, folds: nat, pairs: seq<Pair>, fi: nat, fj: nat)
    requires FoldCount(folds, Operators(owner)) >= 4
    requires IsPairList(owner, FoldCount(folds, Operators(owner)), pairs)
    ensures Train(pairs, fi, fj) != []
  {
    var k := FoldCount(folds, Operators(owner));
    var r := if fi != 0 && fj != 0 then 0 else if fi != 1 && fj != 1 then 1 else 2;
    var s := if fi != 3 && fj != 3 then 3 else if fi != 2 && fj != 2 && r != 2 then 2 else 1;
    var x := AccountInFold(owner, k, r);
    var y := AccountInFold(owner, k, s);
    var out := OutsideAccounts(owner, k, fi, fj);
    assert x in out && y in out && x != y;
    assert out == {x, y} + (out - {x, y});
    assert |out| == |{x, y}| + |out - {x, y}|;
    TrainableIff(owner, k, pairs, fi, fj);
  }

  /** No fold is empty. */
  lemma AccountInFold(owner: map<AccountId, AgentId>, k: nat, f: nat) returns (x: AccountId)
    requires f < k <= |Operators(owner)|
    ensures x in owner && FoldOf(Operators(owner), k, owner[x]) == f
  {
    var ops := Operators(owner);
    OpIndexOfOrdered(ops, f);
    x :| x in owner && owner[x] == Ordered(ops)[f];
  }

  /** When there are twice as many operators as folds, every fold has two accounts. */
  lemma TwoInFold(owner: map<AccountId, AgentId>, k: nat, f: nat) returns (x: AccountId, y: AccountId)
    requires f < k && 2 * k <= |Operators(owner)|
    ensures x in owner && y in owner && x != y
    ensures FoldOf(Operators(owner), k, owner[x]) == f && FoldOf(Operators(owner), k, owner[y]) == f
  {
    var ops := Operators(owner);
    OpIndexOfOrdered(ops, f);
    OpIndexOfOrdered(ops, f + k);
    NextRound(f, k);
    hide OpIndex;
    x :| x in owner && owner[x] == Ordered(ops)[f];
    y :| y in owner && owner[y] == Ordered(ops)[f + k];
  }

  lemma NextRound(f: nat, k: nat)
    requires f < k
    ensures f % k == f && (f + k) % k == f
  {
  }

  lemma TwoOutside(owner: map<AccountId, AgentId>, k: nat, pairs: seq<Pair>, fi: nat, fj: nat, x: AccountId,
      y: AccountId)
    requires k >= 1 && IsPairList(owner, k, pairs) && x in owner && y in owner && x != y
    requires {FoldOf(Operators(owner), k, owner[x]), FoldOf(Operators(owner), k, owner[y])} !! {fi, fj}
    ensures Train(pairs, fi, fj) != []
  {
    var out := OutsideAccounts(owner, k, fi, fj);
    assert x in out && y in out;
    assert out == {x, y} + (out - {x, y});
    assert |out| == |{x, y}| + |out - {x, y}|;
    TrainableIff(owner, k, pairs, fi, fj);
  }

  /** With six operators, as the default gate asks, only a pair across both of two folds is never trained for. */
  lemma SixOperatorsTrainIff(owner: map<AccountId, AgentId>, k: nat, pairs: seq<Pair>, fi: nat, fj: nat)
    requires 6 <= |Operators(owner)| && 2 <= k <= |Operators(owner)| && IsPairList(owner, k, pairs) && fi < k && fj < k
    ensures Train(pairs, fi, fj) == [] <==> k == 2 && fi != fj
  {
    if k == 2 && fi != fj {
      assert OutsideAccounts(owner, k, fi, fj) == {};
      TrainableIff(owner, k, pairs, fi, fj);
    } else if k <= 3 {
      var f := if fi != 0 && fj != 0 then 0 else if fi != 1 && fj != 1 then 1 else 2;
      var x, y := TwoInFold(owner, k, f);
      TwoOutside(owner, k, pairs, fi, fj, x, y);
    } else {
      FourFoldsAlwaysTrain(owner, k, pairs, fi, fj);
    }
  }

  function ThreeOperators(): map<AccountId, AgentId> {
    map[9 := 0, 10 := 0, 11 := 1, 12 := 2]
  }

  /** With fewer operators three folds are not enough: behind this gate the third fold has no pair. */
  lemma ThreeFoldsMayNotTrain(predict: Model, pairs: seq<Pair>)
    requires IsPairList(ThreeOperators(), 3, pairs)
    ensures FoldCount(3, Operators(ThreeOperators())) == 3 && Defined(ThreeOperators(), MlConfig(3, 3, 1))
    ensures Train(pairs, 0, 1) == []
    ensures var p := PairOf(ThreeOperators(), 3, 10, 11); p in pairs && forall x :: BlindScore(predict, pairs, p, x) <==> x == 0.0
  {
    var owner := ThreeOperators();
    var ops := Operators(owner);
    assert owner[9] == 0 && owner[10] == 0 && owner[11] == 1 && owner[12] == 2;
    assert ops == {0, 1, 2};
    assert Smaller(ops, 0) == {} && Smaller(ops, 1) == {0};
    assert OpIndex(ops, 0) == 0 && OpIndex(ops, 1) == 1;
    assert FoldOf(ops, 3, 0) == 0 && FoldOf(ops, 3, 1) == 1;
    assert (9, 10) in OneOperator(owner);
    OnlyOneOutside(pairs);
    TrainableIff(owner, 3, pairs, 0, 1);
    var p := PairOf(owner, 3, 10, 11);
    HeldOutIsBlind(predict, pairs, p);
    forall x | BlindScore(predict, pairs, p, x) ensures x == 0.0 {
      BlindScoreUnique(predict, pairs, p, x, 0.0);
    }
  }

  lemma OnlyOneOutside(pairs: seq<Pair>)
    requires FoldOf(Operators(ThreeOperators()), 3, 0) == 0 && FoldOf(Operators(ThreeOperators()), 3, 1) == 1
    ensures |OutsideAccounts(ThreeOperators(), 3, 0, 1)| <= 1
  {
    var out := OutsideAccounts(ThreeOperators(), 3, 0, 1);
    assert out <= {12};
    assert {12} == out + ({12} - out);
    assert |{12}| == |out| + |{12} - out|;
  }
}
