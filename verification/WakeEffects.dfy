/** What the parts of a wake add to the ledger, record by record. */
module WakeEffects {
  import opened Types
  import opened Streams
  import opened Splitting
  import opened Sorting
  import opened Engine

  function Amounts(rs: Ledger): (s: seq<nat>)
    ensures |s| == |rs|
  {
    seq(|rs|, i requires 0 <= i < |rs| => rs[i].amount)
  }

  /** `y` continues the ledger of `x` with one record per part, in order, all to `dest`. */
  ghost predicate PartsRecorded(x: Ctx, y: Ctx, dest: AccountId, kind: ActionKind, parts: seq<nat>) {
    && |y.chain.records| == |x.chain.records| + |parts|
    && x.chain.records <= y.chain.records
    && forall i :: 0 <= i < |parts| ==>
         var r := y.chain.records[|x.chain.records| + i];
         r.amount == parts[i] && r.dest == dest && r.kind == kind && r.operator == Some(x.agent.id)
  }

  /** All records from number `n` on are signed by `source`. */
  ghost predicate SignedFrom(y: Ctx, n: nat, source: AccountId) {
    forall i :: n <= i < |y.chain.records| ==> y.chain.records[i].source == source
  }

  lemma PartsOneMore(x: Ctx, m: Ctx, y: Ctx, dest: AccountId, kind: ActionKind, parts: seq<nat>)
    requires parts != [] && PartsRecorded(x, m, dest, kind, [parts[0]]) && PartsRecorded(m, y, dest, kind, parts[1..])
    requires m.agent.id == x.agent.id
    ensures PartsRecorded(x, y, dest, kind, parts)
  {
    var n := |x.chain.records|;
    forall i | 0 <= i < |parts|
      ensures var r := y.chain.records[n + i];
        r.amount == parts[i] && r.dest == dest && r.kind == kind && r.operator == Some(x.agent.id)
    {
      if i == 0 {
        assert [parts[0]][0] == parts[0] && y.chain.records[n] == m.chain.records[n + 0];
      } else {
        assert y.chain.records[n + i] == y.chain.records[|m.chain.records| + (i - 1)];
        assert parts[1..][i - 1] == parts[i];
      }
    }
  }

  lemma {:induction false} EmitPartsRecorded(w: Stream, x: Ctx, dest: AccountId, kind: ActionKind, parts: seq<nat>)
    requires x.agent.subaccounts != []
    ensures PartsRecorded(x, EmitParts(w, x, dest, kind, parts), dest, kind, parts)
    decreases |parts|
  {
    hide PartsRecorded;
    if parts == [] {
      NothingRecorded(x, dest, kind);
    } else {
      var m := EmitPart(w, x, dest, kind, parts[0]);
      PartRecorded(w, x, dest, kind, parts[0]);
      hide EmitPart;
      EmitPartsRecorded(w, m, dest, kind, parts[1..]);
      PartsOneMore(x, m, EmitParts(w, x, dest, kind, parts), dest, kind, parts);
    }
  }

  lemma NothingRecorded(x: Ctx, dest: AccountId, kind: ActionKind)
    ensures PartsRecorded(x, x, dest, kind, [])
  {
  }

  lemma PartRecorded(w: Stream, x: Ctx, dest: AccountId, kind: ActionKind, part: nat)
    requires x.agent.subaccounts != []
    ensures PartsRecorded(x, EmitPart(w, x, dest, kind, part), dest, kind, [part])
  {
  }

  /** A split never changes what one planned transfer moves, nor where it goes. */
  lemma EmitWithNoiseConserves(w: Stream, x: Ctx, p: PlannedTx, mode: Mode)
    requires x.agent.subaccounts != []
    ensures var (n, y) := (|x.chain.records|, Engine.EmitWithNoise(w, x, p, mode));
      && x.chain.records <= y.chain.records && |y.chain.records| > n
      && Total(Amounts(y.chain.records[n..])) == p.amount
      && forall i :: n <= i < |y.chain.records| ==> y.chain.records[i].dest == p.dest && y.chain.records[i].kind == p.kind
  {
    var n, y := |x.chain.records|, Engine.EmitWithNoise(w, x, p, mode);
    match mode
    case Naive =>
      assert Amounts(y.chain.records[n..]) == [p.amount] && [p.amount][..0] == [];
    case Cooker =>
      var m := x.(rng := SplitAmount(w, x.rng, p.amount, x.agent.persona.split).1);
      var parts := Emitted(w, x.rng, p.amount, x.agent.persona.split);
      hide SplitAmount, Emitted, EmitParts, Total;
      EmitPartsRecorded(w, m, p.dest, p.kind, parts);
      EmissionConserves(w, x.rng, p.amount, x.agent.persona.split);
      RecordedAmounts(m, y, p.dest, p.kind, parts);
  }

  lemma RecordedAmounts(x: Ctx, y: Ctx, dest: AccountId, kind: ActionKind, parts: seq<nat>)
    requires PartsRecorded(x, y, dest, kind, parts)
    ensures Amounts(y.chain.records[|x.chain.records|..]) == parts
    ensures forall i :: |x.chain.records| <= i < |y.chain.records| ==>
      y.chain.records[i].dest == dest && y.chain.records[i].kind == kind
  {
    var n := |x.chain.records|;
    forall i | n <= i < |y.chain.records| ensures y.chain.records[i].dest == dest && y.chain.records[i].kind == kind {
      var k := i - n;
      assert 0 <= k < |parts| && y.chain.records[n + k].amount == parts[k];
    }
  }

  lemma {:induction false} HardenedPartsRecorded(w: Stream, x: Ctx, source: AccountId, dest: AccountId,
      kind: ActionKind, parts: seq<nat>)
    ensures var y := HardenedParts(w, x, source, dest, kind, parts);
      PartsRecorded(x, y, dest, kind, parts) && SignedFrom(y, |x.chain.records|, source)
    decreases |parts|
  {
    hide PartsRecorded;
    if parts == [] {
      NothingRecorded(x, dest, kind);
    } else {
      var m := HardenedPart(w, x, source, dest, kind, parts[0]);
      HardenedPartRecorded(w, x, source, dest, kind, parts[0]);
      hide HardenedPart;
      HardenedPartsRecorded(w, m, source, dest, kind, parts[1..]);
      var y := HardenedParts(w, x, source, dest, kind, parts);
      PartsOneMore(x, m, y, dest, kind, parts);
      PartsAppend(m, y, dest, kind, parts[1..]);
    }
  }

  lemma HardenedPartRecorded(w: Stream, x: Ctx, source: AccountId, dest: AccountId, kind: ActionKind, part: nat)
    ensures var m := HardenedPart(w, x, source, dest, kind, part);
      && PartsRecorded(x, m, dest, kind, [part])
      && |m.chain.records| == |x.chain.records| + 1 && m.chain.records[|x.chain.records|].source == source
  {
  }

  lemma PartsAppend(x: Ctx, y: Ctx, dest: AccountId, kind: ActionKind, parts: seq<nat>)
    requires PartsRecorded(x, y, dest, kind, parts)
    ensures x.chain.records <= y.chain.records
  {
  }

  /** A hardened action moves the planned amount from one sub-account to one destination. */
  lemma ActOutwardConserves(w: Stream, x: Ctx, source: AccountId, externals: seq<AccountId>)
    requires externals != []
    ensures var (n, p, y) := (|x.chain.records|, ActingTx(w, x, source, externals), ActOutward(w, x, source, externals));
      && x.chain.records <= y.chain.records && |y.chain.records| > n
      && Total(Amounts(y.chain.records[n..])) == p.amount && SignedFrom(y, n, source)
      && forall i :: n <= i < |y.chain.records| ==> y.chain.records[i].dest == p.dest && y.chain.records[i].kind == p.kind
  {
    hide ActingTx, SplitAmount, Emitted, HardenedParts, Total;
    var p, y := ActingTx(w, x, source, externals), ActOutward(w, x, source, externals);
    var m := x.(rng := SplitAmount(w, x.rng + 3, p.amount, x.agent.persona.split).1);
    var parts := Emitted(w, x.rng + 3, p.amount, x.agent.persona.split);
    HardenedPartsRecorded(w, m, source, p.dest, p.kind, parts);
    EmissionConserves(w, x.rng + 3, p.amount, x.agent.persona.split);
    RecordedAmounts(m, y, p.dest, p.kind, parts);
  }

  // ---- rotation ----

  /** The drawn indices are pairwise different. */
  lemma ChosenDistinct(w: Stream, rng: Rng, n: nat, k: nat)
    requires n >= 1 && k <= n - 1
    ensures NoDup(Chosen(w, rng, n, k))
  {
    var s := OperationalIndices(n);
    NoDupMultiset(s);
    NoDupMultiset(Shuffled(w, rng, s, 0, k));
  }

  /** Where the successor drawn for the `m`-th rotated index comes from. */
  function SuccessorAt(w: Stream, rng: Rng, m: nat): AccountId {
    w.id(rng + 4 * m)
  }

  /** What the `m`-th rotation of `idxs` records. */
  ghost predicate SuccessionRecorded(w: Stream, x: Ctx, y: Ctx, idxs: seq<nat>, m: nat)
    requires m < |idxs| && Operational(idxs, |x.agent.subaccounts|)
    requires |y.chain.records| == |x.chain.records| + |idxs|
  {
    var r := y.chain.records[|x.chain.records| + m];
    && r.source == x.agent.subaccounts[idxs[m]] && r.dest == SuccessorAt(w, x.rng, m)
    && r.amount == SampleAmount(w, x.rng + 4 * m + 2) && r.feePayer == w.id(x.rng + 4 * m + 3)
    && r.kind == Transfer && r.operator == Some(x.agent.id)
    && r.ts == (if m == 0 then x.chain.clock else y.chain.records[|x.chain.records| + m - 1].ts) + Gap(w, x.rng + 4 * m + 1)
  }

  /**
   * Every chosen sub-account sends to its own successor, which replaces it; the others, and with
   * them the treasury in place 0, stay.
   */
  ghost predicate Rotated(w: Stream, x: Ctx, y: Ctx, idxs: seq<nat>)
    requires Operational(idxs, |x.agent.subaccounts|)
  {
    && |y.chain.records| == |x.chain.records| + |idxs| && x.chain.records <= y.chain.records
    && |y.agent.subaccounts| == |x.agent.subaccounts|
    && (forall m :: 0 <= m < |idxs| ==>
         SuccessionRecorded(w, x, y, idxs, m) && y.agent.subaccounts[idxs[m]] == SuccessorAt(w, x.rng, m))
    && (forall j :: 0 <= j < |x.agent.subaccounts| && j !in idxs ==> y.agent.subaccounts[j] == x.agent.subaccounts[j])
  }

  lemma {:induction false} SuccessionsRotate(w: Stream, x: Ctx, idxs: seq<nat>)
    requires Operational(idxs, |x.agent.subaccounts|) && NoDup(idxs)
    ensures Rotated(w, x, Successions(w, x, idxs), idxs)
    decreases |idxs|
  {
    if idxs != [] {
      var z := Succession(w, x, idxs[0]);
      assert idxs[0] !in idxs[1..];
      SuccessionsRotate(w, z, idxs[1..]);
      SuccessionFacts(w, x, idxs[0]);
      RotatedOneMore(w, x, z, Successions(w, x, idxs), idxs);
    }
  }

  lemma SuccessionFacts(w: Stream, x: Ctx, j: nat)
    requires 0 < j < |x.agent.subaccounts|
    ensures var z := Succession(w, x, j);
      Rotated(w, x, z, [j]) && z.rng == x.rng + 4 && z.chain.clock == z.chain.records[|x.chain.records|].ts
  {
  }

  lemma RotatedOneMore(w: Stream, x: Ctx, z: Ctx, y: Ctx, idxs: seq<nat>)
    requires idxs != [] && Operational(idxs, |x.agent.subaccounts|) && NoDup(idxs) && z.rng == x.rng + 4
    requires z.agent.id == x.agent.id && |z.chain.records| == |x.chain.records| + 1
    requires z.chain.clock == z.chain.records[|x.chain.records|].ts
    requires Rotated(w, x, z, [idxs[0]]) && |z.agent.subaccounts| == |x.agent.subaccounts| && Rotated(w, z, y, idxs[1..])
    ensures Rotated(w, x, y, idxs)
  {
    hide SampleAmount, Gap;
    forall m | 0 <= m < |idxs|
      ensures SuccessionRecorded(w, x, y, idxs, m) && y.agent.subaccounts[idxs[m]] == SuccessorAt(w, x.rng, m)
    {
      if m == 0 {
        assert SuccessionRecorded(w, x, z, [idxs[0]], 0);
      } else {
        assert SuccessionRecorded(w, z, y, idxs[1..], m - 1) && idxs[1..][m - 1] == idxs[m];
      }
    }
  }

  /** A rotation draws its indices without repetition and moves exactly those. */
  lemma RotateSomeRotates(w: Stream, x: Ctx, h: Hardening)
    requires |x.agent.subaccounts| >= 2
    ensures var (idxs, rng) := RotationDraw(w, x.rng, |x.agent.subaccounts|, h);
      NoDup(idxs) && |idxs| >= 1 && Rotated(w, x.(rng := rng), RotateSome(w, x, h), idxs)
  {
    var n := |x.agent.subaccounts|;
    var (idxs, rng) := RotationDraw(w, x.rng, n, h);
    var kmax := Clamp(h.sweepMaxSources, 1, n - 1);
    var (k, rng1) := TouchCount(w, x.rng, Clamp(h.sweepMinSources, 1, kmax), kmax);
    ChosenDistinct(w, rng1, n, k);
    SuccessionsRotate(w, x.(rng := rng), idxs);
  }
}
