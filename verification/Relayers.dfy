/** Which account funds whom: the drawn funders of the funding post-pass. */
module Relayers {
  import opened Types
  import opened Streams
  import opened EventLoop
  import opened Funding

  /** The funder that operator `op` keeps through the whole post-pass. */
  function FunderOf(w: Stream, fcfg: FundingConfig, hubs: seq<AccountId>, op: AgentId): Funder
    requires op < |hubs| && !PerEvent(fcfg)
  {
    match fcfg.policy
    case OperatorHub => Funder(hubs[op], Some(op))
    case DedicatedFunder => Funder(w.id(op), Some(op))
    case SharedRelayers(_) =>
      var k := PoolSize(fcfg.policy);
      Funder(w.id(Index(w, k + op, k)), None)
  }

  /** The position after the roster has been drawn. */
  function RosterEnd(fcfg: FundingConfig, n: nat): Rng {
    match fcfg.policy
    case OperatorHub => 0
    case DedicatedFunder => n
    case SharedRelayers(_) => PoolSize(fcfg.policy) + if fcfg.sticky then n else 0
  }

  /** The pool is the first identifiers, and every operator has its own hub, wallet or drawn pool member. */
  lemma RosterDrawn(w: Stream, fcfg: FundingConfig, hubs: seq<AccountId>)
    ensures var t := DrawRoster(w, fcfg, hubs);
      && |t.relayers| == PoolSize(fcfg.policy) && t.rng == RosterEnd(fcfg, |hubs|)
      && (forall m :: 0 <= m < |t.relayers| ==> t.relayers[m] == w.id(m))
      && (!PerEvent(fcfg) ==> forall op :: 0 <= op < |hubs| ==> t.funders[op] == FunderOf(w, fcfg, hubs, op))
  {
    var k := PoolSize(fcfg.policy);
    var relayers := DrawIds(w, 0, k);
    var funders := AssignFunders(w, fcfg, relayers, hubs, |hubs|, k).0;
    if !PerEvent(fcfg) {
      forall op | 0 <= op < |hubs| ensures funders[op] == FunderOf(w, fcfg, hubs, op) {
        assert funders[op].account == FunderOf(w, fcfg, hubs, op).account;
      }
    }
  }

  /** How many records before `n` make the post-pass look for a funder. */
  ghost function Consulted(rs: Ledger, n: nat): nat
    requires n <= |rs|
  {
    if n == 0 then 0 else Consulted(rs, n - 1) + if Consults(rs, n - 1) then 1 else 0
  }

  ghost predicate Consults(rs: Ledger, i: nat) {
    FirstUse(rs, i) && rs[i].feePayer !in Sources(rs) && rs[i].operator.Some?
  }

  /** How many records before `n` trigger a funding. */
  ghost function Triggered(w: Stream, fcfg: FundingConfig, t: Roster, rs: Ledger, n: nat): nat
    requires n <= |rs| && Resolvable(fcfg, rs, |t.funders|) && (PerEvent(fcfg) ==> t.relayers != [])
  {
    if n == 0 then 0
    else Triggered(w, fcfg, t, rs, n - 1) + if Triggers(w, fcfg, t, rs, n - 1) then 1 else 0
  }

  /** Where the draws for record `i` begin: one per relayer looked for, two per funding. */
  ghost function Position(w: Stream, fcfg: FundingConfig, t: Roster, rs: Ledger, i: nat): Rng
    requires i <= |rs| && Resolvable(fcfg, rs, |t.funders|) && (PerEvent(fcfg) ==> t.relayers != [])
  {
    t.rng + (if PerEvent(fcfg) then Consulted(rs, i) else 0) + 2 * Triggered(w, fcfg, t, rs, i)
  }

  lemma {:induction false} PositionIs(w: Stream, fcfg: FundingConfig, t: Roster, rs: Ledger, n: nat)
    requires n <= |rs| && Resolvable(fcfg, rs, |t.funders|) && (PerEvent(fcfg) ==> t.relayers != [])
    ensures Funded(w, fcfg, t, rs, n).rng == Position(w, fcfg, t, rs, n)
    ensures |Funded(w, fcfg, t, rs, n).events| == Triggered(w, fcfg, t, rs, n)
    decreases n
  {
    if n > 0 {
      PositionIs(w, fcfg, t, rs, n - 1);
      FundedMarks(w, fcfg, t, rs, n - 1);
      var p, r := Funded(w, fcfg, t, rs, n - 1), rs[n - 1];
      assert r.feePayer !in Sources(rs) ==> (r.feePayer in p.funded <==> !FirstUse(rs, n - 1));
    }
  }

  /** The funder of record `i`: its operator's own, or the pool member drawn at the record's position. */
  lemma FunderDrawn(w: Stream, fcfg: FundingConfig, hubs: seq<AccountId>, rs: Ledger, i: nat)
    requires i < |rs| && Resolvable(fcfg, rs, |hubs|) && Consults(rs, i)
    ensures var t := DrawRoster(w, fcfg, hubs);
      var k := PoolSize(fcfg.policy);
      FunderAt(w, fcfg, t, rs, i) ==
        if PerEvent(fcfg) then Funder(w.id(Index(w, Position(w, fcfg, t, rs, i), k)), None)
        else FunderOf(w, fcfg, hubs, rs[i].operator.value)
  {
    hide DrawRoster, Position, FunderOf;
    var t := DrawRoster(w, fcfg, hubs);
    RosterDrawn(w, fcfg, hubs);
    PositionIs(w, fcfg, t, rs, i);
  }

  /** A funding's lead and amount are the two draws that follow. */
  lemma FundingDrawn(w: Stream, fcfg: FundingConfig, t: Roster, rs: Ledger, i: nat)
    requires i < |rs| && Resolvable(fcfg, rs, |t.funders|) && (PerEvent(fcfg) ==> t.relayers != [])
    requires Triggers(w, fcfg, t, rs, i)
    ensures var es := Funded(w, fcfg, t, rs, i + 1).events;
      var at := Position(w, fcfg, t, rs, i) + if PerEvent(fcfg) then 1 else 0;
      && |es| == Triggered(w, fcfg, t, rs, i) + 1
      && rs[i].ts - es[|es| - 1].ts == Range(w, at, fcfg.leadMinSecs, Max(fcfg.leadMaxSecs, fcfg.leadMinSecs))
      && es[|es| - 1].amount == Range(w, at + 1, fcfg.topupMin, Max(fcfg.topupMax, fcfg.topupMin))
  {
    hide Position, FirstUse;
    PositionIs(w, fcfg, t, rs, i);
    Unmarked(w, fcfg, t, rs, i);
  }

  lemma Unmarked(w: Stream, fcfg: FundingConfig, t: Roster, rs: Ledger, i: nat)
    requires i < |rs| && Resolvable(fcfg, rs, |t.funders|) && (PerEvent(fcfg) ==> t.relayers != [])
    ensures FirstUse(rs, i) ==> rs[i].feePayer !in Funded(w, fcfg, t, rs, i).funded
  {
    FundedMarks(w, fcfg, t, rs, i);
  }

  /** `e` funds the fee-payer of a record of operator `op`. */
  ghost predicate FundsOperator(rs: Ledger, e: TxRecord, op: AgentId) {
    exists i :: 0 <= i < |rs| && FirstUse(rs, i) && rs[i].feePayer == e.dest && rs[i].operator == Some(op)
  }

  /** The record a funding in the suffix is for. */
  lemma SuffixUse(w: Stream, fcfg: FundingConfig, rs: Ledger, hubs: seq<AccountId>, e: TxRecord) returns (i: nat)
    requires Resolvable(fcfg, rs, |hubs|) && e in Suffix(w, fcfg, rs, hubs)
    ensures i < |rs| && FundedBy(w, fcfg, DrawRoster(w, fcfg, hubs), rs, i, e)
  {
    hide DrawRoster, Suffix, FundedBy, Resolvable;
    SuffixFundsExactly(w, fcfg, rs, hubs);
    i :| 0 <= i < |rs| && FundedBy(w, fcfg, DrawRoster(w, fcfg, hubs), rs, i, e);
  }

  /** A funding comes from the funder of the first use it is for. */
  lemma FundedFrom(w: Stream, fcfg: FundingConfig, t: Roster, rs: Ledger, i: nat, e: TxRecord)
    requires i < |rs| && Resolvable(fcfg, rs, |t.funders|) && (PerEvent(fcfg) ==> t.relayers != [])
    requires FundedBy(w, fcfg, t, rs, i, e)
    ensures Consults(rs, i) && FirstUse(rs, i) && rs[i].feePayer == e.dest && rs[i].operator.Some?
    ensures Funder(e.source, e.operator) == FunderAt(w, fcfg, t, rs, i)
  {
    hide FunderAt, FirstUse, Resolvable;
  }

  /** Without a draw per event every funding comes from the one funder of the operator it is for. */
  lemma SuffixByOperator(w: Stream, fcfg: FundingConfig, rs: Ledger, hubs: seq<AccountId>, e: TxRecord)
    returns (op: AgentId)
    requires Resolvable(fcfg, rs, |hubs|) && !PerEvent(fcfg) && e in Suffix(w, fcfg, rs, hubs)
    ensures op < |hubs| && FundsOperator(rs, e, op)
    ensures Funder(e.source, e.operator) == FunderOf(w, fcfg, hubs, op)
  {
    hide DrawRoster, Suffix, FunderAt, FunderOf, FundedBy, FirstUse;
    var i := SuffixUse(w, fcfg, rs, hubs, e);
    FundedFrom(w, fcfg, DrawRoster(w, fcfg, hubs), rs, i, e);
    FunderDrawn(w, fcfg, hubs, rs, i);
    op := rs[i].operator.value;
  }

  /** So two fundings for one operator come from one account. */
  lemma OneSourcePerOperator(w: Stream, fcfg: FundingConfig, rs: Ledger, hubs: seq<AccountId>, d: TxRecord,
      e: TxRecord, op: AgentId)
    requires Resolvable(fcfg, rs, |hubs|) && !PerEvent(fcfg)
    requires d in Suffix(w, fcfg, rs, hubs) && e in Suffix(w, fcfg, rs, hubs)
    requires FundsOperator(rs, d, op) && FundsOperator(rs, e, op)
    ensures op < |hubs| && Funder(d.source, d.operator) == Funder(e.source, e.operator) == FunderOf(w, fcfg, hubs, op)
  {
    hide Suffix, FunderOf, Resolvable;
    var o := SuffixByOperator(w, fcfg, rs, hubs, d);
    var p := SuffixByOperator(w, fcfg, rs, hubs, e);
    OneFirstUse(rs, d, op, o);
    OneFirstUse(rs, e, op, p);
  }

  lemma OneFirstUse(rs: Ledger, e: TxRecord, op: AgentId, o: AgentId)
    requires FundsOperator(rs, e, op) && FundsOperator(rs, e, o)
    ensures op == o
  {
    var i :| 0 <= i < |rs| && FirstUse(rs, i) && rs[i].feePayer == e.dest && rs[i].operator == Some(op);
    var j :| 0 <= j < |rs| && FirstUse(rs, j) && rs[j].feePayer == e.dest && rs[j].operator == Some(o);
    assert i == j;
  }

  /** Every assignment of operators to sticky relayers is drawn by some stream. */
  lemma EveryAssignment(w: Stream, fcfg: FundingConfig, hubs: seq<AccountId>, pick: seq<nat>)
    requires fcfg.policy.SharedRelayers? && fcfg.sticky
    requires |pick| == |hubs| && forall o :: 0 <= o < |pick| ==> pick[o] < PoolSize(fcfg.policy)
    ensures exists v: Stream :: v.id == w.id && Assigns(v, fcfg, hubs, pick)
  {
    var k := PoolSize(fcfg.policy);
    var v := w.(below := (p: nat, m: nat) => if k <= p < k + |pick| then pick[p - k] else 0);
    RosterDrawn(v, fcfg, hubs);
    hide DrawRoster, PoolSize;
    assert Assigns(v, fcfg, hubs, pick) by {
      forall o | 0 <= o < |pick| ensures DrawRoster(v, fcfg, hubs).funders[o].account == w.id(pick[o]) {
        assert Index(v, k + o, k) == pick[o];
      }
    }
  }

  ghost predicate Assigns(w: Stream, fcfg: FundingConfig, hubs: seq<AccountId>, pick: seq<nat>)
    requires |pick| == |hubs|
  {
    forall o :: 0 <= o < |pick| ==> DrawRoster(w, fcfg, hubs).funders[o].account == w.id(pick[o])
  }
}
