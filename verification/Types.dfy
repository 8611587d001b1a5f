/** The observable ledger and the shared domain types. */
module Types {

  datatype Option<+T> = None | Some(value: T)

  /** The 32 identifier bytes read as a big-endian number: same equality, same order. */
  type AccountId = nat

  type AgentId = nat

  datatype ActionKind = Transfer | Stake | Swap | Memo | Dust | Consolidate

  /** One recorded transaction. `operator` is ground truth that no heuristic may read. */
  datatype TxRecord = TxRecord(
    sig: nat,
    slot: nat,
    ts: int,
    feePayer: AccountId,
    source: AccountId,
    dest: AccountId,
    amount: nat,
    kind: ActionKind,
    operator: Option<AgentId>)

  type Ledger = seq<TxRecord>

  function Max(a: int, b: int): int {
    if a >= b then a else b
  }

  function Min(a: int, b: int): int {
    if a <= b then a else b
  }

  /** Rust's `x.clamp(lo, hi)`, which panics unless `lo <= hi`. */
  function Clamp(x: int, lo: int, hi: int): int
    requires lo <= hi
  {
    if x < lo then lo else if x > hi then hi else x
  }

  const I64_MAX: int := 0x7FFF_FFFF_FFFF_FFFF
  const I64_MIN: int := -0x8000_0000_0000_0000

  function Saturate(x: int): int {
    if x > I64_MAX then I64_MAX else if x < I64_MIN then I64_MIN else x
  }

  function SatAdd(a: int, b: int): int {
    Saturate(a + b)
  }

  function SatSub(a: int, b: int): int {
    Saturate(a - b)
  }

  /** The accounts that sign as a source somewhere in the ledger. */
  function Sources(rs: Ledger): set<AccountId> {
    set r | r in rs :: r.source
  }

  function FeePayers(rs: Ledger): set<AccountId> {
    set r | r in rs :: r.feePayer
  }

  function Dests(rs: Ledger): set<AccountId> {
    set r | r in rs :: r.dest
  }

  /** Every distinct account that appears anywhere in the ledger. */
  function Accounts(rs: Ledger): set<AccountId> {
    FeePayers(rs) + Sources(rs) + Dests(rs)
  }
}
