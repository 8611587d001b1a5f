/** The journal format: one newline-terminated line of comma-separated fields per record. */
module Codec {
  import opened Types

  // ---- numbers ----

  function DigitChar(d: nat): char
    requires d < 10
  {
    ('0' as int + d) as char
  }

  predicate IsDigit(c: char) {
    '0' <= c <= '9'
  }

  function Digits(n: nat): (s: string)
    ensures s != [] && forall i :: 0 <= i < |s| ==> IsDigit(s[i])
  {
    if n < 10 then [DigitChar(n)] else Digits(n / 10) + [DigitChar(n % 10)]
  }

  function ParseNat(s: string): Option<nat> {
    if s == [] || !IsDigit(s[|s| - 1]) then None
    else
      var d := s[|s| - 1] as int - '0' as int;
      if |s| == 1 then Some(d)
      else match ParseNat(s[..|s| - 1])
        case None => None
        case Some(m) => Some(10 * m + d)
  }

  lemma {:induction false} NatRoundTrip(n: nat)
    ensures ParseNat(Digits(n)) == Some(n)
  {
    if n >= 10 {
      NatRoundTrip(n / 10);
      var s := Digits(n);
      assert s[..|s| - 1] == Digits(n / 10);
    }
  }

  function IntText(i: int): string {
    if i < 0 then "-" + Digits(-i) else Digits(i)
  }

  function ParseInt(s: string): Option<int> {
    if s != [] && s[0] == '-'
    then match ParseNat(s[1..]) case None => None case Some(n) => Some(0 - n)
    else match ParseNat(s) case None => None case Some(n) => Some(n)
  }

  lemma IntRoundTrip(i: int)
    ensures ParseInt(IntText(i)) == Some(i)
  {
    hide Digits, ParseNat;
    if i < 0 {
      NatRoundTrip(-i);
      assert IntText(i)[1..] == Digits(-i);
    } else {
      NatRoundTrip(i);
    }
  }

  /** An absent operator is an empty field. */
  function OperatorText(o: Option<AgentId>): string {
    match o case None => "" case Some(op) => Digits(op)
  }

  function ParseOperator(s: string): Option<Option<AgentId>> {
    if s == [] then Some(None)
    else match ParseNat(s) case None => None case Some(n) => Some(Some(n))
  }

  lemma OperatorRoundTrip(o: Option<AgentId>)
    ensures ParseOperator(OperatorText(o)) == Some(o)
  {
    if o.Some? {
      NatRoundTrip(o.value);
    }
  }

  function KindCode(k: ActionKind): nat {
    match k
    case Transfer => 0
    case Stake => 1
    case Swap => 2
    case Memo => 3
    case Dust => 4
    case Consolidate => 5
  }

  function KindOf(n: nat): Option<ActionKind> {
    if n == 0 then Some(Transfer) else if n == 1 then Some(Stake) else if n == 2 then Some(Swap)
    else if n == 3 then Some(Memo) else if n == 4 then Some(Dust) else if n == 5 then Some(Consolidate)
    else None
  }

  // ---- fields ----

  predicate Lacks(s: string, c: char) {
    forall i :: 0 <= i < |s| ==> s[i] != c
  }

  /** The position of the first `c`, or the length. */
  function IndexOf(s: string, c: char): (i: nat)
    ensures i <= |s| && Lacks(s[..i], c) && (i < |s| ==> s[i] == c)
  {
    if s == [] || s[0] == c then 0 else 1 + IndexOf(s[1..], c)
  }

  lemma {:induction false} IndexAfter(a: string, c: char, b: string)
    requires Lacks(a, c)
    ensures IndexOf(a + [c] + b, c) == |a|
    decreases |a|
  {
    if a != [] {
      IndexAfter(a[1..], c, b);
      assert (a + [c] + b)[1..] == a[1..] + [c] + b;
    }
  }

  lemma {:induction false} IndexNone(a: string, c: char)
    requires Lacks(a, c)
    ensures IndexOf(a, c) == |a|
  {
    if a != [] {
      IndexNone(a[1..], c);
    }
  }

  function Join(fs: seq<string>): string
    requires fs != []
  {
    if |fs| == 1 then fs[0] else fs[0] + "," + Join(fs[1..])
  }

  function Fields(s: string): (fs: seq<string>)
    ensures fs != []
    decreases |s|
  {
    var i := IndexOf(s, ',');
    if i == |s| then [s] else [s[..i]] + Fields(s[i + 1..])
  }

  lemma {:induction false} FieldsOfJoin(fs: seq<string>)
    requires fs != [] && forall k :: 0 <= k < |fs| ==> Lacks(fs[k], ',')
    ensures Fields(Join(fs)) == fs
    decreases |fs|
  {
    if |fs| == 1 {
      IndexNone(fs[0], ',');
    } else {
      var rest := Join(fs[1..]);
      FieldsOfJoin(fs[1..]);
      IndexAfter(fs[0], ',', rest);
      assert Join(fs)[..|fs[0]|] == fs[0] && Join(fs)[|fs[0]| + 1..] == rest;
    }
  }

  lemma {:induction false} JoinLacks(fs: seq<string>, c: char)
    requires fs != [] && c != ',' && forall k :: 0 <= k < |fs| ==> Lacks(fs[k], c)
    ensures Lacks(Join(fs), c)
    decreases |fs|
  {
    if |fs| > 1 {
      JoinLacks(fs[1..], c);
    }
  }

  // ---- records ----

  function RecordFields(r: TxRecord): (fs: seq<string>)
    ensures |fs| == 9
  {
    [Digits(r.sig), Digits(r.slot), IntText(r.ts), Digits(r.feePayer), Digits(r.source), Digits(r.dest),
     Digits(r.amount), Digits(KindCode(r.kind)), OperatorText(r.operator)]
  }

  function ParseFields(fs: seq<string>): Option<TxRecord>
    requires |fs| == 9
  {
    match (ParseNat(fs[0]), ParseNat(fs[1]), ParseInt(fs[2]), ParseNat(fs[3]), ParseNat(fs[4]), ParseNat(fs[5]),
           ParseNat(fs[6]), ParseNat(fs[7]), ParseOperator(fs[8]))
    case (Some(sig), Some(slot), Some(ts), Some(feePayer), Some(source), Some(dest), Some(amount), Some(code), Some(op)) =>
      (match KindOf(code)
       case None => None
       case Some(kind) => Some(TxRecord(sig, slot, ts, feePayer, source, dest, amount, kind, op)))
    case _ => None
  }

  function Line(r: TxRecord): string {
    Join(RecordFields(r))
  }

  function ParseLine(s: string): Option<TxRecord> {
    var fs := Fields(s);
    if |fs| == 9 then ParseFields(fs) else None
  }

  lemma FieldsPlain(r: TxRecord, c: char)
    requires !IsDigit(c) && c != '-'
    ensures forall k :: 0 <= k < 9 ==> Lacks(RecordFields(r)[k], c)
  {
  }

  lemma LineRoundTrip(r: TxRecord)
    ensures ParseLine(Line(r)) == Some(r) && Lacks(Line(r), '\n')
  {
    FieldsPlain(r, ',');
    FieldsPlain(r, '\n');
    FieldsOfJoin(RecordFields(r));
    JoinLacks(RecordFields(r), '\n');
    FieldsRoundTrip(r);
  }

  lemma FieldsRoundTrip(r: TxRecord)
    ensures ParseFields(RecordFields(r)) == Some(r)
  {
    NatRoundTrip(r.sig);
    NatRoundTrip(r.slot);
    IntRoundTrip(r.ts);
    NatRoundTrip(r.feePayer);
    NatRoundTrip(r.source);
    NatRoundTrip(r.dest);
    NatRoundTrip(r.amount);
    NatRoundTrip(KindCode(r.kind));
    OperatorRoundTrip(r.operator);
  }

  // ---- the journal ----

  function EncodeRecord(r: TxRecord): string {
    Line(r) + "\n"
  }

  function Encode(rs: Ledger): string {
    if rs == [] then "" else Encode(rs[..|rs| - 1]) + EncodeRecord(rs[|rs| - 1])
  }

  lemma EncodeAppend(rs: Ledger, r: TxRecord)
    ensures Encode(rs + [r]) == Encode(rs) + EncodeRecord(r)
  {
  }

  lemma {:induction false} EncodeConcat(a: Ledger, b: Ledger)
    ensures Encode(a + b) == Encode(a) + Encode(b)
    decreases |b|
  {
    hide EncodeRecord;
    if b == [] {
      assert a + b == a;
    } else {
      EncodeConcat(a, b[..|b| - 1]);
      assert (a + b)[..|a + b| - 1] == a + b[..|b| - 1];
    }
  }

  /** The journal of a longer ledger continues the journal of a shorter one. */
  lemma EncodePrefix(a: Ledger, b: Ledger)
    requires a <= b
    ensures Encode(a) <= Encode(b)
  {
    EncodeConcat(a, b[|a|..]);
    assert a + b[|a|..] == b;
  }

  /** Reads `count` complete lines from the front: none when fewer are there or one does not parse. */
  function ReadRecords(s: string, count: nat): Option<Ledger>
    decreases count
  {
    var end := IndexOf(s, '\n');
    if count == 0 then Some([])
    else if end == |s| then None
    else match ParseLine(s[..end])
      case None => None
      case Some(r) => Prepend([r], ReadRecords(s[end + 1..], count - 1))
  }

  function Prepend(a: Ledger, b: Option<Ledger>): Option<Ledger> {
    match b case None => None case Some(rs) => Some(a + rs)
  }

  /** Whatever follows them, the first records read back are the ones written first. */
  lemma {:induction false} ReadsBack(rs: Ledger, tail: string)
    ensures ReadRecords(Encode(rs) + tail, |rs|) == Some(rs)
    decreases |rs|
  {
    if rs != [] {
      var r, rest := rs[0], rs[1..];
      EncodeFirst(r, rest, tail);
      assert [r] + rest == rs;
      ReadsBack(rest, tail);
      ReadFirst(r, Encode(rest) + tail, |rs|);
    }
  }

  lemma EncodeFirst(r: TxRecord, rest: Ledger, tail: string)
    ensures Encode([r] + rest) + tail == EncodeRecord(r) + (Encode(rest) + tail)
  {
    hide EncodeRecord;
    EncodeConcat([r], rest);
    assert [r][..0] == [] && Encode([r]) == EncodeRecord(r);
  }

  lemma ReadFirst(r: TxRecord, more: string, count: nat)
    requires count > 0
    ensures ReadRecords(EncodeRecord(r) + more, count) == Prepend([r], ReadRecords(more, count - 1))
  {
    hide Line, ParseLine;
    var s := EncodeRecord(r) + more;
    LineRoundTrip(r);
    assert s == Line(r) + ['\n'] + more;
    IndexAfter(Line(r), '\n', more);
    assert s[..|Line(r)|] == Line(r) && s[|Line(r)| + 1..] == more;
  }

  /** A journal determines its ledger. */
  lemma EncodeInjective(a: Ledger, b: Ledger)
    requires Encode(a) == Encode(b) && |a| == |b|
    ensures a == b
  {
    ReadsBack(a, "");
    ReadsBack(b, "");
    assert Encode(a) + "" == Encode(b) + "";
  }

  /** The reading loop: stops at the end of the file or at a line without its newline. */
  method ReadLoop(s: string, count: nat) returns (out: Option<Ledger>)
    ensures out == ReadRecords(s, count)
  {
    hide ParseLine;
    var records: Ledger := [];
    var rest := s;
    PrependTwice([], [], ReadRecords(s, count));
    while |records| < count
      invariant |records| <= count
      invariant Prepend(records, ReadRecords(rest, count - |records|)) == ReadRecords(s, count)
      decreases count - |records|
    {
      var end := IndexOf(rest, '\n');
      if end == |rest| {
        return None;
      }
      var parsed := ParseLine(rest[..end]);
      if parsed.None? {
        return None;
      }
      PrependTwice(records, [parsed.value], ReadRecords(rest[end + 1..], count - |records| - 1));
      records := records + [parsed.value];
      rest := rest[end + 1..];
    }
    assert records + [] == records;
    out := Some(records);
  }

  lemma PrependTwice(a: Ledger, b: Ledger, c: Option<Ledger>)
    ensures Prepend(a, Prepend(b, c)) == Prepend(a + b, c) && Prepend([], c) == c
  {
    if c.Some? {
      assert a + (b + c.value) == a + b + c.value && [] + c.value == c.value;
    }
  }
}
