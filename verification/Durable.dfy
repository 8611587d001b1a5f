/**
 * Crash-safe checkpoint and resume. Every primitive file operation may be the last one before the
 * process is killed, and may then have taken effect in part; a method that returns `alive == false`
 * was cut off there. The power may fail as well and lose what was not synced.
 */
module Durable {
  import opened Types
  import opened Streams
  import opened Engine
  import opened EventLoop
  import opened Termination
  import opened RunInvariants
  import opened Runtime
  import opened Funding
  import opened Simulation
  import opened Codec

  datatype Checkpoint = Checkpoint(
    format: nat,
    runId: RunId,
    rng: Rng,
    clock: int,
    slot: nat,
    sig: nat,
    nextAt: seq<int>,
    agentSubaccounts: seq<seq<AccountId>>,
    agentMains: seq<AccountId>,
    recordsEmitted: nat,
    journalLen: nat,
    events: nat)

  datatype Options = Options(snapshotEveryEvents: nat, fsync: bool)

  datatype Outcome = Finished(ledger: Ledger) | Refused | Interrupted(reached: nat)

  /** The inputs one run directory belongs to. */
  datatype Job = Job(world: World, personas: seq<Persona>, cfg: SimConfig) {
    ghost predicate Ok() {
      Accepted(world, personas, cfg)
    }

    function Source(): Stream {
      Actions(world, cfg)
    }

    function Plan(): Setup
      requires Ok()
    {
      FreshSetup(Source(), personas, cfg)
    }

    function Start(): Run
      requires Ok()
    {
      FreshRun(Source(), personas, cfg)
    }

    function Goal(): Run
      requires Ok()
    {
      Golden(world, personas, cfg)
    }

    function Id(): RunId {
      DeriveId(world, personas, cfg)
    }
  }

  // ---- snapshot and restore ----

  function SubaccountsOf(agents: seq<Agent>): (s: seq<seq<AccountId>>)
    ensures |s| == |agents|
  {
    seq(|agents|, a requires 0 <= a < |agents| => agents[a].subaccounts)
  }

  /** The checkpoint of a run at an event boundary; its records stay in the journal. */
  function SnapshotOf(r: Run, id: RunId, len: nat): Checkpoint {
    Checkpoint(CHECKPOINT_FORMAT, id, r.rng, r.chain.clock, r.chain.slot, r.chain.sig, r.nextAt,
               SubaccountsOf(r.agents), Hubs(r.agents), |r.chain.records|, len, r.events)
  }

  predicate Fits(agents: seq<Agent>, cp: Checkpoint) {
    && |cp.agentSubaccounts| == |cp.agentMains| == |agents|
    && forall a :: 0 <= a < |agents| ==> |cp.agentSubaccounts[a]| == |agents[a].subaccounts|
  }

  /** A fresh run overwritten with a checkpoint and the journal's records. */
  function Restored(start: Run, cp: Checkpoint, records: Ledger): Run
    requires Fits(start.agents, cp)
  {
    Run(seq(|start.agents|, a requires 0 <= a < |start.agents| =>
              start.agents[a].(subaccounts := cp.agentSubaccounts[a], main := cp.agentMains[a])),
        cp.nextAt, Chain(records, cp.clock, cp.slot, cp.sig), cp.rng, cp.events)
  }

  /** The agents differ at most in which accounts they hold. */
  ghost predicate SameFleet(first: seq<Agent>, agents: seq<Agent>) {
    && |first| == |agents|
    && forall a :: 0 <= a < |first| ==>
         && agents[a] == first[a].(subaccounts := agents[a].subaccounts, main := agents[a].main)
         && |agents[a].subaccounts| == |first[a].subaccounts|
  }

  /** Nothing the loop reads is lost by going through a checkpoint. */
  lemma RestoreUndoesSnapshot(start: Run, r: Run, id: RunId, len: nat)
    requires SameFleet(start.agents, r.agents)
    ensures Fits(start.agents, SnapshotOf(r, id, len))
    ensures Restored(start, SnapshotOf(r, id, len), r.chain.records) == r
  {
    assert Restored(start, SnapshotOf(r, id, len), r.chain.records).agents == r.agents;
  }

  // ---- the path of the uninterrupted run ----

  /** `r` is a state the uninterrupted run passes through. */
  ghost predicate OnPath(job: Job, r: Run)
    requires job.Ok()
  {
    && Consistent(job.Plan(), r) && SameFleet(job.Start().agents, r.agents) && Stamped(r.chain)
    && Proceeds(job.Source(), job.Plan(), r) && Finish(job.Source(), job.Plan(), r) == job.Goal()
  }

  lemma StartOnPath(job: Job)
    requires job.Ok()
    ensures OnPath(job, job.Start())
  {
    FreshStart(job.Source(), job.personas, job.cfg);
  }

  lemma WakeOnPath(job: Job, r: Run)
    requires job.Ok() && OnPath(job, r) && !Done(job.Plan(), r)
    ensures !WakePanics(job.Source(), job.Plan(), r) && OnPath(job, Wake(job.Source(), job.Plan(), r))
    ensures r.chain.records <= Wake(job.Source(), job.Plan(), r).chain.records
  {
    var w, s := job.Source(), job.Plan();
    FreshEntriesMatch(w, job.personas, job.cfg);
    WakeStamped(w, s, r);
    WakeProgress(w, s, r);
    ProceedsNext(w, s, r);
    WakeSameFleet(job, r);
  }

  lemma WakeSameFleet(job: Job, r: Run)
    requires job.Ok() && OnPath(job, r) && !Done(job.Plan(), r)
    ensures SameFleet(job.Start().agents, Wake(job.Source(), job.Plan(), r).agents)
  {
    hide Acted, Finish, Rescheduled;
    var s := job.Plan();
    assert EntryFits(s.sched[Soonest(r.nextAt)], r.agents);
  }

  /** What has been emitted so far is the beginning of the uninterrupted run's ledger. */
  lemma OnPathPrefix(job: Job, r: Run)
    requires job.Ok() && OnPath(job, r)
    ensures r.chain.records <= job.Goal().chain.records
  {
    FreshEntriesMatch(job.Source(), job.personas, job.cfg);
    FinishStamped(job.Source(), job.Plan(), r);
  }

  // ---- what a directory must hold ----

  /** `cp` is the checkpoint of `r`, whose records the journal begins with. */
  ghost predicate Describes(job: Job, cp: Checkpoint, r: Run, journal: string)
    requires job.Ok()
  {
    && OnPath(job, r) && Encode(r.chain.records) <= journal
    && cp == SnapshotOf(r, job.Id(), |Encode(r.chain.records)|)
  }

  ghost predicate Backed(job: Job, cp: Option<Checkpoint>, journal: string)
    requires job.Ok()
  {
    cp.Some? ==> exists r :: Describes(job, cp.value, r, journal)
  }

  lemma BackedLonger(job: Job, cp: Option<Checkpoint>, j: string, k: string)
    requires job.Ok() && Backed(job, cp, j) && j <= k
    ensures Backed(job, cp, k)
  {
    if cp.Some? {
      var r :| Describes(job, cp.value, r, j);
      assert Describes(job, cp.value, r, k);
    }
  }

  /** A backed checkpoint's records are all within the length it names. */
  lemma BackedShorter(job: Job, cp: Option<Checkpoint>, j: string, len: nat)
    requires job.Ok() && Backed(job, cp, j) && len <= |j| && (cp.Some? ==> cp.value.journalLen <= len)
    ensures Backed(job, cp, j[..len])
  {
    if cp.Some? {
      var r :| Describes(job, cp.value, r, j);
      assert Describes(job, cp.value, r, j[..len]);
    }
  }

  /** How much of the journal a checkpoint commits to. */
  function CommittedLen(cp: Option<Checkpoint>): nat {
    match cp case None => 0 case Some(c) => c.journalLen
  }

  /** Nothing in the journal is committed to, so that losing the journal loses nothing. */
  predicate Expendable(cp: Option<Checkpoint>) {
    CommittedLen(cp) == 0
  }

  /**
   * The published checkpoint is backed by the journal. In a guarded directory that also holds of what
   * a power failure would leave.
   */
  ghost predicate Safe(job: Job, journal: string, synced: nat, cp: Option<Checkpoint>, stable: Option<Checkpoint>,
      guarded: bool)
    requires job.Ok()
  {
    && synced <= |journal| && Backed(job, cp, journal)
    && (guarded ==>
          && Backed(job, cp, journal[..synced]) && Backed(job, stable, journal[..synced])
          && CommittedLen(stable) <= CommittedLen(cp))
  }

  /** What a power failure may leave: synced bytes survive, an unsynced rename or removal may be undone. */
  ghost predicate MayRemain(journal: string, synced: nat, cp: Option<Checkpoint>, stable: Option<Checkpoint>,
      journal': string, cp': Option<Checkpoint>)
    requires synced <= |journal|
  {
    journal[..synced] <= journal' && (cp' == cp || cp' == stable)
  }

  /** The bytes a checkpoint commits to encode exactly the first records of the uninterrupted run. */
  lemma CommittedBytes(job: Job, cp: Checkpoint, journal: string)
    requires job.Ok() && Backed(job, Some(cp), journal)
    ensures var golden := job.Goal().chain.records;
      && cp.recordsEmitted <= |golden| && cp.journalLen <= |journal|
      && journal[..cp.journalLen] == Encode(golden[..cp.recordsEmitted])
  {
    hide OnPath, Encode, Golden;
    var r :| Describes(job, cp, r, journal);
    OnPathPrefix(job, r);
    PrefixBytes(r.chain.records, job.Goal().chain.records, journal);
  }

  lemma PrefixBytes(rs: Ledger, golden: Ledger, journal: string)
    requires rs <= golden && Encode(rs) <= journal
    ensures journal[..|Encode(rs)|] == Encode(golden[..|rs|])
  {
    assert rs == golden[..|rs|];
  }

  // ---- the directory ----

  datatype TempFile = Absent | Torn | Written(cp: Checkpoint)

  /**
   * The run directory: what the process sees, and what would survive a power failure. A `stubborn`
   * directory may keep a checkpoint that is to be removed, which the program does not notice.
   */
  class Disk {
    const stubborn: bool
    var journal: string
    var synced: nat
    var checkpoint: Option<Checkpoint>
    var stable: Option<Checkpoint>
    var temp: TempFile
    /** What would survive a power failure is known to suffice; see Safe. */
    var guarded: bool
    /** Some operation was cut off. */
    ghost var cut: bool
    /** How many events have been executed on this directory, those whose records were lost included. */
    ghost var executed: nat

    /** A directory that does not exist yet. */
    constructor (stubborn: bool)
      ensures this.stubborn == stubborn && journal == "" && synced == 0 && checkpoint == None && stable == None
      ensures guarded && !cut && executed == 0
    {
      this.stubborn := stubborn;
      journal, synced, checkpoint, stable, temp := "", 0, None, None, Absent;
      guarded, cut, executed := true, false, 0;
    }

    ghost predicate SafeFor(job: Job)
      requires job.Ok()
      reads this
    {
      Safe(job, journal, synced, checkpoint, stable, guarded)
    }

    /** The process may be killed between any two operations. */
    method MaybeCut() returns (alive: bool)
      modifies this`cut
      ensures cut == (old(cut) || !alive)
    {
      alive := *;
      cut := cut || !alive;
    }

    /** Appends all bytes, or some of them when the process is killed meanwhile. */
    method Write(bytes: string) returns (alive: bool, n: nat)
      modifies this`journal, this`cut
      ensures n <= |bytes| && journal == old(journal) + bytes[..n]
      ensures alive ==> n == |bytes|
      ensures cut == (old(cut) || !alive)
    {
      alive := MaybeCut();
      n :| n <= |bytes| && (alive ==> n == |bytes|);
      journal := journal + bytes[..n];
    }

    method SyncJournal() returns (alive: bool)
      modifies this`synced, this`cut
      ensures synced == old(synced) || synced == |journal|
      ensures alive ==> synced == |journal|
      ensures cut == (old(cut) || !alive)
    {
      alive := MaybeCut();
      var done: bool := *;
      if alive || done {
        synced := |journal|;
      }
    }

    /** The same when a failure to sync is not looked at. */
    method TrySyncJournal() returns (alive: bool)
      modifies this`synced, this`cut
      ensures synced == old(synced) || synced == |journal|
      ensures cut == (old(cut) || !alive)
    {
      alive := MaybeCut();
      if * {
        synced := |journal|;
      }
    }

    /** Cuts the journal, or fills it up with zero bytes, to the given length. */
    method SetLength(len: nat) returns (alive: bool)
      modifies this`journal, this`synced, this`cut
      ensures (journal == old(journal) && synced == old(synced) && !alive)
        || (journal == Resized(old(journal), len) && synced == Min(old(synced), len))
      ensures cut == (old(cut) || !alive)
    {
      alive := MaybeCut();
      var done: bool := *;
      if alive || done {
        journal := Resized(journal, len);
        synced := Min(synced, len);
      }
    }

    /** A removal is not synced: unless nothing was committed to, the directory is guarded no more. */
    method RemoveCheckpoint() returns (alive: bool)
      modifies this`checkpoint, this`guarded, this`cut
      ensures checkpoint == None || (checkpoint == old(checkpoint) && (!alive || stubborn))
      ensures guarded == (old(guarded) && (checkpoint == old(checkpoint) || Expendable(old(checkpoint))))
      ensures cut == (old(cut) || !alive)
    {
      alive := MaybeCut();
      var done: bool := *;
      if (alive && !stubborn) || done {
        guarded := guarded && (checkpoint == None || Expendable(checkpoint));
        checkpoint := None;
      }
    }

    method RemoveTemp() returns (alive: bool)
      modifies this`temp, this`cut
      ensures cut == (old(cut) || !alive)
    {
      alive := MaybeCut();
      if * {
        temp := Absent;
      }
    }

    method WriteTemp(cp: Checkpoint) returns (alive: bool)
      modifies this`temp, this`cut
      ensures alive ==> temp == Written(cp)
      ensures cut == (old(cut) || !alive)
    {
      alive := MaybeCut();
      temp := if alive then Written(cp) else Torn;
    }

    /** The atomic rename of the temporary file over the checkpoint; `durable` if the journal is synced. */
    method Publish(durable: bool) returns (alive: bool)
      requires temp.Written?
      modifies this`temp, this`checkpoint, this`guarded, this`cut
      ensures checkpoint == Some(old(temp.cp)) || (checkpoint == old(checkpoint) && !alive)
      ensures guarded == (old(guarded) && durable)
      ensures cut == (old(cut) || !alive)
    {
      alive := MaybeCut();
      guarded := guarded && durable;
      var done: bool := *;
      if alive || done {
        checkpoint := Some(temp.cp);
        temp := Absent;
      }
    }

    /** Once all that is published is synced, the directory is guarded again. */
    method SyncDirectory() returns (alive: bool)
      modifies this`stable, this`guarded, this`cut
      ensures (stable == checkpoint && guarded == (old(guarded) || synced == |journal|))
        || (stable == old(stable) && guarded == old(guarded) && !alive)
      ensures cut == (old(cut) || !alive)
    {
      alive := MaybeCut();
      var done: bool := *;
      if alive || done {
        stable := checkpoint;
        guarded := guarded || synced == |journal|;
      }
    }

    /** The power fails, and what remains is all there is. */
    method PowerFailure()
      requires synced <= |journal|
      modifies this`journal, this`synced, this`checkpoint, this`stable, this`temp
      ensures MayRemain(old(journal), old(synced), old(checkpoint), old(stable), journal, checkpoint)
      ensures synced == |journal| && stable == checkpoint
    {
      var garbage: string := *;
      journal := journal[..synced] + garbage;
      synced := |journal|;
      if * {
        checkpoint := stable;
      }
      stable := checkpoint;
      temp := *;
    }
  }

  function Resized(j: string, len: nat): (r: string)
    ensures |r| == len
  {
    if len <= |j| then j[..len] else j + seq(len - |j|, i => '\0')
  }

  // ---- the durable sink ----

  /** Fills one wake time per schedule index from the heap. */
  method WakeTimes(st: RunState) returns (nextAt: seq<int>)
    requires st.Valid()
    ensures nextAt == st.nextAt
  {
    nextAt := seq(|st.s.sched|, i => I64_MIN);
    var todo := st.heap;
    while todo != multiset{}
      invariant todo <= st.heap && |nextAt| == |st.nextAt|
      invariant forall i: nat :: i < |nextAt| && (st.nextAt[i], i) !in todo ==> nextAt[i] == st.nextAt[i]
      decreases |todo|
    {
      var e :| e in todo;
      HeapAt(st.heap, st.nextAt, e.0, e.1);
      assert e == (e.0, e.1) && st.heap[e] == 1;
      todo := todo - multiset{e};
      nextAt := nextAt[e.1 := e.0];
    }
  }

  method Snapshot(st: RunState, id: RunId, len: nat) returns (cp: Checkpoint)
    requires st.Valid()
    ensures cp == SnapshotOf(st.Model(), id, len)
  {
    var nextAt := WakeTimes(st);
    cp := Checkpoint(CHECKPOINT_FORMAT, id, st.rng, st.clock, st.slot, st.sig, nextAt,
                     SubaccountsOf(st.agents), Hubs(st.agents), |st.records|, len, st.events);
  }

  class DurableSink {
    const disk: Disk
    const id: RunId
    const every: nat
    const fsync: bool
    var buffer: string
    var lastSnapshot: Option<nat>

    /** What is written and what is still buffered add up to the records so far. */
    ghost predicate Holds(records: Ledger)
      reads this, disk
    {
      every >= 1 && disk.journal + buffer == Encode(records)
    }

    constructor (disk: Disk, id: RunId, opts: Options)
      ensures this.disk == disk && this.id == id && fsync == opts.fsync
      ensures every == Max(opts.snapshotEveryEvents, 1) && buffer == "" && lastSnapshot == None
    {
      this.disk, this.id, every, fsync := disk, id, Max(opts.snapshotEveryEvents, 1), opts.fsync;
      buffer, lastSnapshot := "", None;
    }

    method Flush() returns (alive: bool)
      modifies this`buffer, disk`journal, disk`cut
      ensures disk.journal + buffer == old(disk.journal + buffer) && old(disk.journal) <= disk.journal
      ensures alive ==> buffer == ""
      ensures disk.cut == (old(disk.cut) || !alive)
    {
      var n;
      alive, n := disk.Write(buffer);
      assert old(disk.journal) + buffer == old(disk.journal) + buffer[..n] + buffer[n..];
      buffer := buffer[n..];
    }

    /** The buffer may spill part of what it holds at any time. */
    method Append(bytes: string) returns (alive: bool)
      modifies this`buffer, disk`journal, disk`cut
      ensures disk.journal + buffer == old(disk.journal + buffer) + bytes && old(disk.journal) <= disk.journal
      ensures disk.cut == (old(disk.cut) || !alive)
    {
      assert disk.journal + (buffer + bytes) == disk.journal + buffer + bytes;
      buffer := buffer + bytes;
      alive := disk.MaybeCut();
      var spill: bool := *;
      if alive && spill {
        alive := Flush();
      }
    }

    method OnRecords(batch: seq<TxRecord>, ghost records: Ledger) returns (alive: bool)
      requires Holds(records)
      modifies this`buffer, disk`journal, disk`cut
      ensures old(disk.journal) <= disk.journal && (alive ==> Holds(records + batch))
      ensures disk.cut == (old(disk.cut) || !alive)
    {
      hide Encode, EncodeRecord;
      alive := true;
      ghost var start := disk.journal;
      assert records + batch[..0] == records;
      for i := 0 to |batch|
        invariant disk.journal + buffer == Encode(records + batch[..i]) && start <= disk.journal
        invariant alive && disk.cut == old(disk.cut)
      {
        EncodeAppend(records + batch[..i], batch[i]);
        assert records + batch[..i] + [batch[i]] == records + batch[..i + 1];
        alive := Append(EncodeRecord(batch[i]));
        if !alive {
          return;
        }
      }
      assert batch[..|batch|] == batch;
    }

    /** Flushes, names the journal length in a checkpoint and publishes it by temp file and rename. */
    method Save(ghost job: Job, cp: Checkpoint) returns (alive: bool)
      requires job.Ok() && disk.SafeFor(job)
      requires Backed(job, Some(cp), disk.journal + buffer)
      requires CommittedLen(disk.checkpoint) <= cp.journalLen
      modifies this`buffer, disk
      ensures disk.SafeFor(job) && disk.journal + buffer == old(disk.journal + buffer)
      ensures disk.checkpoint == old(disk.checkpoint) || disk.checkpoint == Some(cp)
      ensures alive ==> disk.checkpoint == Some(cp) && buffer == ""
      ensures fsync && (alive || old(disk.guarded)) ==> disk.guarded
      ensures disk.cut == (old(disk.cut) || !alive) && disk.executed == old(disk.executed)
    {
      hide Backed;
      ghost var whole := disk.journal + buffer;
      alive := Commit(job);
      if !alive { return; }
      assert disk.journal == whole;
      alive := disk.WriteTemp(cp);
      if !alive { return; }
      assert fsync ==> disk.journal[..disk.synced] == whole;
      alive := disk.Publish(fsync);
      if !alive { return; }
      if fsync {
        alive := disk.SyncDirectory();
      }
    }

    /** Makes everything buffered part of the journal, durably if so configured. */
    method Commit(ghost job: Job) returns (alive: bool)
      requires job.Ok() && disk.SafeFor(job)
      modifies this`buffer, disk`journal, disk`synced, disk`cut
      ensures disk.SafeFor(job) && disk.journal + buffer == old(disk.journal + buffer)
      ensures disk.cut == (old(disk.cut) || !alive)
      ensures alive ==> buffer == "" && (fsync ==> disk.synced == |disk.journal|)
    {
      ghost var j, n := disk.journal, disk.synced;
      alive := Flush();
      SafeLonger(job, j, n, disk.journal, disk.synced, disk.checkpoint, disk.stable, disk.guarded);
      if !alive { return; }
      if fsync {
        j := disk.journal;
        alive := disk.SyncJournal();
        SafeLonger(job, j, n, disk.journal, disk.synced, disk.checkpoint, disk.stable, disk.guarded);
      }
    }

    method OnBoundary(ghost job: Job, st: RunState, done: bool) returns (alive: bool)
      requires job.Ok() && disk.SafeFor(job) && id == job.Id()
      requires st.Valid() && OnPath(job, st.Model()) && Holds(st.records)
      requires lastSnapshot.Some? ==> lastSnapshot.value < st.events
      requires CommittedLen(disk.checkpoint) <= |Encode(st.records)|
      modifies this`buffer, this`lastSnapshot, disk
      ensures disk.SafeFor(job) && (alive ==> Holds(st.records))
      ensures disk.checkpoint == old(disk.checkpoint)
        || disk.checkpoint == Some(SnapshotOf(st.Model(), id, |Encode(st.records)|))
      ensures alive && Due(st.events, every, done) ==>
        disk.checkpoint == Some(SnapshotOf(st.Model(), id, |Encode(st.records)|)) && disk.journal == Encode(st.records)
      ensures !Due(st.events, every, done) ==> disk.checkpoint == old(disk.checkpoint) && disk.journal == old(disk.journal)
      ensures lastSnapshot.Some? ==> lastSnapshot.value <= st.events
      ensures fsync && (old(disk.guarded) || (alive && Due(st.events, every, done))) ==> disk.guarded
      ensures disk.cut == (old(disk.cut) || !alive) && disk.executed == old(disk.executed)
    {
      hide Encode, OnPath, Consistent;
      alive := true;
      var hit := st.events != 0 && st.events % every == 0;
      if (done || hit) && lastSnapshot != Some(st.events) {
        alive := Commit(job);
        if !alive { return; }
        var cp := Snapshot(st, id, |disk.journal|);
        assert Describes(job, cp, st.Model(), disk.journal + buffer);
        alive := Save(job, cp);
        if !alive { return; }
        lastSnapshot := Some(st.events);
      }
    }
  }

  /** A checkpoint is taken at the end and every `every` events. */
  predicate Due(events: nat, every: nat, done: bool)
    requires every >= 1
  {
    done || (events != 0 && events % every == 0)
  }

  lemma SafeLonger(job: Job, j: string, n: nat, k: string, m: nat, cp: Option<Checkpoint>, stable: Option<Checkpoint>,
      guarded: bool)
    requires job.Ok() && Safe(job, j, n, cp, stable, guarded) && j <= k && n <= m <= |k|
    ensures Safe(job, k, m, cp, stable, guarded)
  {
    BackedLonger(job, cp, j, k);
    if guarded {
      assert j[..n] <= k[..m];
      BackedLonger(job, cp, j[..n], k[..m]);
      BackedLonger(job, stable, j[..n], k[..m]);
    }
  }
}
