/** Durable runs, resumption, and any number of both after one another. */
module Resume {
  import opened Types
  import opened EventLoop
  import opened Runtime
  import opened Simulation
  import opened Codec
  import opened Durable

  /** The events a resumption would start from. */
  function Base(cp: Option<Checkpoint>): nat {
    match cp case None => 0 case Some(c) => c.events
  }

  /** A checkpoint has given way at most to one that commits as much or more. */
  predicate Onward(before: Option<Checkpoint>, after: Option<Checkpoint>) {
    && (before.Some? ==> after.Some?)
    && Base(before) <= Base(after) && CommittedLen(before) <= CommittedLen(after)
  }

  /** The last event count at or before `events` at which a checkpoint was due. */
  function LastMark(events: nat, every: nat): nat
    requires every >= 1
  {
    events - events % every
  }

  lemma NextMark(events: nat, every: nat)
    requires every >= 1
    ensures LastMark(events, every) <= events < LastMark(events, every) + every
    ensures (events + 1) % every != 0 ==> LastMark(events + 1, every) == LastMark(events, every)
  {
    var m, q := events % every, events / every;
    if m + 1 < every {
      Remainder(events + 1, every, q, m + 1);
    } else {
      Remainder(events + 1, every, q + 1, 0);
    }
  }

  lemma Remainder(x: nat, k: nat, q: nat, m: nat)
    requires k >= 1 && x == q * k + m && m < k
    ensures x % k == m
  {
    var d := x / k - q;
    assert k * d == m - x % k;
    Multiple(k, d);
  }

  lemma Multiple(k: nat, d: int)
    ensures (d >= 1 ==> k * d >= k) && (d <= -1 ==> k * d + k <= 0)
  {
  }

  /** The published checkpoint is at or after the last mark. */
  predicate Recent(base: nat, events: nat, every: nat)
    requires every >= 1
  {
    LastMark(events, every) <= base
  }

  /** The same before the boundary of the current event has been passed. */
  predicate Lagging(base: nat, events: nat, every: nat)
    requires every >= 1
  {
    events == 0 || LastMark(events - 1, every) <= base
  }

  lemma LagBound(base: nat, events: nat, every: nat)
    requires every >= 1 && Lagging(base, events, every)
    ensures events <= base + every
  {
  }

  /** Passing a boundary catches up when a checkpoint is due there. */
  lemma PassBoundary(base: nat, base': nat, events: nat, every: nat)
    requires every >= 1 && Lagging(base, events, every)
    requires base' == base || base' == events
    requires Due(events, every, false) ==> base' == events
    ensures Lagging(base', events + 1, every)
  {
    if events > 0 {
      NextMark(events - 1, every);
    }
  }

  lemma RecentLags(base: nat, events: nat, every: nat)
    requires every >= 1 && Recent(base, events, every)
    ensures Lagging(base, events, every)
  {
    if events > 0 {
      NextMark(events - 1, every);
    }
  }

  /** What every durable run relies on and keeps. */
  ghost predicate Running(job: Job, st: RunState, sink: DurableSink)
    requires job.Ok()
    reads st, sink, sink.disk
  {
    && st.w == job.Source() && st.s == job.Plan() && st.Valid() && OnPath(job, st.Model())
    && sink.id == job.Id() && sink.every >= 1
    && sink.disk.SafeFor(job) && sink.Holds(st.records)
    && CommittedLen(sink.disk.checkpoint) <= |Encode(st.records)|
  }

  /** A syncing sink keeps a guarded directory guarded, and leaves it so at the end of a run. */
  predicate Kept(before: bool, sink: DurableSink, finished: bool)
    reads sink, sink.disk
  {
    sink.fsync && (before || finished) ==> sink.disk.guarded
  }

  /** A run that started at or after its checkpoint stays there, and only moves the checkpoint onward. */
  predicate Progressed(before: Option<Checkpoint>, start: nat, after: Option<Checkpoint>, events: nat) {
    start <= events && (Base(before) <= start ==> Base(after) <= events && Onward(before, after))
  }

  /** The directory of a finished run: a terminal checkpoint and the complete journal. */
  ghost predicate Complete(job: Job, disk: Disk)
    requires job.Ok()
    reads disk
  {
    var golden := job.Goal();
    disk.journal == Encode(golden.chain.records) && disk.checkpoint == Some(SnapshotOf(golden, job.Id(), |disk.journal|))
  }

  /** One event and the journalling of its records. */
  method Advance(ghost job: Job, st: RunState, sink: DurableSink) returns (alive: bool)
    requires job.Ok() && Running(job, st, sink) && !Done(st.s, st.Model())
    modifies st, sink`buffer, sink.disk`journal, sink.disk`cut, sink.disk`executed
    ensures st.Model() == Wake(job.Source(), job.Plan(), old(st.Model())) && sink.disk.SafeFor(job)
    ensures sink.disk.cut == (old(sink.disk.cut) || !alive)
    ensures st.events == old(st.events) + 1 && sink.disk.executed == old(sink.disk.executed) + 1
    ensures alive ==> Running(job, st, sink)
  {
    hide OnPath, Done, Encode, Wake;
    PathProgress(job, st.Model());
    ghost var records := st.records;
    var before := |st.records|;
    WakeOnPath(job, st.Model());
    st.Wake();
    sink.disk.executed := sink.disk.executed + 1;
    ghost var j, n := sink.disk.journal, sink.disk.synced;
    EncodePrefix(records, st.records);
    alive := sink.OnRecords(st.records[before..], records);
    assert records + st.records[before..] == st.records;
    SafeLonger(job, j, n, sink.disk.journal, n, sink.disk.checkpoint, sink.disk.stable, sink.disk.guarded);
  }

  /** The sink's part of one round of the loop: at the end the last checkpoint, else maybe another one. */
  method Boundary(job: Job, st: RunState, sink: DurableSink) returns (alive: bool, done: bool)
    requires job.Ok() && Running(job, st, sink) && Lagging(Base(sink.disk.checkpoint), st.events, sink.every)
    requires sink.lastSnapshot.Some? ==> sink.lastSnapshot.value < st.events
    modifies sink, sink.disk
    ensures sink.disk.SafeFor(job) && st.events <= Base(sink.disk.checkpoint) + sink.every
    ensures Progressed(old(sink.disk.checkpoint), old(st.events), sink.disk.checkpoint, st.events)
    ensures sink.disk.executed == old(sink.disk.executed)
    ensures Kept(old(sink.disk.guarded), sink, alive && done) && sink.disk.cut == (old(sink.disk.cut) || !alive)
    ensures done <==> Done(st.s, st.Model())
    ensures alive ==> Running(job, st, sink) && Lagging(Base(sink.disk.checkpoint), st.events + 1, sink.every)
    ensures alive && done ==> Complete(job, sink.disk)
    ensures sink.lastSnapshot.Some? ==> sink.lastSnapshot.value <= st.events
  {
    hide OnPath, Encode, Lagging, Measure, SnapshotOf, Due, Consistent;
    ghost var base := Base(sink.disk.checkpoint);
    LagBound(base, st.events, sink.every);
    done := st.IsDone();
    alive := sink.OnBoundary(job, st, done);
    SnapshotNumbers(st.Model(), sink.id, |Encode(st.records)|);
    if !alive { return; }
    if done {
      Arrived(job, st.Model());
    }
    BoundaryDue(st.events, sink.every, done);
    PassBoundary(base, Base(sink.disk.checkpoint), st.events, sink.every);
  }

  lemma BoundaryDue(events: nat, every: nat, done: bool)
    requires every >= 1
    ensures Due(events, every, false) ==> Due(events, every, done)
    ensures done ==> Due(events, every, done)
  {
  }

  /** One round of the event loop with the durable sink. */
  method Round(job: Job, st: RunState, sink: DurableSink) returns (alive: bool, done: bool)
    requires job.Ok() && Running(job, st, sink) && Lagging(Base(sink.disk.checkpoint), st.events, sink.every)
    requires sink.lastSnapshot.Some? ==> sink.lastSnapshot.value < st.events
    modifies st, sink, sink.disk
    ensures sink.disk.SafeFor(job) && st.events <= Base(sink.disk.checkpoint) + sink.every
    ensures Progressed(old(sink.disk.checkpoint), old(st.events), sink.disk.checkpoint, st.events)
    ensures sink.disk.executed == old(sink.disk.executed) + st.events - old(st.events)
    ensures Kept(old(sink.disk.guarded), sink, alive && done) && sink.disk.cut == (old(sink.disk.cut) || !alive)
    ensures alive && done ==> st.Model() == job.Goal() && Complete(job, sink.disk)
    ensures alive && !done ==>
      && Running(job, st, sink) && Lagging(Base(sink.disk.checkpoint), st.events, sink.every)
      && (sink.lastSnapshot.Some? ==> sink.lastSnapshot.value < st.events)
      && Measure(job.Plan().end, st.nextAt) < old(Measure(job.Plan().end, st.nextAt))
  {
    hide OnPath, Encode, Lagging, Wake, Measure, Complete, Done, Consistent;
    alive, done := Boundary(job, st, sink);
    if !alive { return; }
    if done {
      Arrived(job, st.Model());
      return;
    }
    alive := sink.disk.MaybeCut();
    if !alive { return; }
    PathProgress(job, st.Model());
    alive := Advance(job, st, sink);
    LagBound(Base(sink.disk.checkpoint), st.events, sink.every);
  }

  lemma PathProgress(job: Job, r: Run)
    requires job.Ok() && OnPath(job, r) && !Done(job.Plan(), r)
    ensures Measure(job.Plan().end, Wake(job.Source(), job.Plan(), r).nextAt) < Measure(job.Plan().end, r.nextAt)
    ensures Wake(job.Source(), job.Plan(), r).events == r.events + 1
  {
    hide Finish, Wake;
    WakeProgress(job.Source(), job.Plan(), r);
  }

  /** The event loop with the durable sink. */
  method RunDurably(job: Job, st: RunState, sink: DurableSink) returns (alive: bool)
    requires job.Ok() && Running(job, st, sink) && sink.lastSnapshot == None
    requires Recent(Base(sink.disk.checkpoint), st.events, sink.every)
    modifies st, sink, sink.disk
    ensures sink.disk.SafeFor(job) && st.events <= Base(sink.disk.checkpoint) + sink.every
    ensures Progressed(old(sink.disk.checkpoint), old(st.events), sink.disk.checkpoint, st.events)
    ensures sink.disk.executed == old(sink.disk.executed) + st.events - old(st.events)
    ensures Kept(old(sink.disk.guarded), sink, alive) && sink.disk.cut == (old(sink.disk.cut) || !alive)
    ensures alive ==> st.Model() == job.Goal() && Complete(job, sink.disk)
  {
    hide OnPath, Encode, Recent, Lagging, Measure, Complete;
    RecentLags(Base(sink.disk.checkpoint), st.events, sink.every);
    while true
      invariant Running(job, st, sink) && Lagging(Base(sink.disk.checkpoint), st.events, sink.every)
      invariant sink.lastSnapshot.Some? ==> sink.lastSnapshot.value < st.events
      invariant Progressed(old(sink.disk.checkpoint), old(st.events), sink.disk.checkpoint, st.events)
      invariant sink.disk.executed == old(sink.disk.executed) + st.events - old(st.events)
      invariant Kept(old(sink.disk.guarded), sink, false) && sink.disk.cut == old(sink.disk.cut)
      decreases Measure(job.Plan().end, st.nextAt)
    {
      var done;
      alive, done := Round(job, st, sink);
      if done || !alive { return; }
    }
  }

  lemma SnapshotNumbers(r: Run, id: RunId, len: nat)
    ensures SnapshotOf(r, id, len).events == r.events && SnapshotOf(r, id, len).journalLen == len
  {
  }

  lemma Arrived(job: Job, r: Run)
    requires job.Ok() && OnPath(job, r) && Done(job.Plan(), r)
    ensures r == job.Goal()
  {
  }

  // ---- resumption ----

  /** Cuts off what no checkpoint commits to, then reads the committed lines back. */
  method LoadJournalPrefix(disk: Disk, count: nat, len: nat) returns (alive: bool, records: Option<Ledger>)
    modifies disk`journal, disk`synced, disk`cut
    ensures alive ==> disk.journal == Resized(old(disk.journal), len) && records == ReadRecords(disk.journal, count)
    ensures (!alive && disk.journal == old(disk.journal) && disk.synced == old(disk.synced))
      || (disk.journal == Resized(old(disk.journal), len) && Min(old(disk.synced), len) <= disk.synced <= len)
    ensures disk.cut == (old(disk.cut) || !alive)
  {
    records := None;
    alive := disk.SetLength(len);
    if !alive { return; }
    alive := disk.TrySyncJournal();
    if !alive { return; }
    records := ReadLoop(disk.journal, count);
  }

  /** Overwrites a fresh run state with a checkpoint, unless its shape is another one. */
  method RestoreInto(st: RunState, cp: Checkpoint) returns (fits: bool)
    modifies st
    ensures fits <==> |cp.nextAt| == |st.s.sched| && Fits(old(st.agents), cp)
    ensures fits ==> st.Model() == Restored(old(st.Model()), cp, old(st.records)) && HeapOf(st.heap, st.nextAt)
  {
    fits := false;
    if |cp.nextAt| != |st.s.sched| || |cp.agentSubaccounts| != |st.agents| || |cp.agentMains| != |st.agents| {
      return;
    }
    ghost var before := st.agents;
    for a := 0 to |st.agents|
      invariant st.records == old(st.records) && |st.agents| == |before|
      invariant forall b :: a <= b < |before| ==> st.agents[b] == before[b]
      invariant forall b :: 0 <= b < a ==> |cp.agentSubaccounts[b]| == |before[b].subaccounts|
      invariant forall b :: 0 <= b < a ==>
        st.agents[b] == before[b].(subaccounts := cp.agentSubaccounts[b], main := cp.agentMains[b])
    {
      if |cp.agentSubaccounts[a]| != |st.agents[a].subaccounts| {
        assert |cp.agentSubaccounts[a]| != |before[a].subaccounts|;
        return;
      }
      st.agents := st.agents[a := st.agents[a].(subaccounts := cp.agentSubaccounts[a], main := cp.agentMains[a])];
    }
    fits := true;
    st.rng, st.clock, st.slot, st.sig, st.events := cp.rng, cp.clock, cp.slot, cp.sig, cp.events;
    st.heap := HeapFrom(cp.nextAt);
    st.nextAt := cp.nextAt;
    assert st.agents == Restored(old(st.Model()), cp, old(st.records)).agents;
  }

  /** Truncating to the length a backed checkpoint names keeps the directory safe. */
  lemma SafeCut(job: Job, j: string, n: nat, cp: Checkpoint, stable: Option<Checkpoint>, guarded: bool, m: nat)
    requires job.Ok() && Safe(job, j, n, Some(cp), stable, guarded) && Min(n, cp.journalLen) <= m <= cp.journalLen
    ensures Safe(job, Resized(j, cp.journalLen), m, Some(cp), stable, guarded)
  {
    hide Backed;
    CheckpointWithin(job, cp, j);
    BackedShorter(job, Some(cp), j, cp.journalLen);
    if guarded {
      CheckpointWithin(job, cp, j[..n]);
      BackedShorter(job, Some(cp), j[..n], m);
      BackedShorter(job, stable, j[..n], m);
      assert j[..n][..m] == Resized(j, cp.journalLen)[..m];
    }
  }

  lemma CheckpointWithin(job: Job, cp: Checkpoint, j: string)
    requires job.Ok() && Backed(job, Some(cp), j)
    ensures cp.journalLen <= |j|
  {
  }

  /** The records a backed checkpoint commits to are read back from the cut journal. */
  lemma CommittedReadBack(job: Job, cp: Checkpoint, r: Run, j: string)
    requires job.Ok() && Describes(job, cp, r, j)
    ensures Resized(j, cp.journalLen) == Encode(r.chain.records)
    ensures ReadRecords(Resized(j, cp.journalLen), cp.recordsEmitted) == Some(r.chain.records)
  {
    hide OnPath, Encode, ReadRecords;
    ReadsBack(r.chain.records, "");
    assert Encode(r.chain.records) + "" == Encode(r.chain.records);
  }

  lemma DescribedRun(job: Job, cp: Checkpoint, r: Run, j: string)
    requires job.Ok() && Describes(job, cp, r, j)
    ensures |cp.nextAt| == |job.Plan().sched| && Fits(job.Start().agents, cp) && cp.format == CHECKPOINT_FORMAT
    ensures Restored(job.Start(), cp, r.chain.records) == r && Consistent(job.Plan(), r) && OnPath(job, r)
    ensures cp.events == r.events && cp.journalLen == |Encode(r.chain.records)|
  {
    hide Encode, Finish;
    RestoreUndoesSnapshot(job.Start(), r, job.Id(), |Encode(r.chain.records)|);
  }

  /** The run that the published checkpoint of a safe directory describes. */
  lemma CheckpointRun(job: Job, cp: Checkpoint, j: string, n: nat, stable: Option<Checkpoint>, guarded: bool)
    returns (r: Run)
    requires job.Ok() && Safe(job, j, n, Some(cp), stable, guarded)
    ensures Describes(job, cp, r, j) && OnPath(job, r)
    ensures cp.events == r.events && cp.journalLen == |Encode(r.chain.records)|
  {
    hide OnPath, Encode;
    r :| Describes(job, cp, r, j);
    DescribedRun(job, cp, r, j);
  }

  lemma CheckpointFormat(job: Job, cp: Checkpoint, j: string, n: nat, stable: Option<Checkpoint>, guarded: bool)
    requires job.Ok() && Safe(job, j, n, Some(cp), stable, guarded)
    ensures cp.format == CHECKPOINT_FORMAT
  {
    hide OnPath, Encode;
    var r := CheckpointRun(job, cp, j, n, stable, guarded);
    DescribedRun(job, cp, r, j);
  }

  lemma RestoredRecords(start: Run, cp: Checkpoint, a: Ledger, b: Ledger)
    requires Fits(start.agents, cp)
    ensures var x := Restored(start, cp, a); Restored(start, cp, b) == x.(chain := x.chain.(records := b))
  {
  }

  lemma RecentAtStart(base: nat, events: nat, every: nat)
    requires every >= 1 && events <= base
    ensures Recent(base, events, every)
  {
  }

  /** What an ended session leaves behind. */
  ghost predicate Accounted(job: Job, disk: Disk, out: Outcome, every: nat)
    requires job.Ok()
    reads disk
  {
    match out
    case Finished(ledger) => ledger == Simulate(job.world, job.personas, job.cfg) && Complete(job, disk)
    case Interrupted(reached) => reached <= Base(disk.checkpoint) + every
    case Refused => true
  }

  /** The number of the last event a session came to. */
  ghost function LastEvent(job: Job, out: Outcome): nat
    requires job.Ok()
  {
    match out
    case Finished(_) => job.Goal().events
    case Interrupted(reached) => reached
    case Refused => 0
  }

  /** The returned ledger of a run that was not cut off. */
  method Conclude(job: Job, st: RunState, alive: bool) returns (out: Outcome)
    requires job.Ok() && (alive ==> st.Model() == job.Goal())
    ensures out == if alive then Finished(Simulate(job.world, job.personas, job.cfg)) else Interrupted(st.events)
  {
    if !alive {
      return Interrupted(st.events);
    }
    GoldenSigned(job.world, job.personas, job.cfg);
    var ledger := FinalizeRun(job.world, st, job.cfg);
    out := Finished(ledger);
  }

  /** Runs a prepared state to its end with a new sink at the end of the journal. */
  method Drive(job: Job, st: RunState, disk: Disk, opts: Options) returns (out: Outcome)
    requires job.Ok() && disk.SafeFor(job)
    requires st.w == job.Source() && st.s == job.Plan() && st.Valid() && OnPath(job, st.Model())
    requires disk.journal == Encode(st.records) && st.events <= Base(disk.checkpoint)
    requires CommittedLen(disk.checkpoint) <= |disk.journal|
    modifies st, disk
    ensures disk.SafeFor(job) && out != Refused && Accounted(job, disk, out, Max(opts.snapshotEveryEvents, 1))
    ensures opts.fsync && (old(disk.guarded) || out.Finished?) ==> disk.guarded
    ensures disk.cut == (old(disk.cut) || out.Interrupted?)
    ensures old(Base(disk.checkpoint) == st.events) ==> Onward(old(disk.checkpoint), disk.checkpoint)
    ensures LastEvent(job, out) >= old(st.events)
    ensures disk.executed == old(disk.executed) + LastEvent(job, out) - old(st.events)
  {
    hide OnPath, Encode, Safe, Recent, Complete;
    var sink := new DurableSink(disk, job.Id(), opts);
    assert disk.journal + sink.buffer == disk.journal;
    RecentAtStart(Base(disk.checkpoint), st.events, sink.every);
    var alive := RunDurably(job, st, sink);
    out := Conclude(job, st, alive);
  }

  /**
   * Continues from the published checkpoint. A missing or foreign checkpoint is refused before
   * anything is touched.
   */
  method ResumeDurable(job: Job, disk: Disk, opts: Options) returns (out: Outcome)
    requires job.Ok()
    requires disk.checkpoint.Some? && disk.checkpoint.value.runId == job.Id() ==> disk.SafeFor(job)
    modifies disk
    ensures old(disk.checkpoint).None? || old(disk.checkpoint).value.runId != job.Id() ==>
      out == Refused && unchanged(disk)
    ensures old(disk.checkpoint).Some? && old(disk.checkpoint).value.runId == job.Id() ==>
      && out != Refused && disk.SafeFor(job) && Accounted(job, disk, out, Max(opts.snapshotEveryEvents, 1))
      && Onward(old(disk.checkpoint), disk.checkpoint) && LastEvent(job, out) >= old(Base(disk.checkpoint))
      && disk.executed == old(disk.executed) + LastEvent(job, out) - old(Base(disk.checkpoint))
    ensures opts.fsync && (old(disk.guarded) || out.Finished?) ==> disk.guarded
    ensures disk.cut == (old(disk.cut) || out.Interrupted?)
  {
    hide OnPath, Describes, Encode, Backed, Safe, Complete, Simulate, Consistent, Golden;
    if disk.checkpoint.None? {
      return Refused;
    }
    var cp := disk.checkpoint.value;
    if cp.runId == job.Id() {
      CheckpointFormat(job, cp, disk.journal, disk.synced, disk.stable, disk.guarded);
    }
    if cp.format != CHECKPOINT_FORMAT || cp.runId != job.Id() {
      return Refused;
    }
    ghost var r := CheckpointRun(job, cp, disk.journal, disk.synced, disk.stable, disk.guarded);
    var alive, st := Restore(job, disk, cp, r);
    if !alive {
      return Interrupted(cp.events);
    }
    if st.None? {
      return Refused;
    }
    out := Drive(job, st.value, disk, opts);
  }

  /** Rebuilds the run state from the inputs, the checkpoint and the cut journal. */
  method Restore(job: Job, disk: Disk, cp: Checkpoint, ghost r: Run) returns (alive: bool, st: Option<RunState>)
    requires job.Ok() && disk.SafeFor(job) && disk.checkpoint == Some(cp) && Describes(job, cp, r, disk.journal)
    modifies disk`journal, disk`synced, disk`cut
    ensures disk.SafeFor(job) && disk.cut == (old(disk.cut) || !alive)
    ensures alive ==> st.Some? && fresh(st.value) && disk.journal == Encode(r.chain.records)
    ensures alive ==> st.value.w == job.Source() && st.value.s == job.Plan() && st.value.Valid() && st.value.Model() == r
  {
    hide OnPath, Describes, Encode, Fits, Restored;
    CommittedReadBack(job, cp, r, disk.journal);
    DescribedRun(job, cp, r, disk.journal);
    var run := new RunState(job.Source(), job.personas, job.cfg);
    var fits := RestoreInto(run, cp);
    ghost var j, n := disk.journal, disk.synced;
    var records;
    alive, records := LoadJournalPrefix(disk, cp.recordsEmitted, cp.journalLen);
    if disk.journal == Resized(j, cp.journalLen) && Min(n, cp.journalLen) <= disk.synced <= cp.journalLen {
      SafeCut(job, j, n, cp, disk.stable, disk.guarded, disk.synced);
    }
    st := None;
    if !alive { return; }
    ghost var x := run.Model();
    RestoredRecords(job.Start(), cp, [], r.chain.records);
    run.records := records.value;
    assert run.Model() == x.(chain := x.chain.(records := r.chain.records));
    st := Some(run);
  }

  /** Emptying the journal keeps the directory safe when no checkpoint that may come back needs it. */
  lemma SafeCleared(job: Job, j: string, n: nat, cp: Option<Checkpoint>, stable: Option<Checkpoint>, guarded: bool)
    requires job.Ok() && Safe(job, j, n, cp, stable, guarded) && (guarded ==> Expendable(cp))
    ensures Safe(job, j, n, None, stable, guarded) && Safe(job, "", 0, None, stable, guarded)
  {
    hide Backed;
    NothingBacked(job, j);
    NothingBacked(job, "");
    if guarded {
      NothingBacked(job, j[..n]);
      BackedShorter(job, stable, j[..n], 0);
      assert j[..n][..0] == "" && ""[..0] == "";
    }
  }

  /** Emptying the journal under a checkpoint that could not be removed is safe iff it commits no bytes. */
  lemma UnremovedSafeIff(job: Job, j: string, n: nat, cp: Checkpoint, stable: Option<Checkpoint>, guarded: bool)
    requires job.Ok() && Safe(job, j, n, Some(cp), stable, guarded)
    ensures Safe(job, "", 0, Some(cp), stable, guarded) <==> Expendable(Some(cp))
  {
    hide Backed;
    if Expendable(Some(cp)) {
      BackedShorter(job, Some(cp), j, 0);
      assert j[..0] == "" && ""[..0] == "";
      if guarded {
        SafeCleared(job, j, n, Some(cp), stable, guarded);
      }
    } else if Backed(job, Some(cp), "") {
      CheckpointWithin(job, cp, "");
    }
  }

  lemma NothingBacked(job: Job, j: string)
    requires job.Ok()
    ensures Backed(job, None, j)
  {
  }

  /**
   * A fresh start removes the checkpoint and empties the journal. On a settled guarded directory every
   * outcome of a power failure right after that is safe iff the checkpoint there committed no bytes.
   */
  lemma FreshStartSafeIff(job: Job, j: string, n: nat, cp: Option<Checkpoint>)
    requires job.Ok() && Safe(job, j, n, cp, cp, true)
    ensures Expendable(cp) <==>
      forall j': string, cp' :: MayRemain("", 0, None, cp, j', cp') ==> Safe(job, j', |j'|, cp', cp', true)
  {
    hide Backed;
    if Expendable(cp) {
      SafeCleared(job, j, n, cp, cp, true);
      forall j': string, cp' | MayRemain("", 0, None, cp, j', cp') ensures Safe(job, j', |j'|, cp', cp', true) {
        SafeAfterPowerFailure(job, "", 0, None, cp, j', cp');
      }
    } else {
      FreshStartLoses(job, cp.value);
    }
  }

  /** The old checkpoint comes back without its journal, and its records cannot be read any more. */
  lemma FreshStartLoses(job: Job, cp: Checkpoint)
    requires job.Ok() && cp.journalLen > 0
    ensures MayRemain("", 0, None, Some(cp), "", Some(cp)) && !Safe(job, "", 0, Some(cp), Some(cp), true)
    ensures cp.recordsEmitted > 0 ==> ReadRecords(Resized("", cp.journalLen), cp.recordsEmitted) == None
  {
    hide Encode, OnPath;
    if Backed(job, Some(cp), "") {
      CheckpointWithin(job, cp, "");
    }
    assert IndexOf(Resized("", cp.journalLen), '\n') == cp.journalLen;
  }

  /** So it is with every finished run that recorded anything, synced or not. */
  lemma RestartAfterFinish(job: Job)
    requires job.Ok() && job.Goal().chain.records != []
    ensures var bytes := Encode(job.Goal().chain.records);
      var cp := SnapshotOf(job.Goal(), job.Id(), |bytes|);
      && Safe(job, bytes, |bytes|, Some(cp), Some(cp), true)
      && MayRemain("", 0, None, Some(cp), "", Some(cp)) && !Safe(job, "", 0, Some(cp), Some(cp), true)
  {
    hide OnPath, Golden;
    GoalOnPath(job);
    var bytes := Encode(job.Goal().chain.records);
    var cp := SnapshotOf(job.Goal(), job.Id(), |bytes|);
    assert bytes[..|bytes|] == bytes;
    assert Describes(job, cp, job.Goal(), bytes);
    FreshStartLoses(job, cp);
  }

  /** The uninterrupted run's last state is on its own path. */
  lemma GoalOnPath(job: Job)
    requires job.Ok()
    ensures OnPath(job, job.Goal())
  {
    StartOnPath(job);
    EndOnPath(job, job.Start());
  }

  lemma {:induction false} EndOnPath(job: Job, r: Run)
    requires job.Ok() && OnPath(job, r)
    ensures OnPath(job, job.Goal())
    decreases Measure(job.Plan().end, r.nextAt)
  {
    if Done(job.Plan(), r) {
      Arrived(job, r);
    } else {
      WakeOnPath(job, r);
      PathProgress(job, r);
      hide OnPath;
      EndOnPath(job, Wake(job.Source(), job.Plan(), r));
    }
  }

  /** A run from the start; whatever the directory held is removed first, if it can be. */
  method SimulateDurable(job: Job, disk: Disk, opts: Options) returns (out: Outcome)
    requires job.Ok() && disk.synced <= |disk.journal|
    requires disk.guarded || disk.stubborn ==> disk.SafeFor(job)
    requires disk.stubborn ==> Expendable(disk.checkpoint)
    modifies disk
    ensures out != Refused && Accounted(job, disk, out, Max(opts.snapshotEveryEvents, 1))
    ensures disk.SafeFor(job) || (out.Interrupted? && disk.checkpoint == old(disk.checkpoint) && disk.journal == old(disk.journal))
    ensures old(disk.SafeFor(job)) ==> disk.SafeFor(job)
    ensures disk.executed == old(disk.executed) + LastEvent(job, out)
    ensures opts.fsync && (out.Finished? || old(disk.guarded && Expendable(disk.checkpoint))) ==> disk.guarded
    ensures disk.cut == (old(disk.cut) || out.Interrupted?)
  {
    hide OnPath, Backed, Complete, Simulate, Onward, Golden;
    var st := new RunState(job.Source(), job.personas, job.cfg);
    StartOnPath(job);
    ghost var j, n, cp, stable := disk.journal, disk.synced, disk.checkpoint, disk.stable;
    NothingBacked(job, j);
    NothingBacked(job, "");
    var alive := disk.RemoveCheckpoint();
    AfterRemoval(job, j, n, cp, stable, old(disk.guarded), disk.checkpoint, disk.guarded);
    if !alive { return Interrupted(0); }
    alive := disk.RemoveTemp();
    if !alive { return Interrupted(0); }
    alive := disk.SetLength(0);
    if !alive { return Interrupted(0); }
    out := Drive(job, st, disk, opts);
  }

  /** What removing the checkpoint, or failing to, leaves is safe before and after the journal is emptied. */
  lemma AfterRemoval(job: Job, j: string, n: nat, cp: Option<Checkpoint>, stable: Option<Checkpoint>, guarded: bool,
      cp': Option<Checkpoint>, guarded': bool)
    requires job.Ok() && n <= |j| && (cp' == None || cp' == cp)
    requires guarded' == (guarded && (cp' == cp || Expendable(cp)))
    requires guarded ==> Safe(job, j, n, cp, stable, guarded)
    ensures cp' == None ==> Safe(job, j, n, None, stable, guarded')
    ensures cp' == None && (guarded' ==> Expendable(cp)) ==> Safe(job, "", 0, None, stable, guarded')
    ensures cp' == cp && Expendable(cp) && Safe(job, j, n, cp, stable, guarded) ==> Safe(job, "", 0, cp', stable, guarded')
  {
    hide Backed;
    NothingBacked(job, j);
    NothingBacked(job, "");
    if guarded' && Expendable(cp) {
      SafeCleared(job, j, n, cp, stable, true);
    }
    if cp' == cp && cp.Some? && Safe(job, j, n, cp, stable, guarded) {
      UnremovedSafeIff(job, j, n, cp.value, stable, guarded);
    }
  }

  // ---- sessions ----

  /** Whoever starts afresh has looked that no checkpoint there commits any bytes. */
  predicate Looked(disk: Disk, resume: bool)
    reads disk
  {
    resume || Expendable(disk.checkpoint)
  }

  /** The event a launch continues after: that of the checkpoint it is asked to resume, if there is one. */
  function Resumed(cp: Option<Checkpoint>, resume: bool): nat {
    if resume then Base(cp) else 0
  }

  /** The command line resumes when asked to and a checkpoint is there, and starts afresh otherwise. */
  method Session(job: Job, disk: Disk, resume: bool, opts: Options) returns (out: Outcome)
    requires job.Ok() && disk.SafeFor(job) && (disk.stubborn ==> Looked(disk, resume))
    modifies disk
    ensures disk.SafeFor(job) && out != Refused && Accounted(job, disk, out, Max(opts.snapshotEveryEvents, 1))
    ensures opts.fsync && (out.Finished? || old(disk.guarded && Looked(disk, resume))) ==> disk.guarded
    ensures disk.cut == (old(disk.cut) || out.Interrupted?)
    ensures resume ==> Onward(old(disk.checkpoint), disk.checkpoint)
    ensures LastEvent(job, out) >= Resumed(old(disk.checkpoint), resume)
    ensures disk.executed == old(disk.executed) + LastEvent(job, out) - Resumed(old(disk.checkpoint), resume)
  {
    if resume && disk.checkpoint.Some? {
      out := ResumeDurable(job, disk, opts);
    } else {
      out := SimulateDurable(job, disk, opts);
    }
  }

  /** What being cut off may cost: one interval per launch it happened to. */
  function Allowance(launches: seq<Options>, outs: seq<Outcome>): nat
    requires |outs| <= |launches|
  {
    if outs == [] then 0
    else
      var n := |outs| - 1;
      Allowance(launches, outs[..n]) + if outs[n].Interrupted? then Max(launches[n].snapshotEveryEvents, 1) else 0
  }

  /** No checkpoint of a safe directory is beyond the run's last event. */
  lemma BaseWithin(job: Job, j: string, n: nat, cp: Option<Checkpoint>, stable: Option<Checkpoint>, guarded: bool)
    requires job.Ok() && Safe(job, j, n, cp, stable, guarded)
    ensures Base(cp) <= job.Goal().events
  {
    if cp.Some? {
      var r := CheckpointRun(job, cp.value, j, n, stable, guarded);
      EventBound(job.Source(), job.Plan(), r);
    }
  }

  /** What one resuming launch executes, against how far it moves the checkpoint. */
  lemma LaunchCost(job: Job, disk: Disk, out: Outcome, every: nat, base: nat, spent: int)
    requires job.Ok() && out != Refused && Accounted(job, disk, out, every) && spent == LastEvent(job, out) - base
    ensures spent <= Base(disk.checkpoint) - base + if out.Interrupted? then every else 0
  {
    hide Golden, Encode;
    if out.Finished? {
      SnapshotNumbers(job.Goal(), job.Id(), |disk.journal|);
    }
  }

  /**
   * Any number of resuming launches, each cut off anywhere or running to its end, without a power failure:
   * together they execute the events that were missing, plus at most one interval for each that was cut off.
   */
  method Resumptions(job: Job, disk: Disk, launches: seq<Options>) returns (outs: seq<Outcome>)
    requires job.Ok() && disk.SafeFor(job)
    modifies disk
    ensures disk.SafeFor(job) && |outs| == |launches| && Onward(old(disk.checkpoint), disk.checkpoint)
    ensures disk.executed - old(disk.executed) <= job.Goal().events - old(Base(disk.checkpoint)) + Allowance(launches, outs)
    ensures forall out :: out in outs ==> out.Interrupted? || out == Finished(Simulate(job.world, job.personas, job.cfg))
  {
    hide Safe, Simulate, Complete;
    outs := [];
    ghost var start := disk.checkpoint;
    for i := 0 to |launches|
      invariant disk.SafeFor(job) && |outs| == i && Onward(start, disk.checkpoint)
      invariant disk.executed - old(disk.executed) <= Base(disk.checkpoint) - Base(start) + Allowance(launches, outs)
      invariant forall out :: out in outs ==> out.Interrupted? || out == Finished(Simulate(job.world, job.personas, job.cfg))
    {
      ghost var base, spent := Base(disk.checkpoint), disk.executed;
      var out := Session(job, disk, true, launches[i]);
      LaunchCost(job, disk, out, Max(launches[i].snapshotEveryEvents, 1), base, disk.executed - spent);
      assert (outs + [out])[..i] == outs;
      outs := outs + [out];
    }
    BaseWithin(job, disk.journal, disk.synced, disk.checkpoint, disk.stable, disk.guarded);
  }

  /** One launch of the program, possibly after the power failed. */
  datatype Launch = Launch(opts: Options, powerFailedBefore: bool)

  lemma SafeAfterPowerFailure(job: Job, j: string, n: nat, cp: Option<Checkpoint>, stable: Option<Checkpoint>,
      k: string, cp': Option<Checkpoint>)
    requires job.Ok() && Safe(job, j, n, cp, stable, true) && j[..n] <= k && (cp' == cp || cp' == stable)
    ensures Safe(job, k, |k|, cp', cp', true)
  {
    hide Backed;
    BackedLonger(job, cp', j[..n], k);
    assert k[..|k|] == k;
  }

  /** What a launch comes out as: the simulation's ledger iff it was not cut off. */
  ghost predicate Right(job: Job, out: Outcome, cut: bool)
    requires job.Ok()
  {
    if cut then out.Interrupted? else out == Finished(Simulate(job.world, job.personas, job.cfg))
  }

  /**
   * Any number of launches in one directory, resuming or afresh, each cut off anywhere or running to
   * its end: every launch that is not cut off returns the simulation's ledger. The campaign ends early
   * only when the power fails while the directory is not guarded. With `careful` launches, which look
   * at the checkpoint before they start afresh, and sync, that never happens.
   */
  method Campaign(job: Job, disk: Disk, launches: seq<Launch>, careful: bool)
    returns (outs: seq<Outcome>, ghost cuts: seq<bool>)
    requires job.Ok() && disk.SafeFor(job) && (disk.stubborn ==> careful)
    modifies disk
    ensures disk.SafeFor(job) && |outs| == |cuts| <= |launches|
    ensures forall i :: 0 <= i < |outs| ==> Right(job, outs[i], cuts[i])
    ensures |outs| < |launches| ==> launches[|outs|].powerFailedBefore && !disk.guarded
    ensures careful && old(disk.guarded) && (forall l :: l in launches ==> l.opts.fsync) ==> |outs| == |launches|
  {
    hide Safe, Simulate, Complete, Onward, LastEvent, Resumed;
    outs, cuts := [], [];
    for i := 0 to |launches|
      invariant disk.SafeFor(job) && |outs| == |cuts| == i
      invariant forall k :: 0 <= k < i ==> Right(job, outs[k], cuts[k])
      invariant careful && old(disk.guarded) && (forall l :: l in launches ==> l.opts.fsync) ==> disk.guarded
    {
      if launches[i].powerFailedBefore {
        if !disk.guarded { return; }
        PowerCut(job, disk);
      }
      assert launches[i] in launches;
      disk.cut := false;
      var resume :| careful ==> Looked(disk, resume);
      var out := Session(job, disk, resume, launches[i].opts);
      outs, cuts := outs + [out], cuts + [disk.cut];
    }
  }

  /** The same from a directory that did not exist before, with no condition on what it holds. */
  method Campaigns(job: Job, stubborn: bool, launches: seq<Launch>, careful: bool)
    returns (outs: seq<Outcome>, ghost cuts: seq<bool>)
    requires job.Ok() && (stubborn ==> careful)
    ensures |outs| == |cuts| <= |launches|
    ensures forall i :: 0 <= i < |outs| ==> Right(job, outs[i], cuts[i])
    ensures |outs| < |launches| ==> launches[|outs|].powerFailedBefore
    ensures careful && (forall l :: l in launches ==> l.opts.fsync) ==> |outs| == |launches|
  {
    var disk := new Disk(stubborn);
    outs, cuts := Campaign(job, disk, launches, careful);
  }

  method PowerCut(ghost job: Job, disk: Disk)
    requires job.Ok() && disk.guarded && disk.SafeFor(job)
    modifies disk
    ensures disk.SafeFor(job) && disk.guarded && disk.cut == old(disk.cut)
  {
    hide Backed;
    ghost var j, n, cp, stable := disk.journal, disk.synced, disk.checkpoint, disk.stable;
    disk.PowerFailure();
    SafeAfterPowerFailure(job, j, n, cp, stable, disk.journal, disk.checkpoint);
  }
}
