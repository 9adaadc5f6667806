// The steps of one service fetch: create the temporary file, stream chunks
// under the byte limits, then record a snapshot or give the bytes back.
module ExportFlights {
  import opened Common
  import opened MapSums
  import opened ExportRows
  import opened ExportCell
  import opened ExportDurable
  import opened ExportLive
  import opened ExportSteps

  // One flight changes its own counters; the rest of the dispatch stays.
  lemma FlightWorker(cfg: Config, l: LeaseId, w: Worker, s: Service, f: Flight, size: nat,
                     job: Option<Job>, dir: map<FileName, Content>, dir': map<FileName, Content>)
    requires WorkerOk(cfg, l, w, job, dir) && w.phase.Fetching? && s in w.flights
    requires f.attempt == w.flights[s].attempt && f.bytes == w.flights[s].bytes + size
    requires FlightOk(cfg, l, s, f, dir')
    requires forall n :: n in dir' && n != SnapshotTmp(s, l) ==> n in dir && dir'[n] == dir[n]
    requires w.aggregate + size <= cfg.maxAggregateBytes || size == 0
    ensures WorkerOk(cfg, l, WithFlight(w, s, f, size), job, dir')
  {
    var w' := WithFlight(w, s, f, size);
    FlightSet(w.flights, s, f);
    assert w'.flights.Keys == w.flights.Keys;
    assert |w'.flights| == |w'.flights.Keys| == |w.flights.Keys| == |w.flights|;
    FlightFiles(cfg, l, w, s, f, size, dir, dir');
    if OwnsRow(job, l) { FlightHeld(cfg, w, s, f, size, job.value); }
  }

  lemma FlightFiles(cfg: Config, l: LeaseId, w: Worker, s: Service, f: Flight, size: nat,
                    dir: map<FileName, Content>, dir': map<FileName, Content>)
    requires FilesOk(cfg, l, w, dir) && w.phase.Fetching? && s in w.flights
    requires FlightOk(cfg, l, s, f, dir')
    requires forall n :: n in dir' && n != SnapshotTmp(s, l) ==> n in dir && dir'[n] == dir[n]
    ensures FilesOk(cfg, l, WithFlight(w, s, f, size), dir')
  {
  }

  lemma FlightHeld(cfg: Config, w: Worker, s: Service, f: Flight, size: nat, j: Job)
    requires PoolOk(cfg, w) && Held(cfg, w, j) && s in w.flights && w.phase.Fetching?
    requires f.attempt == w.flights[s].attempt && f.bytes == w.flights[s].bytes + size
    requires w.aggregate + size <= cfg.maxAggregateBytes || size == 0
    requires |WithFlight(w, s, f, size).flights| == |w.flights|
    ensures Held(cfg, WithFlight(w, s, f, size), j)
  {
    var w' := WithFlight(w, s, f, size);
    FlightSet(w.flights, s, f);
    SameProgress(w, w', j);
    StillFlying(w, s, f, size, j);
  }

  lemma StillFlying(w: Worker, s: Service, f: Flight, size: nat, j: Job)
    requires s in w.flights && f.attempt == w.flights[s].attempt
    requires forall t :: t in w.flights ==> Flying(t, w.flights[t], j)
    ensures forall t :: t in WithFlight(w, s, f, size).flights ==> Flying(t, WithFlight(w, s, f, size).flights[t], j)
  {
    assert Flying(s, w.flights[s], j);
  }

  lemma {:induction false} PutSafe(cfg: Config, c: Cell, n: FileName, data: Content)
    requires Durable(cfg, c) && (n.SnapshotTmp? || n.ArchiveTmp?)
    ensures Safe(cfg, c, Then(Put(n, data), End))
    ensures Play(c, Then(Put(n, data), End)) == c.(job := c.job, dir := c.dir[n := data])
  {
    Script1(cfg, c, Put(n, data), End);
  }

  lemma PutStep(cfg: Config, c: Cell, a: Action, l: LeaseId, w': Worker, n: FileName, data: Content)
    requires CellOk(cfg, c) && l in c.workers && !a.Claim? && Enabled(cfg, c, a)
    requires (n.SnapshotTmp? || n.ArchiveTmp?) && n.lease == l
    requires ScriptOf(cfg, c, a) == Then(Put(n, data), End) && WorkersAfter(cfg, c, a) == c.workers[l := w']
    requires WorkerOk(cfg, l, w', c.job, c.dir[n := data])
    ensures StepOk(cfg, c, a)
  {
    PutSafe(cfg, c, n, data);
    ActorLands(cfg, c, l, Then(Put(n, data), End), w', c.job, c.dir[n := data]);
    StepFrom(cfg, c, a, Then(Put(n, data), End), c.workers[l := w']);
  }

  lemma OpenOk(cfg: Config, c: Cell, a: Action)
    requires CellOk(cfg, c) && Enabled(cfg, c, a) && a.Open?
    ensures StepOk(cfg, c, a)
  {
    var l, s, w := a.lease, a.service, c.workers[a.lease];
    var f := w.flights[s].(created := true);
    WorkerOf(cfg, c, l);
    assert FlightOk(cfg, l, s, w.flights[s], c.dir);
    FlightWorker(cfg, l, w, s, f, 0, c.job, c.dir, c.dir[SnapshotTmp(s, l) := []]);
    OpenParts(cfg, c, a, WithFlight(w, s, f, 0));
    PutStep(cfg, c, a, l, WithFlight(w, s, f, 0), SnapshotTmp(s, l), []);
  }

  lemma OpenParts(cfg: Config, c: Cell, a: Action, w': Worker)
    requires Enabled(cfg, c, a) && a.Open?
    requires var w := c.workers[a.lease]; w' == WithFlight(w, a.service, w.flights[a.service].(created := true), 0)
    ensures ScriptOf(cfg, c, a) == Then(Put(SnapshotTmp(a.service, a.lease), []), End)
    ensures WorkersAfter(cfg, c, a) == c.workers[a.lease := w']
  {
  }

  function Grown(f: Flight, size: nat): Flight {
    f.(bytes := f.bytes + size, created := true)
  }

  lemma ChunkGrows(cfg: Config, c: Cell, l: LeaseId, s: Service, w: Worker, f': Flight, chunk: Content, data: Content)
    requires CellOk(cfg, c) && InFlight(c, l, s) && w == c.workers[l] && f' == Grown(w.flights[s], |chunk|)
    requires w.flights[s].bytes + |chunk| <= cfg.maxResponseBytes && w.aggregate + |chunk| <= cfg.maxAggregateBytes
    requires var n := SnapshotTmp(s, l);
             if !w.flights[s].created then data == chunk else n in c.dir && data == c.dir[n] + chunk
    ensures WorkerOk(cfg, l, WithFlight(w, s, f', |chunk|), c.job, c.dir[SnapshotTmp(s, l) := data])
  {
    WorkerOf(cfg, c, l);
    assert FlightOk(cfg, l, s, w.flights[s], c.dir);
    FlightWorker(cfg, l, w, s, f', |chunk|, c.job, c.dir, c.dir[SnapshotTmp(s, l) := data]);
  }

  lemma ChunkParts(cfg: Config, c: Cell, a: Action, w: Worker, f': Flight, n: FileName, data: Content)
    requires Enabled(cfg, c, a) && a.Chunk? && w == c.workers[a.lease]
    requires ReserveAllows(cfg, w, w.flights[a.service], |a.data|, a.free)
    requires f' == Grown(w.flights[a.service], |a.data|) && n == SnapshotTmp(a.service, a.lease)
    requires if !w.flights[a.service].created then data == a.data else n in c.dir && data == c.dir[n] + a.data
    ensures ScriptOf(cfg, c, a) == Then(Put(n, data), End)
    ensures WorkersAfter(cfg, c, a) == c.workers[a.lease := WithFlight(w, a.service, f', |a.data|)]
  {
  }

  lemma ChunkWritten(cfg: Config, c: Cell, a: Action, w: Worker, f': Flight, n: FileName, data: Content)
    requires CellOk(cfg, c) && Enabled(cfg, c, a) && a.Chunk? && w == c.workers[a.lease]
    requires ReserveAllows(cfg, w, w.flights[a.service], |a.data|, a.free)
    requires f' == Grown(w.flights[a.service], |a.data|) && n == SnapshotTmp(a.service, a.lease)
    requires if !w.flights[a.service].created then data == a.data else n in c.dir && data == c.dir[n] + a.data
    ensures StepOk(cfg, c, a)
  {
    ChunkGrows(cfg, c, a.lease, a.service, w, f', a.data, data);
    ChunkParts(cfg, c, a, w, f', n, data);
    PutStep(cfg, c, a, a.lease, WithFlight(w, a.service, f', |a.data|), n, data);
  }

  // The temporary file has been unlinked under the writer: the bytes still count.
  lemma ChunkLost(cfg: Config, c: Cell, a: Action)
    requires CellOk(cfg, c) && Enabled(cfg, c, a) && a.Chunk?
    requires var w := c.workers[a.lease];
             var f := w.flights[a.service];
             ReserveAllows(cfg, w, f, |a.data|, a.free) && f.created && SnapshotTmp(a.service, a.lease) !in c.dir
    ensures StepOk(cfg, c, a)
  {
    var l, s, w := a.lease, a.service, c.workers[a.lease];
    var f := w.flights[s];
    WorkerOf(cfg, c, l);
    assert FlightOk(cfg, l, s, f, c.dir);
    FlightWorker(cfg, l, w, s, Grown(f, |a.data|), |a.data|, c.job, c.dir, c.dir);
    ChunkLostParts(cfg, c, a, w, Grown(f, |a.data|));
    QuietStep(cfg, c, a, l, WithFlight(w, s, Grown(f, |a.data|), |a.data|));
  }

  lemma ChunkLostParts(cfg: Config, c: Cell, a: Action, w: Worker, f': Flight)
    requires Enabled(cfg, c, a) && a.Chunk? && w == c.workers[a.lease]
    requires var f := w.flights[a.service];
             && ReserveAllows(cfg, w, f, |a.data|, a.free) && f.created && f' == Grown(f, |a.data|)
             && SnapshotTmp(a.service, a.lease) !in c.dir
    ensures ScriptOf(cfg, c, a) == End
    ensures WorkersAfter(cfg, c, a) == c.workers[a.lease := WithFlight(w, a.service, f', |a.data|)]
  {
  }

  lemma RefusedChunk(cfg: Config, c: Cell, a: Action, w': Worker)
    requires Enabled(cfg, c, a) && a.Chunk?
    requires var w := c.workers[a.lease];
             && !ReserveAllows(cfg, w, w.flights[a.service], |a.data|, a.free)
             && w' == WithFlight(w, a.service, w.flights[a.service].(refused := true), 0)
    ensures ScriptOf(cfg, c, a) == End && WorkersAfter(cfg, c, a) == c.workers[a.lease := w']
  {
  }

  lemma ChunkRefused(cfg: Config, c: Cell, a: Action)
    requires CellOk(cfg, c) && Enabled(cfg, c, a) && a.Chunk?
    requires var w := c.workers[a.lease];
             !ReserveAllows(cfg, w, w.flights[a.service], |a.data|, a.free)
    ensures StepOk(cfg, c, a)
  {
    var l, s, w := a.lease, a.service, c.workers[a.lease];
    var f := w.flights[s];
    WorkerOf(cfg, c, l);
    assert FlightOk(cfg, l, s, f, c.dir);
    FlightWorker(cfg, l, w, s, f.(refused := true), 0, c.job, c.dir, c.dir);
    RefusedChunk(cfg, c, a, WithFlight(w, s, f.(refused := true), 0));
    QuietStep(cfg, c, a, l, WithFlight(w, s, f.(refused := true), 0));
  }

  lemma ChunkOk(cfg: Config, c: Cell, a: Action)
    requires CellOk(cfg, c) && Enabled(cfg, c, a) && a.Chunk?
    ensures StepOk(cfg, c, a)
  {
    var w := c.workers[a.lease];
    var f := w.flights[a.service];
    var n := SnapshotTmp(a.service, a.lease);
    if !ReserveAllows(cfg, w, f, |a.data|, a.free) {
      ChunkRefused(cfg, c, a);
    } else if !f.created {
      ChunkWritten(cfg, c, a, w, Grown(f, |a.data|), n, a.data);
    } else if n in c.dir {
      ChunkWritten(cfg, c, a, w, Grown(f, |a.data|), n, c.dir[n] + a.data);
    } else {
      ChunkLost(cfg, c, a);
    }
  }

  // ---------------------------------------------------------------- success

  // A held flight's row is running on the flight's own attempt, and its bytes fit.
  lemma HeldFlight(cfg: Config, c: Cell, l: LeaseId, s: Service)
    requires CellOk(cfg, c) && l in c.workers && OwnsRow(c.job, l) && s in c.workers[l].flights
    ensures var j := c.job.value;
            var f := c.workers[l].flights[s];
            && Flying(s, f, j)
            && SucceededBytes(j.rows) + f.bytes <= cfg.maxAggregateBytes
  {
    WorkerOf(cfg, c, l);
    var w := c.workers[l];
    FlightRemove(w.flights, s);
  }

  lemma MovedDir(cfg: Config, c: Cell, l: LeaseId, s: Service)
    requires Durable(cfg, c) && c.job.Some? && Unrecorded(l, s, c.job.value) && SnapshotTmp(s, l) in c.dir
    ensures var c' := Apply(c, Move(SnapshotTmp(s, l), Snapshot(s, l)));
            && Durable(cfg, c') && c'.job == c.job && c'.leases == c.leases
            && Snapshot(s, l) in c'.dir && c'.dir[Snapshot(s, l)] == c.dir[SnapshotTmp(s, l)]
            && (forall n :: n in c'.dir && n != Snapshot(s, l) ==>
                n in c.dir && n != SnapshotTmp(s, l) && c'.dir[n] == c.dir[n])
  {
    OthersUnneeded(cfg, c, SnapshotTmp(s, l));
    OthersUnneeded(cfg, c, Snapshot(s, l));
  }

  lemma SucceedSaves(cfg: Config, c: Cell, l: LeaseId, s: Service, now: Millis)
    requires CellOk(cfg, c) && InFlight(c, l, s) && SnapshotTmp(s, l) in c.dir && OwnsRow(c.job, l)
    ensures Unrecorded(l, s, c.job.value)
    ensures Durable(cfg, Apply(c, Move(SnapshotTmp(s, l), Snapshot(s, l))))
    ensures Durable(cfg, Apply(Apply(c, Move(SnapshotTmp(s, l), Snapshot(s, l))),
              Save(Some(SucceededJob(c.job.value, l, s, c.workers[l].flights[s], now, c.dir[SnapshotTmp(s, l)])))))
  {
    var f := c.workers[l].flights[s];
    WorkerOf(cfg, c, l);
    assert FlightOk(cfg, l, s, f, c.dir);
    assert Unrecorded(l, s, c.job.value);
    HeldFlight(cfg, c, l, s);
    MovedDir(cfg, c, l, s);
    var c1 := Apply(c, Move(SnapshotTmp(s, l), Snapshot(s, l)));
    FinishDurable(cfg, c.job.value, c1.dir, c.leases, l, s, f.attempt, now,
        Recorded(s, l, f, c.dir[SnapshotTmp(s, l)]));
  }

  lemma {:induction false} MoveSave(cfg: Config, c: Cell, m: FileName, n: FileName, job': Option<Job>)
    requires Durable(cfg, c) && Durable(cfg, Apply(c, Move(m, n)))
    requires Durable(cfg, Apply(Apply(c, Move(m, n)), Save(job')))
    ensures var sc := Then(Move(m, n), Then(Save(job'), End));
            Safe(cfg, c, sc) && Play(c, sc) == c.(job := job', dir := Apply(c, Move(m, n)).dir)
  {
    Script2(cfg, c, Move(m, n), Save(job'), End);
  }

  lemma {:induction false} SucceedSafe(cfg: Config, c: Cell, l: LeaseId, s: Service, now: Millis)
    requires CellOk(cfg, c) && InFlight(c, l, s) && SnapshotTmp(s, l) in c.dir && OwnsRow(c.job, l)
    ensures var f := c.workers[l].flights[s];
            var data := c.dir[SnapshotTmp(s, l)];
            var sc := SucceedScript(c.job.value, l, s, f, now, data);
            && Safe(cfg, c, sc)
            && Play(c, sc) == c.(job := Some(SucceededJob(c.job.value, l, s, f, now, data)),
                                 dir := Apply(c, Move(SnapshotTmp(s, l), Snapshot(s, l))).dir)
  {
    var f := c.workers[l].flights[s];
    var data := c.dir[SnapshotTmp(s, l)];
    var e := Move(SnapshotTmp(s, l), Snapshot(s, l));
    var j' := SucceededJob(c.job.value, l, s, f, now, data);
    SucceedSaves(cfg, c, l, s, now);
    MoveSave(cfg, c, SnapshotTmp(s, l), Snapshot(s, l), Some(j'));
    assert SucceedScript(c.job.value, l, s, f, now, data) == Then(e, Then(Save(Some(j')), End));
  }

  // The job after an attempt has finished, seen through what the dispatch relies on.
  predicate FinishedJob(j: Job, j': Job, s: Service, id: AttemptId, now: Millis, o: Outcome) {
    && s in j.rows
    && j'.rows == j.rows[s := FinishedRow(j.rows[s], id, now, o)]
    && j'.archivePath == j.archivePath && j'.archiveBytes == j.archiveBytes
  }

  lemma LandedProgress(cfg: Config, w: Worker, w': Worker, j: Job, j': Job, s: Service, id: AttemptId, now: Millis,
                       o: Outcome)
    requires PoolOk(cfg, w) && Progress(w, j) && w.phase.Fetching? && s in w.flights
    requires FinishedJob(j, j', s, id, now, o) && j.rows[s].status.Running?
    requires w' == Landed(w, s).(aggregate := w'.aggregate, usage := w'.usage) && |w'.flights| == |w.flights| - 1
    ensures Progress(w', j')
  {
    forall i | w'.next <= i < |w'.defs| ensures Fresh(w'.defs[i], w', j') {
      assert Fresh(w.defs[i], w, j);
    }
    forall i | 0 <= i < w'.next && i < |w'.defs| ensures Passed(w'.defs[i], w', j') {
      assert Passed(w.defs[i], w, j);
    }
    forall t | t in j'.rows && t !in w'.defs ensures Aside(t, w', j') {
      assert Aside(t, w, j);
    }
  }

  lemma LandedBytes(cfg: Config, w: Worker, j: Job, j': Job, s: Service, now: Millis, o: Outcome)
    requires Held(cfg, w, j) && RowsOk(j) && s in w.flights && FinishedJob(j, j', s, w.flights[s].attempt, now, o)
    requires o.Success? ==> o.bytes == w.flights[s].bytes
    ensures w.aggregate - (if o.Success? then 0 else w.flights[s].bytes)
         == SucceededBytes(j'.rows) + FlightBytes(w.flights - {s})
    ensures |w.flights - {s}| == |w.flights| - 1
  {
    assert Flying(s, w.flights[s], j);
    FlightRemove(w.flights, s);
    BytesUpdate(j.rows, s, FinishedRow(j.rows[s], w.flights[s].attempt, now, o));
  }

  lemma LandedFlying(cfg: Config, w: Worker, j: Job, j': Job, s: Service, now: Millis, o: Outcome)
    requires Held(cfg, w, j) && s in w.flights && FinishedJob(j, j', s, w.flights[s].attempt, now, o)
    ensures forall t :: t in w.flights - {s} ==> Flying(t, w.flights[t], j')
    ensures forall t :: t in j'.rows && j'.rows[t].status.Running? ==> t in w.flights - {s}
  {
  }

  lemma LandedHeld(cfg: Config, w: Worker, w': Worker, j: Job, j': Job, s: Service, now: Millis, o: Outcome)
    requires PoolOk(cfg, w) && Held(cfg, w, j) && RowsOk(j) && w.phase.Fetching? && s in w.flights
    requires FinishedJob(j, j', s, w.flights[s].attempt, now, o)
    requires o.Success? ==> o.bytes == w.flights[s].bytes
    requires w' == Landed(w, s).(aggregate := w'.aggregate, usage := w'.usage)
    requires w'.aggregate == if o.Success? then w.aggregate else w.aggregate - w.flights[s].bytes
    ensures Held(cfg, w', j')
  {
    assert Flying(s, w.flights[s], j);
    LandedBytes(cfg, w, j, j', s, now, o);
    LandedFlying(cfg, w, j, j', s, now, o);
    LandedProgress(cfg, w, w', j, j', s, w.flights[s].attempt, now, o);
  }

  lemma LandedFiles(cfg: Config, l: LeaseId, w: Worker, s: Service, dir: map<FileName, Content>,
                    dir': map<FileName, Content>)
    requires FilesOk(cfg, l, w, dir) && w.phase.Fetching?
    requires forall n :: n in dir' && !n.Snapshot? ==> n in dir && dir'[n] == dir[n]
    ensures FilesOk(cfg, l, Landed(w, s), dir')
  {
  }

  lemma LandedUnrecorded(l: LeaseId, w: Worker, j: Job, j': Job, s: Service, id: AttemptId, now: Millis, o: Outcome)
    requires UnrecordedOk(l, w, j) && s in w.flights && FinishedJob(j, j', s, id, now, o)
    requires forall i :: w.next <= i < |w.defs| ==> w.defs[i] !in w.flights
    ensures UnrecordedOk(l, Landed(w, s), j')
  {
  }

  lemma SucceedWorker(cfg: Config, l: LeaseId, w: Worker, s: Service, j: Job, j': Job, now: Millis, o: Outcome,
                      dir: map<FileName, Content>, dir': map<FileName, Content>)
    requires WorkerOk(cfg, l, w, Some(j), dir) && w.phase.Fetching? && s in w.flights && Owns(j, l) && RowsOk(j)
    requires FinishedJob(j, j', s, w.flights[s].attempt, now, o) && o.Success? && o.bytes == w.flights[s].bytes
    requires forall n :: n in dir' && !n.Snapshot? ==> n in dir && dir'[n] == dir[n]
    ensures WorkerOk(cfg, l, Landed(w, s), Some(j'), dir')
  {
    var w' := Landed(w, s);
    FlightRemove(w.flights, s);
    LandedFiles(cfg, l, w, s, dir, dir');
    LandedUnrecorded(l, w, j, j', s, w.flights[s].attempt, now, o);
    LandedHeld(cfg, w, w', j, j', s, now, o);
  }

  lemma FinishFrame(l: LeaseId, j: Job, j': Job, s: Service, id: AttemptId, now: Millis, o: Outcome)
    requires FinishedJob(j, j', s, id, now, o) && j'.leaseId == Some(l)
    requires o.Success? ==> o.snapshot.lease == l
    ensures JobFrame({l}, Some(j), Some(j'))
  {
  }

  lemma SucceedLands(cfg: Config, c: Cell, l: LeaseId, s: Service, now: Millis)
    requires CellOk(cfg, c) && InFlight(c, l, s) && SnapshotTmp(s, l) in c.dir && OwnsRow(c.job, l)
    ensures Lands(cfg, c, SucceedScript(c.job.value, l, s, c.workers[l].flights[s], now, c.dir[SnapshotTmp(s, l)]),
                  c.workers[l := Landed(c.workers[l], s)])
  {
    var w := c.workers[l];
    var f := w.flights[s];
    var j := c.job.value;
    var o := Recorded(s, l, f, c.dir[SnapshotTmp(s, l)]);
    var j' := SucceededJob(j, l, s, f, now, c.dir[SnapshotTmp(s, l)]);
    var dir' := Apply(c, Move(SnapshotTmp(s, l), Snapshot(s, l))).dir;
    SucceedSafe(cfg, c, l, s, now);
    WorkerOf(cfg, c, l);
    HeldFlight(cfg, c, l, s);
    assert Unrecorded(l, s, j);
    MovedDir(cfg, c, l, s);
    SucceedWorker(cfg, l, w, s, j, j', now, o, c.dir, dir');
    FinishFrame(l, j, j', s, f.attempt, now, o);
    ActorLands(cfg, c, l, SucceedScript(j, l, s, f, now, c.dir[SnapshotTmp(s, l)]), Landed(w, s), Some(j'), dir');
  }

  lemma SucceedParts(cfg: Config, c: Cell, a: Action)
    requires Enabled(cfg, c, a) && a.Succeed?
    ensures InFlight(c, a.lease, a.service) && SnapshotTmp(a.service, a.lease) in c.dir && OwnsRow(c.job, a.lease)
    ensures ScriptOf(cfg, c, a) == SucceedScript(c.job.value, a.lease, a.service, c.workers[a.lease].flights[a.service],
                                                 a.now, c.dir[SnapshotTmp(a.service, a.lease)])
    ensures WorkersAfter(cfg, c, a) == c.workers[a.lease := Landed(c.workers[a.lease], a.service)]
  {
  }

  lemma SucceedOk(cfg: Config, c: Cell, a: Action)
    requires CellOk(cfg, c) && Enabled(cfg, c, a) && a.Succeed?
    ensures StepOk(cfg, c, a)
  {
    SucceedParts(cfg, c, a);
    SucceedLands(cfg, c, a.lease, a.service, a.now);
    StepFrom(cfg, c, a, ScriptOf(cfg, c, a), WorkersAfter(cfg, c, a));
  }

  // ---------------------------------------------------------------- failure

  lemma FailSaves(cfg: Config, c: Cell, l: LeaseId, s: Service, now: Millis, error: string)
    requires CellOk(cfg, c) && InFlight(c, l, s)
    ensures Durable(cfg, c.(job := FailedJob(c.job, l, s, c.workers[l].flights[s], now, error)))
  {
    if OwnsRow(c.job, l) {
      HeldFlight(cfg, c, l, s);
      FinishDurable(cfg, c.job.value, c.dir, c.leases, l, s, c.workers[l].flights[s].attempt, now, Failure(error));
    }
  }

  lemma DropDropSave(cfg: Config, c: Cell, m: FileName, n: FileName, job': Option<Job>)
    requires Durable(cfg, c) && Durable(cfg, c.(job := job')) && m != n
    requires forall k :: k == m || k == n ==>
               && (c.job.Some? && k.Archive? ==> c.job.value.archivePath != Some(k))
               && (c.job.Some? && k.Snapshot? ==> Unrecorded(k.lease, k.service, c.job.value))
               && (job'.Some? && k.Archive? ==> job'.value.archivePath != Some(k))
               && (job'.Some? && k.Snapshot? ==> Unrecorded(k.lease, k.service, job'.value))
    ensures var c3 := c.(job := job', dir := c.dir - {m} - {n});
            && Durable(cfg, Apply(c, Unlink({m})))
            && Durable(cfg, Apply(Apply(c, Unlink({m})), Unlink({n})))
            && Durable(cfg, c3)
            && Apply(Apply(Apply(c, Unlink({m})), Unlink({n})), Save(job')) == c3
  {
    DropFile(cfg, c, m);
    DropFile(cfg, Apply(c, Unlink({m})), n);
    var d := c.(job := job');
    DropFile(cfg, d, m);
    DropFile(cfg, Apply(d, Unlink({m})), n);
    assert Apply(Apply(d, Unlink({m})), Unlink({n})) == c.(job := job', dir := c.dir - {m} - {n});
  }

  lemma FailedUnrecorded(l: LeaseId, s: Service, j: Job, id: AttemptId, now: Millis, error: string)
    requires Unrecorded(l, s, j)
    ensures Unrecorded(l, s, FinishAttempt(j, l, s, id, now, Failure(error)))
  {
  }

  lemma {:induction false} FailSafe(cfg: Config, c: Cell, l: LeaseId, s: Service, now: Millis, error: string)
    requires CellOk(cfg, c) && InFlight(c, l, s)
    ensures var f := c.workers[l].flights[s];
            var sc := FailScript(c.job, l, s, f, now, error);
            && Safe(cfg, c, sc)
            && Play(c, sc) == c.(job := FailedJob(c.job, l, s, f, now, error),
                                 dir := c.dir - {SnapshotTmp(s, l)} - {Snapshot(s, l)})
  {
    var f := c.workers[l].flights[s];
    var job' := FailedJob(c.job, l, s, f, now, error);
    var m, n := SnapshotTmp(s, l), Snapshot(s, l);
    WorkerOf(cfg, c, l);
    FailSaves(cfg, c, l, s, now, error);
    if c.job.Some? {
      assert Unrecorded(l, s, c.job.value);
      FailedUnrecorded(l, s, c.job.value, f.attempt, now, error);
    }
    DropDropSave(cfg, c, m, n, job');
    assert FailScript(c.job, l, s, f, now, error) == Then(Unlink({m}), Then(Unlink({n}), Then(Save(job'), End)));
    Script3(cfg, c, Unlink({m}), Unlink({n}), Save(job'), End);
  }

  lemma CrashedPool(cfg: Config, l: LeaseId, w: Worker, s: Service, dir: map<FileName, Content>,
                    dir': map<FileName, Content>)
    requires PoolOk(cfg, w) && FilesOk(cfg, l, w, dir) && UsageOk(w) && w.phase.Fetching? && s in w.flights
    requires forall n :: n in dir' ==> n in dir && dir'[n] == dir[n]
    ensures PoolOk(cfg, Crashed(w, s)) && FilesOk(cfg, l, Crashed(w, s), dir') && UsageOk(Crashed(w, s))
    // The clamp in storage.release does not act.
    ensures Crashed(w, s).usage == w.usage - w.flights[s].bytes
  {
    FlightRemove(w.flights, s);
    LandedFiles(cfg, l, w, s, dir, dir');
  }

  lemma FailOwned(cfg: Config, l: LeaseId, w: Worker, s: Service, j: Job, j': Job, now: Millis, error: string)
    requires PoolOk(cfg, w) && Held(cfg, w, j) && UnrecordedOk(l, w, j) && RowsOk(j)
    requires w.phase.Fetching? && s in w.flights && FinishedJob(j, j', s, w.flights[s].attempt, now, Failure(error))
    ensures Held(cfg, Crashed(w, s), j') && UnrecordedOk(l, Crashed(w, s), j')
  {
    FailHeld(cfg, w, s, j, j', now, error);
  }

  lemma FailHeld(cfg: Config, w: Worker, s: Service, j: Job, j': Job, now: Millis, error: string)
    requires PoolOk(cfg, w) && Held(cfg, w, j) && RowsOk(j)
    requires w.phase.Fetching? && s in w.flights && FinishedJob(j, j', s, w.flights[s].attempt, now, Failure(error))
    ensures Held(cfg, Crashed(w, s), j')
  {
    var w' := Crashed(w, s);
    assert w' == Landed(w, s).(aggregate := w'.aggregate, usage := w'.usage);
    assert w'.aggregate == w.aggregate - w.flights[s].bytes;
    LandedHeld(cfg, w, w', j, j', s, now, Failure(error));
  }

  lemma FailWorker(cfg: Config, l: LeaseId, w: Worker, s: Service, job: Option<Job>, now: Millis, error: string,
                   dir: map<FileName, Content>, dir': map<FileName, Content>)
    requires WorkerOk(cfg, l, w, job, dir) && w.phase.Fetching? && s in w.flights
    requires job.Some? ==> RowsOk(job.value)
    requires forall n :: n in dir' ==> n in dir && dir'[n] == dir[n]
    ensures WorkerOk(cfg, l, Crashed(w, s), FailedJob(job, l, s, w.flights[s], now, error), dir')
  {
    CrashedPool(cfg, l, w, s, dir, dir');
    if OwnsRow(job, l) {
      assert Flying(s, w.flights[s], job.value);
      FailOwned(cfg, l, w, s, job.value, FailedJob(job, l, s, w.flights[s], now, error).value, now, error);
    } else if job.Some? {
      forall t | t in Crashed(w, s).flights ensures Unrecorded(l, t, job.value) { assert t in w.flights; }
    }
  }

  lemma FailFrame(c: Cell, l: LeaseId, s: Service, f: Flight, now: Millis, error: string)
    ensures JobFrame({l}, c.job, FailedJob(c.job, l, s, f, now, error))
  {
  }

  lemma FailLands(cfg: Config, c: Cell, l: LeaseId, s: Service, now: Millis, error: string)
    requires CellOk(cfg, c) && InFlight(c, l, s)
    ensures Lands(cfg, c, FailScript(c.job, l, s, c.workers[l].flights[s], now, error),
                  c.workers[l := Crashed(c.workers[l], s)])
  {
    var w := c.workers[l];
    var f := w.flights[s];
    var dir' := c.dir - {SnapshotTmp(s, l)} - {Snapshot(s, l)};
    var job' := FailedJob(c.job, l, s, f, now, error);
    FailSafe(cfg, c, l, s, now, error);
    WorkerOf(cfg, c, l);
    FailWorker(cfg, l, w, s, c.job, now, error, c.dir, dir');
    FailFrame(c, l, s, f, now, error);
    ActorLands(cfg, c, l, FailScript(c.job, l, s, f, now, error), Crashed(w, s), job', dir');
  }

  lemma FailParts(cfg: Config, c: Cell, a: Action)
    requires Enabled(cfg, c, a) && a.Fail?
    ensures InFlight(c, a.lease, a.service)
    ensures ScriptOf(cfg, c, a) ==
              FailScript(c.job, a.lease, a.service, c.workers[a.lease].flights[a.service], a.now, a.error)
    ensures WorkersAfter(cfg, c, a) == c.workers[a.lease := Crashed(c.workers[a.lease], a.service)]
  {
  }

  lemma FailOk(cfg: Config, c: Cell, a: Action)
    requires CellOk(cfg, c) && Enabled(cfg, c, a) && a.Fail?
    ensures StepOk(cfg, c, a)
  {
    FailParts(cfg, c, a);
    FailLands(cfg, c, a.lease, a.service, a.now, a.error);
    StepFrom(cfg, c, a, ScriptOf(cfg, c, a), WorkersAfter(cfg, c, a));
  }
}
