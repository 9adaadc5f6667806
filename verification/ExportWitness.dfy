// A run that goes all the way: one service is fetched, archived, published and
// downloaded. The theorems about dispatches therefore speak of states that occur.
module ExportWitness {
  import opened Common
  import opened MapSums
  import opened ExportRows
  import opened ExportCell
  import opened ExportDurable
  import opened ExportLive
  import opened ExportSteps
  import opened ExportFlights
  import opened ExportPublish
  import opened ExportRuns
  import opened ExportTheorems
  import opened ExportPool
  import opened ExportRetry
  import opened ExportStorage

  const BYTE: Content := [0]

  // Room for one byte of data and its archive.
  predicate Ample(cfg: Config, free: int) {
    && cfg.Valid()
    && 1 + ARCHIVE_OVERHEAD <= cfg.maxRetainedBytes && 2 + ARCHIVE_OVERHEAD <= cfg.storageQuotaBytes
    && cfg.minFreeBytes + 2 + ARCHIVE_OVERHEAD <= free
  }

  // The lease is 0's, nothing was published before, and only dispatch 0 is alive.
  predicate Alone(c: Cell) {
    && OwnsRow(c.job, 0) && c.job.value.owner == 0 && c.job.value.rows.Keys == {Schlussel}
    && c.workers.Keys == {0} && c.workers[0].defs == [Schlussel]
    && c.workers[0].oldPath.None? && c.workers[0].oldBytes.None?
  }

  ghost predicate Claimed(c: Cell) {
    && Alone(c) && c.dir == map[] && c.job.value.rows[Schlussel] == NEW_ROW
    && var w := c.workers[0];
       && w.phase.Fetching? && w.next == 0 && w.ready == 1 && w.returned == 0 && w.flights == map[]
       && w.aggregate == 0 && w.usage == 0
  }

  predicate Flown(c: Cell, bytes: nat, created: bool) {
    && Alone(c) && c.job.value.rows[Schlussel].status.Running?
    && c.dir == (if created then map[SnapshotTmp(Schlussel, 0) := BYTE] else map[])
    && var w := c.workers[0];
       && w.phase.Fetching? && w.next == 1 && w.ready == 0 && w.returned == 0
       && w.flights == map[Schlussel := Flight(0, bytes, created, false)]
       && w.aggregate == bytes && w.usage == bytes
  }

  predicate Fetched(c: Cell, returned: nat, ready: nat) {
    && Alone(c) && c.job.value.rows[Schlussel].status.Succeeded?
    && ArchiveTmp(0) !in c.dir
    && var w := c.workers[0];
       && w.phase.Fetching? && w.next == 1 && w.ready == ready && w.returned == returned && w.flights == map[]
       && w.aggregate == 1 && w.usage == 1
  }

  predicate Zipped(c: Cell, stream: Content, created: bool) {
    && Alone(c) && c.job.value.rows[Schlussel].status.Succeeded?
    && (if created then ArchiveTmp(0) in c.dir && c.dir[ArchiveTmp(0)] == BYTE else ArchiveTmp(0) !in c.dir)
    && var w := c.workers[0];
       && w.phase == Zipping(JobStatus.Completed, 0, stream, created, false)
       && w.usage == 1 + |stream|
  }

  lemma ClaimGoes(cfg: Config, c: Cell, a: Action)
    requires cfg.Valid() && c == NewCell(0, 0, {Schlussel}) && a == Claim(0, 0, {Schlussel}, [Schlussel], 0)
    ensures Claimed(Next(cfg, c, a))
  {
    StuckStart(cfg, c, a);
    ClaimRun(cfg, c, a);
    NoneRecorded(c.job.value.rows);
    assert c.dir - Swept(c.job.value, c.dir) == map[];
  }

  lemma NoneRecorded(rows: map<Service, ServiceRow>)
    requires forall s :: s in rows ==> !rows[s].status.Succeeded?
    ensures SucceededBytes(rows) == 0
  {
    SumZero(map s | s in rows :: RowBytes(rows[s]) as int);
    assert (map s | s in rows :: RowBytes(rows[s]) as int) == (map s | s in rows :: RowBytes(rows[s]));
  }

  lemma CanTake(c: Cell, a: Action)
    requires Claimed(c) && a == Take(0, 0, 0, false)
    ensures Starts(c, a) && CanStart(c.job.value, 0, Schlussel) && !c.job.value.rows[Schlussel].status.Running?
    ensures c.workers[0].defs[c.workers[0].next] == Schlussel
  {
  }

  lemma StartNext(cfg: Config, c: Cell, a: Action, w: Worker, s: Service, j': Job)
    requires Durable(cfg, c) && Starts(c, a) && w == c.workers[a.lease] && s == w.defs[w.next]
    requires !c.job.value.rows[s].status.Running?
    requires j' == StartAttempt(Renew(c.job.value, a.lease, a.now + cfg.leaseMs), a.lease, s, a.attempt, a.now)
    ensures Next(cfg, c, a) == Cell(Some(j'), c.dir - {SnapshotTmp(s, a.lease)},
                                    c.workers[a.lease := Launched(w, a.attempt)], c.leases)
  {
    StartsScript(cfg, c, a);
    StartSafe(cfg, c, a.lease, s, a.attempt, a.now);
    assert WithLease(c, a) == c;
  }

  lemma LaunchedFlown(c: Cell, c': Cell, until: Millis)
    requires Claimed(c) && c'.dir == map[] - {SnapshotTmp(Schlussel, 0)}
    requires c'.workers == c.workers[0 := Launched(c.workers[0], 0)]
    requires c'.job == Some(StartAttempt(Renew(c.job.value, 0, until), 0, Schlussel, 0, 0))
    ensures Flown(c', 0, false)
  {
  }

  lemma TakeGoes(cfg: Config, c: Cell)
    requires CellOk(cfg, c) && Claimed(c)
    ensures Flown(Next(cfg, c, Take(0, 0, 0, false)), 0, false)
  {
    var a := Take(0, 0, 0, false);
    CanTake(c, a);
    StartNext(cfg, c, a, c.workers[0], Schlussel,
              StartAttempt(Renew(c.job.value, 0, cfg.leaseMs), 0, Schlussel, 0, 0));
    LaunchedFlown(c, Next(cfg, c, a), cfg.leaseMs);
  }

  lemma ChunkGoes(cfg: Config, c: Cell, free: int)
    requires Ample(cfg, free) && Flown(c, 0, false)
    ensures Flown(Next(cfg, c, Chunk(0, Schlussel, BYTE, free)), 1, true)
  {
  }

  lemma SucceedMoves(cfg: Config, c: Cell, a: Action, f: Flight)
    requires Enabled(cfg, c, a) && a.Succeed? && f == c.workers[a.lease].flights[a.service]
    ensures var l, s := a.lease, a.service;
            var m, n, c' := SnapshotTmp(s, l), Snapshot(s, l), Next(cfg, c, a);
            && c'.job == Some(SucceededJob(c.job.value, l, s, f, a.now, c.dir[m]))
            && c'.dir == (c.dir - {m})[n := c.dir[m]]
            && c'.workers == c.workers[l := Landed(c.workers[l], s)]
  {
    var m, n := SnapshotTmp(a.service, a.lease), Snapshot(a.service, a.lease);
    var job' := Some(SucceededJob(c.job.value, a.lease, a.service, f, a.now, c.dir[m]));
    SucceedParts(cfg, c, a);
    MovePlays(c, m, n, job');
    MoveSaves(c, m, n, job');
    assert ScriptOf(cfg, c, a) == Then(Move(m, n), Then(Save(job'), End));
  }

  lemma SucceedGoes(cfg: Config, c: Cell)
    requires Flown(c, 1, true)
    ensures Fetched(Next(cfg, c, Succeed(0, Schlussel, 0)), 1, 0)
  {
    var f := c.workers[0].flights[Schlussel];
    SucceedMoves(cfg, c, Succeed(0, Schlussel, 0), f);
  }

  lemma {:induction false} MoveSaves(c: Cell, m: FileName, n: FileName, job': Option<Job>)
    ensures Play(c, Then(Move(m, n), Then(Save(job'), End))).job == job'
  {
    var c1 := Apply(c, Move(m, n));
    assert Play(c1, Then(Save(job'), End)) == Play(Apply(c1, Save(job')), End) == Apply(c1, Save(job'));
  }

  lemma ReturnGoes(cfg: Config, c: Cell)
    requires Fetched(c, 1, 0)
    ensures Fetched(Next(cfg, c, Return(0)), 0, 1)
  {
  }

  lemma LastTakeGoes(cfg: Config, c: Cell)
    requires Fetched(c, 0, 1)
    ensures Fetched(Next(cfg, c, Take(0, 0, 0, true)), 0, 0)
  {
  }

  lemma FinishMoves(cfg: Config, c: Cell, a: Action, st: JobStatus, until: Millis)
    requires Durable(cfg, c) && Archives(cfg, c, a, st, None) && until == a.now + cfg.leaseMs
    ensures var c' := Next(cfg, c, a);
            && c'.job == Renewed(c.job, a.lease, until)
            && c'.dir == c.dir - {ArchiveTmp(a.lease)}
            && c'.workers == c.workers[a.lease := Zipper(c.workers[a.lease], st, a.now)]
  {
    GoParts(cfg, c, a, st, until);
    ZipStartPlays(cfg, c, a.lease, until);
  }

  lemma FinishGoes(cfg: Config, c: Cell, free: int)
    requires CellOk(cfg, c) && Ample(cfg, free) && Fetched(c, 0, 0)
    ensures Zipped(Next(cfg, c, Finish(0, 0, 0, free)), [], false)
  {
    var until: Millis := cfg.leaseMs;
    FinishArchives(cfg, c, free);
    FinishMoves(cfg, c, Finish(0, 0, 0, free), JobStatus.Completed, until);
    ZipBegins(c, Next(cfg, c, Finish(0, 0, 0, free)), until);
  }

  lemma FinishArchives(cfg: Config, c: Cell, free: int)
    requires Ample(cfg, free) && Fetched(c, 0, 0)
    ensures Archives(cfg, c, Finish(0, 0, 0, free), JobStatus.Completed, None)
  {
  }

  lemma ZipBegins(c: Cell, c': Cell, until: Millis)
    requires Fetched(c, 0, 0) && c'.job == Renewed(c.job, 0, until) && c'.dir == c.dir - {ArchiveTmp(0)}
    requires c'.workers == c.workers[0 := Zipper(c.workers[0], JobStatus.Completed, 0)]
    ensures Zipped(c', [], false)
  {
  }

  lemma ReserveGoes(cfg: Config, c: Cell, free: int)
    requires Ample(cfg, free) && Zipped(c, [], false)
    ensures Zipped(Next(cfg, c, ZipReserve(0, BYTE, free)), BYTE, false)
  {
  }

  lemma FlushGoes(cfg: Config, c: Cell)
    requires Zipped(c, BYTE, false)
    ensures Zipped(Next(cfg, c, ZipFlush(0, BYTE)), BYTE, true)
  {
  }

  lemma DoneGoes(cfg: Config, c: Cell)
    requires CellOk(cfg, c) && Zipped(c, BYTE, true)
    ensures var c' := Next(cfg, c, ZipDone(0));
            && c'.workers == map[] && c'.job.Some? && c'.job.value.status.Completed?
            && c'.job.value.archivePath == Some(Archive(0)) && c'.job.value.owner == 0
  {
    var a := ZipDone(0);
    ZipDoneParts(cfg, c, a);
    PublishPlays(cfg, c, 0);
  }

  ghost predicate Reached(cfg: Config, c: Cell) { exists es :: Run(cfg, NewCell(0, 0, {Schlussel}), es) == c }

  lemma ReachedNext(cfg: Config, c: Cell, a: Action)
    requires Reached(cfg, c)
    ensures Reached(cfg, Next(cfg, c, a)) && CellOk(cfg, c) && CellOk(cfg, Next(cfg, c, a))
  {
    var c0 := NewCell(0, 0, {Schlussel});
    var es :| Run(cfg, c0, es) == c;
    ReachedOk(cfg, c);
    NextOk(cfg, c, a);
    RunNext(cfg, c0, es, c, a);
  }

  lemma {:induction false} RunNext(cfg: Config, c0: Cell, es: seq<Event>, c: Cell, a: Action)
    requires Run(cfg, c0, es) == c
    ensures Run(cfg, c0, es + [Step(a)]) == Next(cfg, c, a)
  {
    RunSnoc(cfg, c0, es, Step(a));
  }

  lemma ReachedOk(cfg: Config, c: Cell)
    requires Reached(cfg, c)
    ensures CellOk(cfg, c)
  {
    var es :| Run(cfg, NewCell(0, 0, {Schlussel}), es) == c;
    NewCellOk(cfg, 0, 0, {Schlussel});
    RunOk(cfg, NewCell(0, 0, {Schlussel}), es);
  }

  lemma FetchGoes(cfg: Config, free: int) returns (c: Cell)
    requires Ample(cfg, free)
    ensures Reached(cfg, c) && Fetched(c, 0, 0)
  {
    var c0 := NewCell(0, 0, {Schlussel});
    assert Run(cfg, c0, []) == c0;
    var claim := Claim(0, 0, {Schlussel}, [Schlussel], 0);
    ReachedNext(cfg, c0, claim);
    ClaimGoes(cfg, c0, claim);
    c := Next(cfg, c0, claim);
    ReachedNext(cfg, c, Take(0, 0, 0, false));
    TakeGoes(cfg, c);
    c := Next(cfg, c, Take(0, 0, 0, false));
    ReachedNext(cfg, c, Chunk(0, Schlussel, BYTE, free));
    ChunkGoes(cfg, c, free);
    c := Next(cfg, c, Chunk(0, Schlussel, BYTE, free));
    ReachedNext(cfg, c, Succeed(0, Schlussel, 0));
    SucceedGoes(cfg, c);
    c := Next(cfg, c, Succeed(0, Schlussel, 0));
    ReachedNext(cfg, c, Return(0));
    ReturnGoes(cfg, c);
    c := Next(cfg, c, Return(0));
    ReachedNext(cfg, c, Take(0, 0, 0, true));
    LastTakeGoes(cfg, c);
    c := Next(cfg, c, Take(0, 0, 0, true));
  }

  lemma ZipGoes(cfg: Config, free: int, c: Cell) returns (c': Cell)
    requires Ample(cfg, free) && Reached(cfg, c) && Fetched(c, 0, 0)
    ensures Reached(cfg, c') && CellOk(cfg, c') && Zipped(c', BYTE, true)
  {
    c' := c;
    ReachedNext(cfg, c', Finish(0, 0, 0, free));
    FinishGoes(cfg, c', free);
    c' := Next(cfg, c', Finish(0, 0, 0, free));
    ReachedNext(cfg, c', ZipReserve(0, BYTE, free));
    ReserveGoes(cfg, c', free);
    c' := Next(cfg, c', ZipReserve(0, BYTE, free));
    ReachedNext(cfg, c', ZipFlush(0, BYTE));
    FlushGoes(cfg, c');
    c' := Next(cfg, c', ZipFlush(0, BYTE));
  }

  // One service, one byte: claim, take, fetch, record, return, leave the loop,
  // finish, reserve, write and publish.
  lemma {:induction false} ExportCompletes(cfg: Config, free: int)
    requires Ample(cfg, free)
    ensures exists es :: var c := Run(cfg, NewCell(0, 0, {Schlussel}), es);
              && c.workers == map[] && c.job.Some? && c.job.value.status.Completed?
              && DownloadOf(c, 0).Stream?
  {
    var c := FetchGoes(cfg, free);
    c := ZipGoes(cfg, free, c);
    ReachedNext(cfg, c, ZipDone(0));
    DoneGoes(cfg, c);
    var es :| Run(cfg, NewCell(0, 0, {Schlussel}), es) == Next(cfg, c, ZipDone(0));
    DownloadNeverMisses(cfg, 0, 0, {Schlussel}, es, 0);
  }
}
