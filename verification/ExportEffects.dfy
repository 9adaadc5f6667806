// What each transaction and each chunk leaves in rows, files and counters, column
// by column, and exactly when it is refused.
module ExportEffects {
  import opened Common
  import opened ExportRows
  import opened ExportCell
  import opened ExportDurable
  import opened ExportLive
  import opened ExportSteps
  import opened ExportFlights
  import opened ExportPublish
  import opened ExportRuns
  import opened ExportTheorems
  import opened ExportArchive

  lemma {:induction false} NextFrom(cfg: Config, c: Cell, a: Action, sc: Script, ws: map<LeaseId, Worker>)
    requires Enabled(cfg, c, a) && !a.Claim? && ScriptOf(cfg, c, a) == sc && WorkersAfter(cfg, c, a) == ws
    ensures Next(cfg, c, a) == Play(c, sc).(workers := ws)
  {
  }

  // ---------------------------------------------------------------- claim

  // A running service is pending again and its running attempt failed as interrupted;
  // any other service is left alone.
  predicate RowInterrupted(row: ServiceRow, row': ServiceRow, now: Millis) {
    && (row.status.Running? ==> row'.status.Pending? && row'.lastError == Some("Worker interrupted before completion"))
    && (!row.status.Running? ==> row' == row)
    && row'.attempts == row.attempts && |row'.ledger| == |row.ledger|
    && (forall i :: 0 <= i < |row.ledger| ==>
          if row.ledger[i].status.Running?
          then && row'.ledger[i].status.Failed? && row'.ledger[i].completedAt == Some(now)
               && row'.ledger[i].error == Some("Worker interrupted before completion")
          else row'.ledger[i] == row.ledger[i])
  }

  // The job runs under the new lease, keeps its start and its archive, and forgets
  // the end it may have had.
  predicate Claimed(j: Job, job': Option<Job>, l: LeaseId, now: Millis, until: Millis) {
    && job'.Some?
    && var j' := job'.value;
       && j'.status.Running? && j'.leaseId == Some(l) && j'.leaseUntil == Some(until)
       && j'.startedAt == (if j.startedAt.Some? then j.startedAt else Some(now))
       && j'.completedAt.None? && j'.expiresAt.None? && j'.lastError.None?
       && j'.archivePath == j.archivePath && j'.archiveBytes == j.archiveBytes
       && j'.owner == j.owner && j'.createdAt == j.createdAt && j'.rows.Keys == j.rows.Keys
       && (forall s :: s in j.rows ==> RowInterrupted(j.rows[s], j'.rows[s], now))
  }

  lemma ClaimRowClaimed(j: Job, l: LeaseId, now: Millis, leaseMs: nat)
    requires JobOk(j) && Claimable(j, now)
    ensures Claimed(j, Some(ClaimJob(j, l, now, leaseMs)), l, now, now + leaseMs)
  {
    forall s | s in j.rows
      ensures RowInterrupted(j.rows[s], ClaimJob(j, l, now, leaseMs).rows[s], now)
    {
      assert RowOk(j.rows[s], j.status);
      CloseAttemptsShape(j.rows[s], AttemptStatus.Failed, now, INTERRUPTED);
    }
  }

  lemma SweptDir(j: Job, dir: map<FileName, Content>)
    ensures dir - Swept(j, dir) == map n | n in dir && (n.Snapshot? || j.archivePath == Some(n)) :: dir[n]
  {
  }

  // The sweep leaves the snapshots and the named archive.
  lemma ClaimTakes(cfg: Config, c: Cell, a: Action)
    requires CellOk(cfg, c) && Enabled(cfg, c, a) && a.Claim?
    ensures Claimed(c.job.value, Next(cfg, c, a).job, a.lease, a.now, a.now + cfg.leaseMs)
    ensures Next(cfg, c, a).dir
         == map n | n in c.dir && (n.Snapshot? || c.job.value.archivePath == Some(n)) :: c.dir[n]
  {
    ClaimRowClaimed(c.job.value, a.lease, a.now, cfg.leaseMs);
    ClaimRun(cfg, c, a);
    SweptDir(c.job.value, c.dir);
  }

  // ---------------------------------------------------------------- retry

  // A failed service is as before its first attempt but for its ledger.
  predicate RowRequeued(row: ServiceRow, row': ServiceRow) {
    if row.status.Failed?
    then row' == ServiceRow(RowStatus.Pending, row.attempts, None, None, None, None, None, None, row.ledger)
    else row' == row
  }

  predicate Requeued(j: Job, job': Option<Job>) {
    && job'.Some?
    && var j' := job'.value;
       && j'.status.Queued? && j'.completedAt.None? && j'.expiresAt.None? && j'.lastError.None?
       && j'.leaseId.None? && j'.leaseUntil.None?
       && j'.archivePath == j.archivePath && j'.archiveBytes == j.archiveBytes
       && j'.owner == j.owner && j'.createdAt == j.createdAt && j'.startedAt == j.startedAt
       && j'.rows.Keys == j.rows.Keys && (forall s :: s in j.rows ==> RowRequeued(j.rows[s], j'.rows[s]))
  }

  // A partial or failed job with a failed service, or with an error of its own.
  predicate HasFailed(j: Job) {
    && (j.status.Partial? || j.status.Failed?)
    && ((exists s :: s in j.rows && j.rows[s].status.Failed?) || j.lastError.Some?)
  }

  lemma RetryRowRequeued(j: Job)
    ensures RetryAccepts(j) <==> HasFailed(j)
    ensures RetryAccepts(j) ==> Requeued(j, Some(RetryJob(j)))
  {
    if AnyRow(j, RowStatus.Failed) { var s :| s in j.rows && j.rows[s].status == RowStatus.Failed; }
    if s :| s in j.rows && j.rows[s].status.Failed? { assert AnyRow(j, RowStatus.Failed); }
  }

  lemma RetryRequeues(cfg: Config, c: Cell, a: Action)
    requires c.job.Some? && a.Retry?
    ensures Enabled(cfg, c, a) <==> HasFailed(c.job.value)
    ensures Enabled(cfg, c, a) ==> Requeued(c.job.value, Next(cfg, c, a).job) && Next(cfg, c, a).dir == c.dir
  {
    RetryRowRequeued(c.job.value);
    if Enabled(cfg, c, a) {
      var sc := Then(Save(Some(RetryJob(c.job.value))), End);
      NextFrom(cfg, c, a, sc, c.workers);
      assert Play(c, sc) == Apply(c, sc.effect);
    }
  }

  // ---------------------------------------------------------------- attempts

  // Only service s changes, and only rows and lease end do.
  predicate OnlyRow(j: Job, job': Option<Job>, s: Service) {
    && job'.Some? && s in job'.value.rows
    && job'.value == j.(rows := j.rows[s := job'.value.rows[s]], leaseUntil := job'.value.leaseUntil)
  }

  // A new attempt with the next number, running, over a clean row.
  predicate AttemptStarted(row: ServiceRow, row': ServiceRow, id: AttemptId, now: Millis) {
    row' == ServiceRow(RowStatus.Running, row.attempts + 1, None, None, None, None, Some(now), None,
                       row.ledger
                       + [Attempt(id, row.attempts + 1, AttemptStatus.Running, now, None, None, None, None)])
  }

  predicate Launches(c: Cell, a: Action) {
    && a.Take? && a.lease in c.workers && !a.abort && OwnsRow(c.job, a.lease)
    && c.workers[a.lease].next < |c.workers[a.lease].defs|
  }

  lemma StartedRowStarts(j: Job, l: LeaseId, s: Service, id: AttemptId, now: Millis, leaseMs: nat)
    requires CanStart(j, l, s)
    ensures var job' := Some(StartAttempt(Renew(j, l, now + leaseMs), l, s, id, now));
            && OnlyRow(j, job', s) && job'.value.leaseUntil == Some(now + leaseMs)
            && AttemptStarted(j.rows[s], job'.value.rows[s], id, now)
  {
  }

  // The attempt is in the rows and in flight, and its temporary file is not there yet.
  predicate Started(c: Cell, c': Cell, l: LeaseId, s: Service, id: AttemptId, now: Millis, until: Millis) {
    && c.job.Some? && s in c.job.value.rows && l in c.workers && l in c'.workers
    && OnlyRow(c.job.value, c'.job, s) && c'.job.value.leaseUntil == Some(until)
    && AttemptStarted(c.job.value.rows[s], c'.job.value.rows[s], id, now)
    && c'.dir == c.dir - {SnapshotTmp(s, l)}
    && c'.workers[l].flights == c.workers[l].flights[s := Flight(id, 0, false, false)]
    && c'.workers[l].next == c.workers[l].next + 1
  }

  lemma StartedCell(cfg: Config, c: Cell, l: LeaseId, w: Worker, s: Service, id: AttemptId, now: Millis, c': Cell)
    requires l in c.workers && w == c.workers[l] && c.job.Some? && CanStart(c.job.value, l, s)
    requires w.next < |w.defs| && w.ready > 0 && s == w.defs[w.next]
    requires c'.job == Some(StartAttempt(Renew(c.job.value, l, now + cfg.leaseMs), l, s, id, now))
    requires c'.dir == c.dir - {SnapshotTmp(s, l)} && c'.workers == c.workers[l := Launched(w, id)]
    ensures Started(c, c', l, s, id, now, now + cfg.leaseMs)
  {
    StartedRowStarts(c.job.value, l, s, id, now, cfg.leaseMs);
  }

  lemma {:induction false} LaunchParts(cfg: Config, c: Cell, a: Action, w: Worker, s: Service)
    requires Enabled(cfg, c, a) && Launches(c, a) && w == c.workers[a.lease] && s == w.defs[w.next]
    requires CanStart(c.job.value, a.lease, s)
    ensures w.ready > 0
    ensures var c', end := Next(cfg, c, a), Play(c, StartScript(cfg, c.job.value, a.lease, s, a.attempt, a.now));
            c'.job == end.job && c'.dir == end.dir && c'.workers == c.workers[a.lease := Launched(w, a.attempt)]
  {
    StartsScript(cfg, c, a);
  }

  lemma NextCanStart(cfg: Config, c: Cell, l: LeaseId, w: Worker, s: Service)
    requires CellOk(cfg, c) && l in c.workers && w == c.workers[l] && OwnsRow(c.job, l)
    requires w.next < |w.defs| && s == w.defs[w.next]
    ensures CanStart(c.job.value, l, s) && !c.job.value.rows[s].status.Running?
  {
    NextIsFresh(cfg, c, l);
  }

  lemma LaunchPlays(cfg: Config, c: Cell, a: Action, w: Worker, s: Service)
    requires Durable(cfg, c) && Enabled(cfg, c, a) && Launches(c, a) && w == c.workers[a.lease] && s == w.defs[w.next]
    requires CanStart(c.job.value, a.lease, s) && !c.job.value.rows[s].status.Running?
    ensures w.ready > 0
    ensures var c', j := Next(cfg, c, a), Renew(c.job.value, a.lease, a.now + cfg.leaseMs);
            && c'.job == Some(StartAttempt(j, a.lease, s, a.attempt, a.now))
            && c'.dir == c.dir - {SnapshotTmp(s, a.lease)}
            && c'.workers == c.workers[a.lease := Launched(w, a.attempt)]
  {
    LaunchParts(cfg, c, a, w, s);
    StartSafe(cfg, c, a.lease, s, a.attempt, a.now);
  }

  lemma StartsNow(cfg: Config, c: Cell, a: Action, w: Worker, s: Service)
    requires Durable(cfg, c) && Enabled(cfg, c, a) && Launches(c, a) && w == c.workers[a.lease] && s == w.defs[w.next]
    requires CanStart(c.job.value, a.lease, s) && !c.job.value.rows[s].status.Running?
    ensures Started(c, Next(cfg, c, a), a.lease, s, a.attempt, a.now, a.now + cfg.leaseMs)
  {
    LaunchPlays(cfg, c, a, w, s);
    StartedCell(cfg, c, a.lease, w, s, a.attempt, a.now, Next(cfg, c, a));
  }

  // A runner with the lease and a service left starts an attempt at it.
  lemma AttemptStarts(cfg: Config, c: Cell, a: Action, w: Worker, s: Service)
    requires CellOk(cfg, c) && Enabled(cfg, c, a) && Launches(c, a)
    requires w == c.workers[a.lease] && s == w.defs[w.next]
    ensures Started(c, Next(cfg, c, a), a.lease, s, a.attempt, a.now, a.now + cfg.leaseMs)
  {
    NextCanStart(cfg, c, a.lease, w, s);
    StartsNow(cfg, c, a, w, s);
  }

  // And in no other case does it.
  lemma NothingStarts(cfg: Config, c: Cell, a: Action)
    requires Enabled(cfg, c, a) && a.Take? && !Launches(c, a)
    ensures Next(cfg, c, a).job == c.job && Next(cfg, c, a).dir == c.dir
    ensures var w' := Next(cfg, c, a).workers[a.lease]; w'.flights == c.workers[a.lease].flights
  {
    NextFrom(cfg, c, a, End, WorkersAfter(cfg, c, a));
    assert Play(c, End) == c;
  }

  // The newest attempt closes, with this outcome, and the row with it.
  predicate AttemptSucceeded(row: ServiceRow, row': ServiceRow, now: Millis, data: Content, n: FileName) {
    && |row.ledger| > 0
    && row' == row.(status := RowStatus.Succeeded, bytes := Some(|data|), sha := Some(Sha256Of(data)),
                    snapshot := Some(n), lastError := None, completedAt := Some(now), ledger := row'.ledger)
    && row'.ledger
    == row.ledger[|row.ledger| - 1 :=
         Newest(row).(status := AttemptStatus.Succeeded, completedAt := Some(now), bytes := Some(|data|),
                      sha := Some(Sha256Of(data)))]
  }

  predicate AttemptFailed(row: ServiceRow, row': ServiceRow, now: Millis, error: string) {
    && |row.ledger| > 0
    && row' == row.(status := RowStatus.Failed, bytes := None, sha := None, snapshot := None,
                    lastError := Some(error), completedAt := Some(now), ledger := row'.ledger)
    && row'.ledger
    == row.ledger[|row.ledger| - 1 :=
         Newest(row).(status := AttemptStatus.Failed, completedAt := Some(now), error := Some(error))]
  }

  lemma FinishedLedger(row: ServiceRow, id: AttemptId, now: Millis, o: Outcome)
    requires LedgerOk(row) && row.status.Running? && Newest(row).id == id
    ensures o.Success? && o.sha.Sha256Of? && o.bytes == |o.sha.content| ==>
              AttemptSucceeded(row, FinishedRow(row, id, now, o), now, o.sha.content, o.snapshot)
    ensures o.Failure? ==> AttemptFailed(row, FinishedRow(row, id, now, o), now, o.error)
  {
  }

  // The file that was written is recorded: its name, its size, its digest.
  predicate SuccessRecorded(c: Cell, c': Cell, s: Service, l: LeaseId, now: Millis) {
    && c.job.Some? && s in c.job.value.rows && SnapshotTmp(s, l) in c.dir
    && var data := c.dir[SnapshotTmp(s, l)];
       && OnlyRow(c.job.value, c'.job, s)
       && AttemptSucceeded(c.job.value.rows[s], c'.job.value.rows[s], now, data, Snapshot(s, l))
       && c'.dir == (c.dir - {SnapshotTmp(s, l)})[Snapshot(s, l) := data]
  }

  lemma FlightFacts(cfg: Config, c: Cell, l: LeaseId, s: Service, f: Flight)
    requires CellOk(cfg, c) && InFlight(c, l, s) && f == c.workers[l].flights[s] && OwnsRow(c.job, l)
    ensures s in c.job.value.rows && LedgerOk(c.job.value.rows[s])
    ensures c.job.value.rows[s].status.Running? && Newest(c.job.value.rows[s]).id == f.attempt
    ensures SnapshotTmp(s, l) in c.dir ==> |c.dir[SnapshotTmp(s, l)]| == f.bytes
  {
    HeldFlight(cfg, c, l, s);
    WorkerOf(cfg, c, l);
    assert FlightOk(cfg, l, s, f, c.dir);
    assert RowOk(c.job.value.rows[s], c.job.value.status);
  }

  lemma RecordedRow(j: Job, l: LeaseId, s: Service, f: Flight, now: Millis, data: Content)
    requires Owns(j, l) && s in j.rows && LedgerOk(j.rows[s]) && j.rows[s].status.Running?
    requires Newest(j.rows[s]).id == f.attempt && f.bytes == |data|
    ensures var job' := Some(SucceededJob(j, l, s, f, now, data));
            && OnlyRow(j, job', s)
            && AttemptSucceeded(j.rows[s], job'.value.rows[s], now, data, Snapshot(s, l))
  {
    FinishedLedger(j.rows[s], f.attempt, now, Recorded(s, l, f, data));
  }

  lemma RecordedCell(c: Cell, l: LeaseId, s: Service, f: Flight, now: Millis, data: Content, c': Cell)
    requires OwnsRow(c.job, l) && s in c.job.value.rows && LedgerOk(c.job.value.rows[s])
    requires c.job.value.rows[s].status.Running? && Newest(c.job.value.rows[s]).id == f.attempt
    requires SnapshotTmp(s, l) in c.dir && data == c.dir[SnapshotTmp(s, l)] && f.bytes == |data|
    requires c'.job == Some(SucceededJob(c.job.value, l, s, f, now, data))
    requires c'.dir == Apply(c, Move(SnapshotTmp(s, l), Snapshot(s, l))).dir
    ensures SuccessRecorded(c, c', s, l, now)
  {
    RecordedRow(c.job.value, l, s, f, now, data);
  }

  lemma AttemptSucceeds(cfg: Config, c: Cell, a: Action)
    requires CellOk(cfg, c) && Enabled(cfg, c, a) && a.Succeed?
    ensures SuccessRecorded(c, Next(cfg, c, a), a.service, a.lease, a.now)
  {
    SucceedParts(cfg, c, a);
    NextFrom(cfg, c, a, ScriptOf(cfg, c, a), WorkersAfter(cfg, c, a));
    SucceedSafe(cfg, c, a.lease, a.service, a.now);
    FlightFacts(cfg, c, a.lease, a.service, c.workers[a.lease].flights[a.service]);
    RecordedCell(c, a.lease, a.service, c.workers[a.lease].flights[a.service], a.now,
                 c.dir[SnapshotTmp(a.service, a.lease)], Next(cfg, c, a));
  }

  // A failure removes both files of the attempt; it is recorded while the lease is held.
  predicate FailureRecorded(c: Cell, c': Cell, s: Service, l: LeaseId, now: Millis, error: string) {
    && c'.dir == c.dir - {SnapshotTmp(s, l)} - {Snapshot(s, l)}
    && (!OwnsRow(c.job, l) ==> c'.job == c.job)
    && (OwnsRow(c.job, l) ==>
          && s in c.job.value.rows && OnlyRow(c.job.value, c'.job, s)
          && AttemptFailed(c.job.value.rows[s], c'.job.value.rows[s], now, error))
  }

  lemma FailureRow(j: Job, l: LeaseId, s: Service, f: Flight, now: Millis, error: string)
    requires Owns(j, l) && s in j.rows && LedgerOk(j.rows[s]) && j.rows[s].status.Running?
    requires Newest(j.rows[s]).id == f.attempt
    ensures var job' := FailedJob(Some(j), l, s, f, now, error);
            OnlyRow(j, job', s) && AttemptFailed(j.rows[s], job'.value.rows[s], now, error)
  {
    FinishedLedger(j.rows[s], f.attempt, now, Failure(error));
  }

  lemma FailureCell(c: Cell, l: LeaseId, s: Service, f: Flight, now: Millis, error: string, c': Cell)
    requires OwnsRow(c.job, l) ==>
               && s in c.job.value.rows && LedgerOk(c.job.value.rows[s]) && c.job.value.rows[s].status.Running?
               && Newest(c.job.value.rows[s]).id == f.attempt
    requires c'.job == FailedJob(c.job, l, s, f, now, error)
    requires c'.dir == c.dir - {SnapshotTmp(s, l)} - {Snapshot(s, l)}
    ensures FailureRecorded(c, c', s, l, now, error)
  {
    if OwnsRow(c.job, l) { FailureRow(c.job.value, l, s, f, now, error); }
  }

  lemma AttemptFails(cfg: Config, c: Cell, a: Action)
    requires CellOk(cfg, c) && Enabled(cfg, c, a) && a.Fail?
    ensures FailureRecorded(c, Next(cfg, c, a), a.service, a.lease, a.now, a.error)
  {
    var f := c.workers[a.lease].flights[a.service];
    FailParts(cfg, c, a);
    NextFrom(cfg, c, a, ScriptOf(cfg, c, a), WorkersAfter(cfg, c, a));
    FailSafe(cfg, c, a.lease, a.service, a.now, a.error);
    if OwnsRow(c.job, a.lease) { FlightFacts(cfg, c, a.lease, a.service, f); }
    FailureCell(c, a.lease, a.service, f, a.now, a.error, Next(cfg, c, a));
  }

  // ---------------------------------------------------------------- chunks

  // The four limits a chunk of a response must keep.
  predicate ChunkFits(cfg: Config, w: Worker, f: Flight, size: nat, free: int) {
    && f.bytes + size <= cfg.maxResponseBytes
    && w.aggregate + size <= cfg.maxAggregateBytes
    && w.usage + size <= cfg.storageQuotaBytes
    && cfg.minFreeBytes <= free - size
  }

  // Counted on all three counters, and on the end of the file unless that was removed.
  predicate ChunkTaken(c: Cell, c': Cell, l: LeaseId, s: Service, data: Content) {
    && InFlight(c, l, s) && InFlight(c', l, s) && c'.job == c.job
    && var w, w', n := c.workers[l], c'.workers[l], SnapshotTmp(s, l);
       && w'.flights[s] == w.flights[s].(bytes := w.flights[s].bytes + |data|, created := true)
       && w'.flights - {s} == w.flights - {s}
       && w'.aggregate == w.aggregate + |data| && w'.usage == w.usage + |data|
       && c'.dir == if !w.flights[s].created then c.dir[n := data]
                    else if n in c.dir then c.dir[n := c.dir[n] + data]
                    else c.dir
  }

  // Nothing is counted or written, and no further chunk is taken.
  predicate ChunkRefused(c: Cell, c': Cell, l: LeaseId, s: Service) {
    && InFlight(c, l, s) && InFlight(c', l, s) && c'.job == c.job && c'.dir == c.dir
    && var w, w' := c.workers[l], c'.workers[l];
       && w'.flights == w.flights[s := w.flights[s].(refused := true)]
       && w'.aggregate == w.aggregate && w'.usage == w.usage
  }

  lemma ChunkPlays(cfg: Config, c: Cell, a: Action, sc: Script)
    requires Enabled(cfg, c, a) && a.Chunk? && sc == ScriptOf(cfg, c, a)
    ensures Next(cfg, c, a) == (if sc.Then? then Apply(c, sc.effect) else c).(workers := WorkersAfter(cfg, c, a))
  {
    if sc.Then? { assert Play(c, sc) == Apply(c, sc.effect); }
  }

  // A chunk is taken exactly when it keeps all four limits.
  lemma ChunkDecides(cfg: Config, c: Cell, a: Action, w: Worker)
    requires Enabled(cfg, c, a) && a.Chunk? && w == c.workers[a.lease]
    ensures if ChunkFits(cfg, w, w.flights[a.service], |a.data|, a.free)
            then ChunkTaken(c, Next(cfg, c, a), a.lease, a.service, a.data)
            else ChunkRefused(c, Next(cfg, c, a), a.lease, a.service)
  {
    ChunkPlays(cfg, c, a, ScriptOf(cfg, c, a));
  }

  // A block of the archive must keep the quota and the reserve.
  lemma ZipBlockDecides(cfg: Config, c: Cell, a: Action, w: Worker)
    requires Enabled(cfg, c, a) && a.ZipReserve? && w == c.workers[a.lease]
    ensures var c' := Next(cfg, c, a);
            && c'.job == c.job && c'.dir == c.dir && a.lease in c'.workers && w.phase.Zipping?
            && var w' := c'.workers[a.lease];
               w' == if w.usage + |a.data| <= cfg.storageQuotaBytes && cfg.minFreeBytes <= a.free - |a.data|
                     then w.(usage := w.usage + |a.data|, phase := w.phase.(stream := w.phase.stream + a.data))
                     else w.(phase := w.phase.(refused := true))
  {
    NextFrom(cfg, c, a, End, WorkersAfter(cfg, c, a));
    assert Play(c, End) == c && w.phase.stream + [] == w.phase.stream;
  }

  // ---------------------------------------------------------------- the end of the runners

  // Why no archive is built: nothing to put in, or no room for it.
  predicate NoArchive(cfg: Config, j: Job, w: Worker, retained: nat, free: int, error: Option<string>) {
    var size := w.aggregate + 1024 * 1024;
    if forall s :: s in j.rows ==> !j.rows[s].status.Succeeded? then error == None
    else if cfg.maxRetainedBytes < retained + size then error == Some("Per-user retained export artifact limit reached")
    else if cfg.storageQuotaBytes < w.usage + size then error == Some("Export storage quota exceeded")
    else if free - size < cfg.minFreeBytes then error == Some("Export storage free-space reserve reached")
    else false
  }

  lemma FinishSaves(cfg: Config, c: Cell, a: Action, w: Worker, error: Option<string>)
    requires Enabled(cfg, c, a) && a.Finish? && w == c.workers[a.lease] && OwnsRow(c.job, a.lease)
    requires if FinalStatus(c.job.value).Failed? then error.None?
             else error.Some? && error == FinishError(cfg, w, a.retained, a.free)
    ensures Saves(ScriptOf(cfg, c, a), job => FailsWith(job, error)) && Commits(ScriptOf(cfg, c, a))
    ensures WorkerAfter(cfg, c, a).None?
  {
    var p: Option<Job> -> bool := job => FailsWith(job, error);
    var sc := ScriptOf(cfg, c, a);
    if error.Some? {
      assert Saves(sc.rest.rest.rest, p);
      assert Saves(sc.rest.rest, p) && Commits(sc.rest.rest);
      assert Saves(sc.rest, p) && Commits(sc.rest);
    } else {
      OneSave(sc.effect.job, sc.rest, p);
    }
  }

  predicate FailsWith(job: Option<Job>, error: Option<string>) { job.Some? && job.value.lastError == error }

  // Then the job is closed with that reason, and only then: otherwise the lease is
  // renewed and the zip begins, with the status the rows deserve.
  lemma FinishCloses(cfg: Config, c: Cell, a: Action, w: Worker, error: Option<string>)
    requires Enabled(cfg, c, a) && a.Finish? && w == c.workers[a.lease] && OwnsRow(c.job, a.lease)
    requires c.job.value.rows != map[]
    requires NoArchive(cfg, c.job.value, w, a.retained, a.free, error)
    ensures Publishes(cfg, c, a, a.lease) && FailsWith(Next(cfg, c, a).job, error)
  {
    ReasonMeans(cfg, c.job.value, w, a.retained, a.free, error);
    FinishSaves(cfg, c, a, w, error);
    LastSaveLoses(c, ScriptOf(cfg, c, a), job => FailsWith(job, error));
  }

  predicate ZipBegun(c: Cell, c': Cell, l: LeaseId, now: Millis, until: Millis) {
    && c.job.Some? && c'.job == Some(c.job.value.(leaseUntil := Some(until)))
    && c'.dir == c.dir - {ArchiveTmp(l)}
    && l in c.workers && l in c'.workers && c'.workers[l].phase.Zipping?
    && Deserves(c.job.value.rows, c'.workers[l].phase.status) && c'.workers[l].phase.completedAt == now
    && c'.workers[l] == c.workers[l].(phase := Zipping(c'.workers[l].phase.status, now, [], false, false))
  }

  lemma FinishZips(cfg: Config, c: Cell, a: Action, w: Worker)
    requires Enabled(cfg, c, a) && a.Finish? && w == c.workers[a.lease] && OwnsRow(c.job, a.lease)
    requires c.job.value.rows != map[]
    requires forall error :: !NoArchive(cfg, c.job.value, w, a.retained, a.free, error)
    ensures ZipBegun(c, Next(cfg, c, a), a.lease, a.now, a.now + cfg.leaseMs)
  {
    var j, st, until := c.job.value, FinalStatus(c.job.value), a.now + cfg.leaseMs;
    NoReason(cfg, j, w, a.retained, a.free);
    ZipParts(cfg, c, a, st, until);
    ZipCell(c, a.lease, w, st, a.now, until, Next(cfg, c, a));
  }

  lemma {:induction false} ZipStartEnds(c: Cell, l: LeaseId, until: Millis)
    ensures Play(c, ZipStartScript(c.job, l, until))
         == c.(job := Renewed(c.job, l, until), dir := c.dir - {ArchiveTmp(l)})
  {
    var c1 := Apply(c, Save(Renewed(c.job, l, until)));
    assert Play(c1, Then(Unlink({ArchiveTmp(l)}), End)) == Apply(c1, Unlink({ArchiveTmp(l)}));
  }

  lemma ZipParts(cfg: Config, c: Cell, a: Action, st: JobStatus, until: Millis)
    requires Archives(cfg, c, a, st, None) && until == a.now + cfg.leaseMs
    ensures var c' := Next(cfg, c, a);
            && c'.job == Renewed(c.job, a.lease, until) && c'.dir == c.dir - {ArchiveTmp(a.lease)}
            && c'.workers == c.workers[a.lease := Zipper(c.workers[a.lease], st, a.now)]
  {
    GoParts(cfg, c, a, st, until);
    ZipStartEnds(c, a.lease, until);
    NextFrom(cfg, c, a, ScriptOf(cfg, c, a), WorkersAfter(cfg, c, a));
  }

  lemma ZipCell(c: Cell, l: LeaseId, w: Worker, st: JobStatus, now: Millis, until: Millis, c': Cell)
    requires OwnsRow(c.job, l) && l in c.workers && w == c.workers[l] && c.job.value.rows != map[]
    requires st == FinalStatus(c.job.value)
    requires c'.job == Renewed(c.job, l, until) && c'.dir == c.dir - {ArchiveTmp(l)}
    requires c'.workers == c.workers[l := Zipper(w, st, now)]
    ensures ZipBegun(c, c', l, now, until)
  {
    DeservesFinal(c.job.value);
  }

  lemma ReasonMeans(cfg: Config, j: Job, w: Worker, retained: nat, free: int, error: Option<string>)
    requires j.rows != map[]
    ensures NoArchive(cfg, j, w, retained, free, error) <==>
              if FinalStatus(j).Failed? then error.None?
              else error.Some? && error == FinishError(cfg, w, retained, free)
  {
    var s :| s in j.rows;
  }

  lemma NoReason(cfg: Config, j: Job, w: Worker, retained: nat, free: int)
    requires j.rows != map[] && forall error :: !NoArchive(cfg, j, w, retained, free, error)
    ensures FinishError(cfg, w, retained, free).None? && !FinalStatus(j).Failed?
  {
    ReasonMeans(cfg, j, w, retained, free, None);
    ReasonMeans(cfg, j, w, retained, free, FinishError(cfg, w, retained, free));
  }
}
