// One export job together with the files in its directory and the dispatches
// that are alive on it. A step is one stretch of code without `await`; a stretch
// is a script of persistent effects in program order, so that a crash can be
// placed after any of them.
module ExportCell {
  import opened Common
  import opened MapSums
  import opened ExportRows

  // One fetch in progress: the closure variables of attemptService.
  datatype Flight = Flight(attempt: AttemptId, bytes: nat, created: bool, refused: bool)

  datatype Phase =
    | Fetching
    | Zipping(status: JobStatus, completedAt: Millis, stream: Content, created: bool, refused: bool)

  // The local state of one dispatchExportJobBatch. The runner pool is counted:
  // `ready` runners are at the head of their loop, `returned` ones have come back
  // from attemptService and not yet looked at the lease, and each flight occupies
  // one. While zipping, `stream` is what has passed the limiter. `base`, the service
  // rows as claimed, and `skipped`, the services passed over on a shutdown signal,
  // only record history.
  datatype Worker = Worker(
    defs: seq<Service>,
    next: nat,
    pool: nat,
    ready: nat,
    returned: nat,
    flights: map<Service, Flight>,
    aggregate: int,
    usage: int,
    oldPath: Option<FileName>,
    oldBytes: Option<nat>,
    phase: Phase,
    skipped: set<Service>,
    base: map<Service, ServiceRow>)

  // `leases` holds every lease id drawn so far; ids are never drawn twice.
  datatype Cell = Cell(
    job: Option<Job>,
    dir: map<FileName, Content>,
    workers: map<LeaseId, Worker>,
    leases: set<LeaseId>)

  datatype Action =
    | Claim(lease: LeaseId, now: Millis, registry: set<Service>, defs: seq<Service>, usage: nat)
    | Take(lease: LeaseId, now: Millis, attempt: AttemptId, abort: bool)
    | Return(lease: LeaseId)
    | Open(lease: LeaseId, service: Service)
    | Chunk(lease: LeaseId, service: Service, data: Content, free: int)
    | Succeed(lease: LeaseId, service: Service, now: Millis)
    | Fail(lease: LeaseId, service: Service, now: Millis, error: string)
    | Finish(lease: LeaseId, now: Millis, retained: nat, free: int)
    | ZipReserve(lease: LeaseId, data: Content, free: int)
    | ZipFlush(lease: LeaseId, data: Content)
    | ZipDone(lease: LeaseId)
    | ZipFail(lease: LeaseId, error: string)
    | Heartbeat(lease: LeaseId, until: Millis)
    | Kill(lease: LeaseId)
    | Cancel(now: Millis)
    | Retry
    | Expire(now: Millis)
    | DropOwner
    | Sweep

  // ---------------------------------------------------------------- effects and scripts

  datatype Effect =
    | Save(job: Option<Job>)               // one committed transaction
    | Put(name: FileName, data: Content)   // a write that leaves this content
    | Move(src: FileName, dst: FileName)   // renameSync
    | Unlink(names: set<FileName>)         // rmSync, file by file
    | Wipe                                 // rmSync of the whole directory

  datatype Script = End | Then(effect: Effect, rest: Script)

  function Apply(c: Cell, e: Effect): Cell {
    match e
    case Save(job) => c.(job := job)
    case Put(n, data) => c.(dir := c.dir[n := data])
    case Move(a, b) => if a in c.dir then c.(dir := (c.dir - {a})[b := c.dir[a]]) else c
    case Unlink(names) => c.(dir := c.dir - names)
    case Wipe => c.(dir := map[])
  }

  function Play(c: Cell, s: Script): Cell
    decreases s
  {
    match s
    case End => c
    case Then(e, rest) => Play(Apply(c, e), rest)
  }

  // The process dies after k effects; of a removal in progress, only the files
  // in `lost` are gone.
  function Torn(c: Cell, s: Script, k: nat, lost: set<FileName>): Cell
    decreases s
  {
    match s
    case End => c
    case Then(e, rest) =>
      if k > 0 then Torn(Apply(c, e), rest, k - 1, lost)
      else if e.Unlink? then c.(dir := c.dir - (e.names * lost))
      else if e.Wipe? then c.(dir := c.dir - lost)
      else c
  }

  // ---------------------------------------------------------------- the stretches

  predicate OwnsRow(job: Option<Job>, lease: LeaseId) {
    job.Some? && Owns(job.value, lease)
  }

  function Renewed(job: Option<Job>, lease: LeaseId, until: Millis): Option<Job> {
    if job.None? then None else Some(Renew(job.value, lease, until))
  }

  // The claim's sweep: every export-* or *.tmp file except the retained archive.
  function Swept(job: Job, dir: map<FileName, Content>): set<FileName> {
    set n | n in dir && !n.Snapshot? && job.archivePath != Some(n)
  }

  predicate IsWorkList(defs: seq<Service>, rows: map<Service, ServiceRow>, registry: set<Service>) {
    && (forall i, j :: 0 <= i < j < |defs| ==> defs[i] != defs[j])
    && (forall s :: s in defs <==> s in rows && !rows[s].status.Succeeded? && s in registry)
  }

  function FinalStatus(j: Job): JobStatus {
    if AllRows(j, RowStatus.Succeeded) then JobStatus.Completed
    else if AnyRow(j, RowStatus.Succeeded) then JobStatus.Partial
    else JobStatus.Failed
  }

  // What a batch starts from, once the row it claimed is `j`.
  ghost function NewWorker(cfg: Config, j: Job, defs: seq<Service>, usage: nat): Worker {
    var pool := Min(cfg.maxConcurrency, |defs|);
    Worker(defs, 0, pool, pool, 0, map[], SucceededBytes(j.rows), usage, j.archivePath, j.archiveBytes, Fetching, {},
        j.rows)
  }

  // The `finally` block.
  function Finally(job: Option<Job>): Script {
    if job.Some? && job.value.status.Cancelled? then Then(Wipe, End) else End
  }

  predicate QuotaAllows(cfg: Config, usage: int, size: int, free: int) {
    usage + size <= cfg.storageQuotaBytes && cfg.minFreeBytes <= free - size
  }

  predicate ReserveAllows(cfg: Config, w: Worker, f: Flight, size: nat, free: int) {
    && f.bytes + size <= cfg.maxResponseBytes
    && w.aggregate + size <= cfg.maxAggregateBytes
    && QuotaAllows(cfg, w.usage, size, free)
  }

  // Renew the lease, insert the attempt, drop a stale temporary file.
  function StartScript(cfg: Config, j: Job, l: LeaseId, s: Service, id: AttemptId, now: Millis): Script {
    var j1 := Renew(j, l, now + cfg.leaseMs);
    Then(Save(Some(j1)), Then(Save(Some(StartAttempt(j1, l, s, id, now))), Then(Unlink({SnapshotTmp(s, l)}), End)))
  }

  function Recorded(s: Service, l: LeaseId, f: Flight, data: Content): Outcome {
    Success(f.bytes, Sha256Of(data), Snapshot(s, l))
  }

  function SucceededJob(j: Job, l: LeaseId, s: Service, f: Flight, now: Millis, data: Content): Job {
    FinishAttempt(j, l, s, f.attempt, now, Recorded(s, l, f, data))
  }

  // Rename the snapshot into place, then record it.
  function SucceedScript(j: Job, l: LeaseId, s: Service, f: Flight, now: Millis, data: Content): Script {
    Then(Move(SnapshotTmp(s, l), Snapshot(s, l)), Then(Save(Some(SucceededJob(j, l, s, f, now, data))), End))
  }

  function FailedJob(job: Option<Job>, l: LeaseId, s: Service, f: Flight, now: Millis, error: string): Option<Job> {
    if job.None? then None else Some(FinishAttempt(job.value, l, s, f.attempt, now, Failure(error)))
  }

  function FailScript(job: Option<Job>, l: LeaseId, s: Service, f: Flight, now: Millis, error: string): Script {
    Then(Unlink({SnapshotTmp(s, l)}),
        Then(Unlink({Snapshot(s, l)}), Then(Save(FailedJob(job, l, s, f, now, error)), End)))
  }

  function Published(cfg: Config, job: Option<Job>, l: LeaseId, status: JobStatus, at: Millis,
                     path: Option<FileName>, bytes: Option<nat>, error: Option<string>): Option<Job> {
    if job.None? then None else Some(Publish(job.value, l, status, at, cfg.artifactTtlMs, path, bytes, error))
  }

  // The row once it names the dispatch's archive.
  function NewArchive(cfg: Config, job: Option<Job>, l: LeaseId, w: Worker, size: nat): Option<Job>
    requires w.phase.Zipping?
  {
    Published(cfg, job, l, w.phase.status, w.phase.completedAt, Some(Archive(l)), Some(size), None)
  }

  // Whichever archive lost.
  function Loser(job: Option<Job>, l: LeaseId, w: Worker): set<FileName> {
    if !OwnsRow(job, l) then {Archive(l)} else if w.oldPath.Some? then {w.oldPath.value} else {}
  }

  // Rename the archive into place, point the row at it, and only then remove the loser.
  function PublishScript(cfg: Config, job: Option<Job>, l: LeaseId, w: Worker, size: nat): Script
    requires w.phase.Zipping?
  {
    var job' := NewArchive(cfg, job, l, w, size);
    Then(Move(ArchiveTmp(l), Archive(l)), Then(Save(job'), Then(Unlink(Loser(job, l, w)), Finally(job'))))
  }

  // statSync(temporaryArchive).size, or 0 when there is no such file: the bytes the
  // catch block around the archive releases.
  function TemporaryBytes(l: LeaseId, dir: map<FileName, Content>): nat {
    if ArchiveTmp(l) in dir then |dir[ArchiveTmp(l)]| else 0
  }

  // Giving up on the archive: what was published before stays published.
  function GiveUpScript(cfg: Config, job: Option<Job>, l: LeaseId, w: Worker, at: Millis, error: string): Script {
    var status := if w.oldPath.Some? then JobStatus.Partial else JobStatus.Failed;
    var job' := Published(cfg, job, l, status, at, w.oldPath, w.oldBytes, Some(error));
    Then(Unlink({ArchiveTmp(l)}), Then(Unlink({Archive(l)}), Then(Save(job'), Finally(job'))))
  }

  // Renew the lease and clear the way for the temporary archive.
  function ZipStartScript(job: Option<Job>, l: LeaseId, until: Millis): Script {
    Then(Save(Renewed(job, l, until)), Then(Unlink({ArchiveTmp(l)}), End))
  }

  function FinishError(cfg: Config, w: Worker, retained: nat, free: int): Option<string> {
    var size := w.aggregate + ARCHIVE_OVERHEAD;
    if retained + size > cfg.maxRetainedBytes then Some("Per-user retained export artifact limit reached")
    else if w.usage + size > cfg.storageQuotaBytes then Some("Export storage quota exceeded")
    else if free - size < cfg.minFreeBytes then Some("Export storage free-space reserve reached")
    else None
  }

  predicate Enabled(cfg: Config, c: Cell, a: Action) {
    match a
    case Claim(l, now, registry, defs, _) =>
      c.job.Some? && Claimable(c.job.value, now) && l !in c.leases && IsWorkList(defs, c.job.value.rows, registry)
    case Take(l, _, _, _) => l in c.workers && c.workers[l].phase.Fetching? && c.workers[l].ready > 0
    case Return(l) => l in c.workers && c.workers[l].phase.Fetching? && c.workers[l].returned > 0
    case Open(l, s) => InFlight(c, l, s) && !c.workers[l].flights[s].created
    case Chunk(l, s, _, _) => InFlight(c, l, s) && !c.workers[l].flights[s].refused
    case Succeed(l, s, _) =>
      InFlight(c, l, s) && !c.workers[l].flights[s].refused && SnapshotTmp(s, l) in c.dir && OwnsRow(c.job, l)
    case Fail(l, s, _, _) => InFlight(c, l, s)
    case Finish(l, _, _, _) => l in c.workers && Drained(c.workers[l])
    case ZipReserve(l, _, _) => l in c.workers && c.workers[l].phase.Zipping? && !c.workers[l].phase.refused
    case ZipFlush(l, data) =>
      l in c.workers && c.workers[l].phase.Zipping?
      && (if ArchiveTmp(l) in c.dir then c.dir[ArchiveTmp(l)] else []) + data <= c.workers[l].phase.stream
    case ZipDone(l) =>
      l in c.workers && c.workers[l].phase.Zipping? && !c.workers[l].phase.refused
      && ArchiveTmp(l) in c.dir && c.dir[ArchiveTmp(l)] == c.workers[l].phase.stream
    case ZipFail(l, _) => l in c.workers && c.workers[l].phase.Zipping?
    case Heartbeat(l, _) => l in c.workers
    case Kill(l) => l in c.workers
    case Cancel(_) => c.job.Some? && Active(c.job.value)
    case Retry => c.job.Some? && RetryAccepts(c.job.value)
    case Expire(now) => c.job.Some? && Expirable(c.job.value, now)
    case DropOwner => c.job.Some?
    case Sweep => c.job.None? || c.job.value.status.Expired?
  }

  predicate InFlight(c: Cell, l: LeaseId, s: Service) {
    l in c.workers && c.workers[l].phase.Fetching? && s in c.workers[l].flights
  }

  // Promise.all(runners) has resolved.
  predicate Drained(w: Worker) { w.phase.Fetching? && Idle(w) }

  // No runner is left.
  predicate Idle(w: Worker) { w.ready == 0 && w.returned == 0 && w.flights == map[] }

  // What the stretch does to the rows and the files.
  function ScriptOf(cfg: Config, c: Cell, a: Action): Script
    requires Enabled(cfg, c, a)
  {
    match a
    case Claim(l, now, _, _, _) =>
      Then(Save(Some(ClaimJob(c.job.value, l, now, cfg.leaseMs))), Then(Unlink(Swept(c.job.value, c.dir)), End))
    case Take(l, now, id, abort) =>
      var w := c.workers[l];
      if w.next == |w.defs| || abort || !OwnsRow(c.job, l) || w.next > |w.defs| then End
      else
        var s := w.defs[w.next];
        if CanStart(c.job.value, l, s) then StartScript(cfg, c.job.value, l, s, id, now)
        else Then(Save(Renewed(c.job, l, now + cfg.leaseMs)), End)
    case Return(l) => End
    case Open(l, s) => Then(Put(SnapshotTmp(s, l), []), End)
    case Chunk(l, s, data, free) =>
      var w := c.workers[l];
      var f := w.flights[s];
      var tmp := SnapshotTmp(s, l);
      if !ReserveAllows(cfg, w, f, |data|, free) then End
      else if !f.created then Then(Put(tmp, data), End)
      else if tmp in c.dir then Then(Put(tmp, c.dir[tmp] + data), End)
      else End
    case Succeed(l, s, now) =>
      SucceedScript(c.job.value, l, s, c.workers[l].flights[s], now, c.dir[SnapshotTmp(s, l)])
    case Fail(l, s, now, error) => FailScript(c.job, l, s, c.workers[l].flights[s], now, error)
    case Finish(l, now, retained, free) =>
      var w := c.workers[l];
      if !OwnsRow(c.job, l) then Finally(c.job)
      else if FinalStatus(c.job.value).Failed? then
        Then(Save(Published(cfg, c.job, l, JobStatus.Failed, now, w.oldPath, w.oldBytes, None)), End)
      else (
        var e := FinishError(cfg, w, retained, free);
        if e.Some? then GiveUpScript(cfg, c.job, l, w, now, e.value)
        else ZipStartScript(c.job, l, now + cfg.leaseMs))
    case ZipReserve(l, _, _) => End
    case ZipFlush(l, data) =>
      if !c.workers[l].phase.created then Then(Put(ArchiveTmp(l), data), End)
      else if ArchiveTmp(l) in c.dir then Then(Put(ArchiveTmp(l), c.dir[ArchiveTmp(l)] + data), End)
      else End
    case ZipDone(l) => PublishScript(cfg, c.job, l, c.workers[l], |c.dir[ArchiveTmp(l)]|)
    case ZipFail(l, error) => GiveUpScript(cfg, c.job, l, c.workers[l], c.workers[l].phase.completedAt, error)
    case Heartbeat(l, until) => Then(Save(Renewed(c.job, l, until)), End)
    case Kill(l) => End
    case Cancel(now) =>
      Then(Save(Some(CancelJob(c.job.value, now, cfg.artifactTtlMs))),
           if c.job.value.status.Queued? then Then(Wipe, End) else End)
    case Retry => Then(Save(Some(RetryJob(c.job.value))), End)
    case Expire(now) => Then(Save(Some(ExpireJob(c.job.value, now))), End)
    case DropOwner => Then(Save(None), End)
    case Sweep => Then(Wipe, End)
  }

  // A runner takes the next service and its attempt is now in flight.
  function Launched(w: Worker, id: AttemptId): Worker
    requires w.next < |w.defs| && w.ready > 0
  {
    w.(ready := w.ready - 1, next := w.next + 1,
       flights := w.flights[w.defs[w.next] := Flight(id, 0, false, false)])
  }

  // A runner takes the next service and attemptService returns without starting it.
  function Skipped(w: Worker, abort: bool): Worker
    requires w.ready > 0
  {
    w.(ready := w.ready - 1, next := w.next + 1, returned := w.returned + 1,
       skipped := if abort && w.next < |w.defs| then w.skipped + {w.defs[w.next]} else w.skipped)
  }

  // Back at the head of the loop, or out of it when the lease is gone.
  function Returned(w: Worker, owned: bool): Worker
    requires w.returned > 0
  {
    w.(returned := w.returned - 1, ready := if owned then w.ready + 1 else w.ready)
  }

  function WithFlight(w: Worker, s: Service, f: Flight, size: nat): Worker {
    w.(flights := w.flights[s := f], aggregate := w.aggregate + size, usage := w.usage + size)
  }

  function Landed(w: Worker, s: Service): Worker {
    w.(flights := w.flights - {s}, returned := w.returned + 1)
  }

  // releaseBudget and storage.release
  function Crashed(w: Worker, s: Service): Worker
    requires s in w.flights
  {
    Landed(w, s).(aggregate := w.aggregate - w.flights[s].bytes, usage := Max(0, w.usage - w.flights[s].bytes))
  }

  function Zipper(w: Worker, status: JobStatus, now: Millis): Worker {
    w.(phase := Zipping(status, now, [], false, false))
  }

  function WithZip(w: Worker, data: Content, created: bool, refused: bool): Worker
    requires w.phase.Zipping?
  {
    w.(usage := w.usage + |data|,
       phase := w.phase.(stream := w.phase.stream + data, created := created, refused := refused))
  }

  // What the stretch does to the acting dispatch; None when it has returned.
  ghost function WorkerAfter(cfg: Config, c: Cell, a: Action): Option<Worker>
    requires Enabled(cfg, c, a) && HasLease(a)
  {
    match a
    case Claim(_, _, _, defs, usage) =>
        Some(NewWorker(cfg, ClaimJob(c.job.value, a.lease, a.now, cfg.leaseMs), defs, usage))
    case Take(l, now, id, abort) =>
      var w := c.workers[l];
      if w.next >= |w.defs| then Some(w.(ready := w.ready - 1))
      else if abort || c.job.None? || !CanStart(c.job.value, l, w.defs[w.next]) then Some(Skipped(w, abort))
      else Some(Launched(w, id))
    case Return(l) => Some(Returned(c.workers[l], OwnsRow(c.job, l)))
    case Open(l, s) =>
      var w := c.workers[l];
      Some(WithFlight(w, s, w.flights[s].(created := true), 0))
    case Chunk(l, s, data, free) =>
      var w := c.workers[l];
      var f := w.flights[s];
      if ReserveAllows(cfg, w, f, |data|, free)
      then Some(WithFlight(w, s, f.(bytes := f.bytes + |data|, created := true), |data|))
      else Some(WithFlight(w, s, f.(refused := true), 0))
    case Succeed(l, s, _) => Some(Landed(c.workers[l], s))
    case Fail(l, s, _, _) => Some(Crashed(c.workers[l], s))
    case Finish(l, now, retained, free) =>
      var w := c.workers[l];
      if !OwnsRow(c.job, l) || FinalStatus(c.job.value).Failed? || FinishError(cfg, w, retained, free).Some? then None
      else Some(Zipper(w, FinalStatus(c.job.value), now))
    case ZipReserve(l, data, free) =>
      var w := c.workers[l];
      if QuotaAllows(cfg, w.usage, |data|, free)
      then Some(WithZip(w, data, w.phase.created, w.phase.refused))
      else Some(WithZip(w, [], w.phase.created, true))
    case ZipFlush(l, _) => Some(WithZip(c.workers[l], [], true, c.workers[l].phase.refused))
    case ZipDone(_) => None
    case ZipFail(_, _) => None
    case Heartbeat(l, _) => Some(c.workers[l])
    case Kill(_) => None
  }

  predicate HasLease(a: Action) {
    !(a.Cancel? || a.Retry? || a.Expire? || a.DropOwner? || a.Sweep?)
  }

  function WithLease(c: Cell, a: Action): Cell {
    if a.Claim? then c.(leases := c.leases + {a.lease}) else c
  }

  ghost function WorkersAfter(cfg: Config, c: Cell, a: Action): map<LeaseId, Worker>
    requires Enabled(cfg, c, a)
  {
    if !HasLease(a) then c.workers
    else
      var w := WorkerAfter(cfg, c, a);
      if w.None? then c.workers - {a.lease} else c.workers[a.lease := w.value]
  }

  // One stretch, run to its end. An action that is not enabled changes nothing.
  ghost function Next(cfg: Config, c: Cell, a: Action): Cell {
    if Enabled(cfg, c, a)
    then Play(WithLease(c, a), ScriptOf(cfg, c, a)).(workers := WorkersAfter(cfg, c, a))
    else c
  }

  // The process dies inside the stretch: every dispatch dies with it.
  function Crash(cfg: Config, c: Cell, a: Action, k: nat, lost: set<FileName>): Cell {
    if Enabled(cfg, c, a)
    then Torn(WithLease(c, a), ScriptOf(cfg, c, a), k, lost).(workers := map[])
    else c.(workers := map[])
  }
}
