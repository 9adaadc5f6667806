// What ties a live dispatch's local variables to the rows and files, and why
// the steps of one dispatch never disturb another.
module ExportLive {
  import opened Common
  import opened MapSums
  import opened ExportRows
  import opened ExportCell
  import opened ExportDurable

  function FlightSizes(flights: map<Service, Flight>): map<Service, int> {
    map s | s in flights :: flights[s].bytes
  }

  ghost function FlightBytes(flights: map<Service, Flight>): int { Sum(FlightSizes(flights)) }

  function Reserved(w: Worker): nat {
    if w.phase.Zipping? then |w.phase.stream| else 0
  }

  predicate PoolOk(cfg: Config, w: Worker) {
    && w.next <= |w.defs|
    && (forall i, j :: 0 <= i < j < |w.defs| ==> w.defs[i] != w.defs[j])
    && w.pool == Min(cfg.maxConcurrency, |w.defs|)
    && w.ready + w.returned + |w.flights| <= w.pool
    && (forall i :: w.next <= i < |w.defs| ==> w.defs[i] !in w.flights && w.defs[i] !in w.skipped)
    && (forall s :: s in w.skipped || s in w.flights ==> s in w.defs)
    && (w.phase.Zipping? ==> w.ready == 0 && w.returned == 0 && w.flights == map[] && !w.phase.status.Failed?)
  }

  predicate FlightOk(cfg: Config, l: LeaseId, s: Service, f: Flight, dir: map<FileName, Content>) {
    && f.bytes <= cfg.maxResponseBytes
    && (!f.created ==> f.bytes == 0)
    && (SnapshotTmp(s, l) in dir ==> f.created && |dir[SnapshotTmp(s, l)]| == f.bytes)
  }

  predicate FilesOk(cfg: Config, l: LeaseId, w: Worker, dir: map<FileName, Content>) {
    && (forall s :: s in w.flights ==> FlightOk(cfg, l, s, w.flights[s], dir))
    && (ArchiveTmp(l) in dir ==> w.phase.Zipping? && w.phase.created && dir[ArchiveTmp(l)] <= w.phase.stream)
  }

  ghost predicate UsageOk(w: Worker) {
    FlightBytes(w.flights) + Reserved(w) <= w.usage
  }

  // The files a dispatch may still remove on failure are not recorded anywhere.
  predicate Unrecorded(l: LeaseId, s: Service, j: Job) {
    s in j.rows ==> j.rows[s].snapshot != Some(Snapshot(s, l))
  }

  predicate UnrecordedOk(l: LeaseId, w: Worker, j: Job) {
    && j.archivePath != Some(Archive(l))
    && (forall s :: s in w.flights ==> Unrecorded(l, s, j))
    && (forall i :: w.next <= i < |w.defs| ==> Unrecorded(l, w.defs[i], j))
  }

  // The flight of a service and its newest attempt are the same attempt.
  predicate Flying(s: Service, f: Flight, j: Job) {
    && s in j.rows && j.rows[s].status.Running?
    && |j.rows[s].ledger| > 0 && Newest(j.rows[s]).id == f.attempt
  }

  // Unfinished and as it was claimed.
  predicate Fresh(s: Service, w: Worker, j: Job) {
    && s in j.rows && s in w.base && j.rows[s] == w.base[s]
    && !j.rows[s].status.Succeeded? && !j.rows[s].status.Running?
  }

  // Attempted exactly once since the claim, and either in flight or settled.
  predicate Tried(s: Service, w: Worker, j: Job) {
    && s in j.rows && s in w.base
    && j.rows[s].attempts == w.base[s].attempts + 1
    && (j.rows[s].status.Running? || j.rows[s].status.Succeeded? || j.rows[s].status.Failed?)
  }

  // A listed service that a runner has taken.
  predicate Passed(s: Service, w: Worker, j: Job) { if s in w.skipped then Fresh(s, w, j) else Tried(s, w, j) }

  // A service off the work list keeps the row it was claimed with.
  predicate Aside(s: Service, w: Worker, j: Job) { s in j.rows && s in w.base && j.rows[s] == w.base[s] }

  predicate Progress(w: Worker, j: Job) {
    && (w.ready + w.returned + |w.flights| < w.pool ==> w.next == |w.defs|)
    && (forall i :: w.next <= i < |w.defs| ==> Fresh(w.defs[i], w, j))
    && (forall i :: 0 <= i < w.next && i < |w.defs| ==> Passed(w.defs[i], w, j))
    && (forall s :: s in j.rows && s !in w.defs ==> Aside(s, w, j))
    && (w.phase.Zipping? ==> w.phase.status == FinalStatus(j))
  }

  // Progress speaks of the work list and the rows only.
  lemma SameProgress(w: Worker, w': Worker, j: Job)
    requires Progress(w, j)
    requires w'.defs == w.defs && w'.next == w.next && w'.base == w.base && w'.skipped == w.skipped
    requires w'.ready + w'.returned + |w'.flights| < w'.pool ==> w'.next == |w'.defs|
    requires w'.phase.Zipping? ==> w'.phase.status == FinalStatus(j)
    ensures Progress(w', j)
  {
  }

  // What holds while the dispatch owns the lease.
  ghost predicate Held(cfg: Config, w: Worker, j: Job) {
    && j.archivePath == w.oldPath && j.archiveBytes == w.oldBytes
    && (forall s :: s in w.flights ==> Flying(s, w.flights[s], j))
    && (forall s :: s in j.rows && j.rows[s].status.Running? ==> s in w.flights)
    && w.aggregate == SucceededBytes(j.rows) + FlightBytes(w.flights)
    && w.aggregate <= cfg.maxAggregateBytes
    && Progress(w, j)
  }

  ghost predicate WorkerOk(cfg: Config, l: LeaseId, w: Worker, job: Option<Job>, dir: map<FileName, Content>) {
    && PoolOk(cfg, w)
    && FilesOk(cfg, l, w, dir)
    && UsageOk(w)
    && (job.Some? ==> UnrecordedOk(l, w, job.value))
    && (OwnsRow(job, l) ==> Held(cfg, w, job.value))
  }

  ghost predicate CellOk(cfg: Config, c: Cell) {
    && Durable(cfg, c)
    && (forall l :: l in c.workers ==> l in c.leases && WorkerOk(cfg, l, c.workers[l], c.job, c.dir))
  }

  // ---------------------------------------------------------------- frames

  // Files under other leases are kept or removed, never written.
  predicate DirFrame(mine: set<LeaseId>, dir: map<FileName, Content>, dir': map<FileName, Content>) {
    forall n :: n in dir' && n.lease !in mine ==> n in dir && dir'[n] == dir[n]
  }

  predicate RowFrame(mine: set<LeaseId>, row: ServiceRow, row': ServiceRow) {
    row'.snapshot.Some? && row'.snapshot != row.snapshot ==> row'.snapshot.value.lease in mine
  }

  // The row changes only by a transaction that leaves no other dispatch its owner
  // and records no other dispatch's file.
  predicate JobFrame(mine: set<LeaseId>, job: Option<Job>, job': Option<Job>) {
    || job' == job
    || job'.None?
    || (&& job.Some?
        && (job'.value.leaseId.Some? ==> job'.value.leaseId.value in mine)
        && (job'.value.archivePath.Some? && job'.value.archivePath != job.value.archivePath ==>
              job'.value.archivePath.value.lease in mine)
        && (forall s :: s in job'.value.rows ==>
              s in job.value.rows && RowFrame(mine, job.value.rows[s], job'.value.rows[s])))
  }

  lemma WorkersFrame(cfg: Config, c: Cell, c': Cell, mine: set<LeaseId>)
    requires CellOk(cfg, c) && Durable(cfg, c') && c.leases <= c'.leases
    requires forall l :: l in c'.workers && l !in mine ==> l in c.workers && c'.workers[l] == c.workers[l]
    requires forall l :: l in c'.workers && l in mine ==>
               l in c'.leases && WorkerOk(cfg, l, c'.workers[l], c'.job, c'.dir)
    requires DirFrame(mine, c.dir, c'.dir) && JobFrame(mine, c.job, c'.job)
    ensures CellOk(cfg, c')
  {
    forall l | l in c'.workers && l !in mine
      ensures l in c'.leases && WorkerOk(cfg, l, c'.workers[l], c'.job, c'.dir)
    {
      OtherWorker(cfg, l, c.workers[l], c, c', mine);
    }
  }

  // The acting dispatch goes on.
  lemma ActorSteps(cfg: Config, c: Cell, l: LeaseId, w': Worker, job': Option<Job>, dir': map<FileName, Content>)
    requires CellOk(cfg, c) && l in c.leases
    requires Durable(cfg, c.(job := job', dir := dir')) && WorkerOk(cfg, l, w', job', dir')
    requires DirFrame({l}, c.dir, dir') && JobFrame({l}, c.job, job')
    ensures CellOk(cfg, Cell(job', dir', c.workers[l := w'], c.leases))
  {
    WorkersFrame(cfg, c, Cell(job', dir', c.workers[l := w'], c.leases), {l});
  }

  // The acting dispatch returns.
  lemma ActorLeaves(cfg: Config, c: Cell, l: LeaseId, job': Option<Job>, dir': map<FileName, Content>)
    requires CellOk(cfg, c)
    requires Durable(cfg, c.(job := job', dir := dir'))
    requires DirFrame({l}, c.dir, dir') && JobFrame({l}, c.job, job')
    ensures CellOk(cfg, Cell(job', dir', c.workers - {l}, c.leases))
  {
    WorkersFrame(cfg, c, Cell(job', dir', c.workers - {l}, c.leases), {l});
  }

  lemma OtherWorker(cfg: Config, l: LeaseId, w: Worker, c: Cell, c': Cell, mine: set<LeaseId>)
    requires WorkerOk(cfg, l, w, c.job, c.dir) && l !in mine
    requires DirFrame(mine, c.dir, c'.dir) && JobFrame(mine, c.job, c'.job)
    ensures WorkerOk(cfg, l, w, c'.job, c'.dir)
  {
  }

  // ---------------------------------------------------------------- sums over flights

  lemma FlightSet(flights: map<Service, Flight>, s: Service, f: Flight)
    ensures FlightBytes(flights[s := f]) ==
            FlightBytes(flights) - (if s in flights then flights[s].bytes else 0) + f.bytes
  {
    var m := FlightSizes(flights);
    assert FlightSizes(flights[s := f]) == m[s := f.bytes];
    if s in flights { SumUpdate(m, s, f.bytes); } else { SumInsert(m, s, f.bytes); }
  }

  lemma FlightRemove(flights: map<Service, Flight>, s: Service)
    requires s in flights
    ensures FlightBytes(flights - {s}) == FlightBytes(flights) - flights[s].bytes
    ensures 0 <= FlightBytes(flights - {s})
    ensures |flights - {s}| == |flights| - 1
  {
    var m := FlightSizes(flights);
    var rest := flights - {s};
    assert FlightSizes(rest) == m - {s};
    SumRemove(m, s);
    SumNonNegative(m - {s});
    assert flights.Keys == rest.Keys + {s};
    assert |flights| == |flights.Keys| && |rest| == |rest.Keys|;
  }

  lemma FlightNone()
    ensures FlightBytes(map[]) == 0
  {
  }

  lemma FlightsNonNegative(flights: map<Service, Flight>)
    ensures 0 <= FlightBytes(flights)
  {
    SumNonNegative(FlightSizes(flights));
  }
}
