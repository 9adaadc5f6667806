// One export job as the database stores it: its `export_jobs` row, its
// `export_job_services` rows and, under each service, its attempt ledger.
// Every function is one committed transaction of the worker or of a route.
module ExportRows {
  import opened Common
  import opened MapSums

  type UserId = nat
  type JobId = nat
  type LeaseId = nat
  type AttemptId = nat
  type Content = seq<bv8>

  // SHA-256 is modelled as an injective digest.
  datatype Sha256 = Sha256Of(content: Content)

  datatype Service = Schlussel | Kuvert | Tafel | Zettel | Glocke | Schrank | Herold

  // The files a dispatch puts in its job's directory all carry its lease id.
  datatype FileName =
    | SnapshotTmp(service: Service, lease: LeaseId)  // <service>.<lease>.tmp
    | Snapshot(service: Service, lease: LeaseId)     // <service>.<lease>.json
    | ArchiveTmp(lease: LeaseId)                     // export-<lease>.zip.tmp
    | Archive(lease: LeaseId)                        // export-<lease>.zip

  datatype Config = Config(
    maxConcurrency: nat,
    leaseMs: nat,
    artifactTtlMs: nat,
    maxResponseBytes: nat,
    maxAggregateBytes: nat,
    storageQuotaBytes: nat,
    minFreeBytes: nat,
    maxRetainedBytes: nat,
    cooldownMs: nat,
    maxRetainedJobs: nat)
  {
    // What loadExportConfig and dispatchExportJobBatch check before any work.
    predicate Valid() {
      && 0 < maxConcurrency && 0 < leaseMs && 0 < artifactTtlMs
      && 0 < maxResponseBytes <= maxAggregateBytes <= maxRetainedBytes
      && 2 * maxAggregateBytes <= storageQuotaBytes
      && 0 < minFreeBytes && 0 < maxRetainedJobs
    }
  }

  const ARCHIVE_OVERHEAD: nat := 1024 * 1024
  const INTERRUPTED := "Worker interrupted before completion"
  const CANCELLED := "Export job was cancelled"

  datatype JobStatus = Queued | Running | Completed | Partial | Failed | Cancelled | Expired
  datatype RowStatus = Pending | Running | Succeeded | Failed | Cancelled
  datatype AttemptStatus = Running | Succeeded | Failed | Cancelled

  datatype Attempt = Attempt(
    id: AttemptId,
    number: nat,
    status: AttemptStatus,
    startedAt: Millis,
    completedAt: Option<Millis>,
    bytes: Option<nat>,
    sha: Option<Sha256>,
    error: Option<string>)

  datatype ServiceRow = ServiceRow(
    status: RowStatus,
    attempts: nat,
    bytes: Option<nat>,
    sha: Option<Sha256>,
    snapshot: Option<FileName>,
    lastError: Option<string>,
    startedAt: Option<Millis>,
    completedAt: Option<Millis>,
    ledger: seq<Attempt>)

  datatype Job = Job(
    owner: UserId,
    status: JobStatus,
    createdAt: Millis,
    startedAt: Option<Millis>,
    completedAt: Option<Millis>,
    expiresAt: Option<Millis>,
    archivePath: Option<FileName>,
    archiveBytes: Option<nat>,
    lastError: Option<string>,
    leaseId: Option<LeaseId>,
    leaseUntil: Option<Millis>,
    rows: map<Service, ServiceRow>)

  datatype Outcome =
    | Success(bytes: nat, sha: Sha256, snapshot: FileName)
    | Failure(error: string)

  // ---------------------------------------------------------------- transactions

  const NEW_ROW := ServiceRow(RowStatus.Pending, 0, None, None, None, None, None, None, [])

  // createOrGetActiveJob's INSERTs.
  function NewJob(owner: UserId, now: Millis, services: set<Service>): Job {
    Job(owner, JobStatus.Queued, now, None, None, None, None, None, None, None, None,
        map s | s in services :: NEW_ROW)
  }

  // UPDATE export_job_service_attempts SET status, completed_at, error WHERE status = 'running'
  function CloseAttempts(ledger: seq<Attempt>, status: AttemptStatus, now: Millis, error: string): seq<Attempt> {
    seq(|ledger|, i requires 0 <= i < |ledger| =>
      if ledger[i].status.Running?
      then ledger[i].(status := status, completedAt := Some(now), error := Some(error))
      else ledger[i])
  }

  function InterruptRow(row: ServiceRow, now: Millis): ServiceRow {
    var closed := row.(ledger := CloseAttempts(row.ledger, AttemptStatus.Failed, now, INTERRUPTED));
    if row.status.Running? then closed.(status := RowStatus.Pending, lastError := Some(INTERRUPTED)) else closed
  }

  predicate Claimable(j: Job, now: Millis) {
    || j.status.Queued?
    || (j.status.Running? && (j.leaseUntil.None? || j.leaseUntil.value <= now))
  }

  // claimNextJob, for the row it selected.
  function ClaimJob(j: Job, lease: LeaseId, now: Millis, leaseMs: nat): Job {
    j.(status := JobStatus.Running,
       startedAt := if j.startedAt.None? then Some(now) else j.startedAt,
       leaseId := Some(lease), leaseUntil := Some(now + leaseMs),
       completedAt := None, expiresAt := None, lastError := None,
       rows := if j.status.Running? then map s | s in j.rows :: InterruptRow(j.rows[s], now) else j.rows)
  }

  predicate Owns(j: Job, lease: LeaseId) {
    j.status.Running? && j.leaseId == Some(lease)
  }

  function Renew(j: Job, lease: LeaseId, until: Millis): Job {
    if Owns(j, lease) then j.(leaseUntil := Some(until)) else j
  }

  predicate CanStart(j: Job, lease: LeaseId, s: Service) {
    Owns(j, lease) && s in j.rows && !j.rows[s].status.Succeeded?
  }

  function StartedRow(row: ServiceRow, id: AttemptId, now: Millis): ServiceRow {
    var number := row.attempts + 1;
    ServiceRow(RowStatus.Running, number, None, None, None, None, Some(now), None,
               row.ledger + [Attempt(id, number, AttemptStatus.Running, now, None, None, None, None)])
  }

  function StartAttempt(j: Job, lease: LeaseId, s: Service, id: AttemptId, now: Millis): Job {
    if CanStart(j, lease, s) then j.(rows := j.rows[s := StartedRow(j.rows[s], id, now)]) else j
  }

  function FinishLedger(ledger: seq<Attempt>, id: AttemptId, now: Millis, o: Outcome): seq<Attempt> {
    seq(|ledger|, i requires 0 <= i < |ledger| =>
      if ledger[i].id == id && ledger[i].status.Running? then
        match o
        case Success(bytes, sha, _) =>
          ledger[i].(status := AttemptStatus.Succeeded, completedAt := Some(now), bytes := Some(bytes),
                     sha := Some(sha))
        case Failure(error) =>
          ledger[i].(status := AttemptStatus.Failed, completedAt := Some(now), error := Some(error))
      else ledger[i])
  }

  function FinishedRow(row: ServiceRow, id: AttemptId, now: Millis, o: Outcome): ServiceRow {
    var r := row.(ledger := FinishLedger(row.ledger, id, now, o));
    if !row.status.Running? then r
    else match o
      case Success(bytes, sha, snapshot) =>
        r.(status := RowStatus.Succeeded, bytes := Some(bytes), sha := Some(sha), snapshot := Some(snapshot),
           lastError := None, completedAt := Some(now))
      case Failure(error) =>
        r.(status := RowStatus.Failed, bytes := None, sha := None, snapshot := None,
           lastError := Some(error), completedAt := Some(now))
  }

  function FinishAttempt(j: Job, lease: LeaseId, s: Service, id: AttemptId, now: Millis, o: Outcome): Job {
    if Owns(j, lease) && s in j.rows then j.(rows := j.rows[s := FinishedRow(j.rows[s], id, now, o)]) else j
  }

  // The fenced UPDATE that publishes a dispatch's result.
  function Publish(j: Job, lease: LeaseId, status: JobStatus, now: Millis, ttl: nat,
                   path: Option<FileName>, bytes: Option<nat>, error: Option<string>): Job {
    if Owns(j, lease)
    then j.(status := status, completedAt := Some(now), expiresAt := Some(now + ttl), archivePath := path,
            archiveBytes := bytes, lastError := error, leaseId := None, leaseUntil := None)
    else j
  }

  predicate Active(j: Job) { j.status.Queued? || j.status.Running? }

  function CancelRow(row: ServiceRow, now: Millis): ServiceRow {
    var closed := row.(ledger := CloseAttempts(row.ledger, AttemptStatus.Cancelled, now, CANCELLED));
    if row.status.Pending? || row.status.Running?
    then closed.(status := RowStatus.Cancelled, completedAt := Some(now)) else closed
  }

  function CancelJob(j: Job, now: Millis, ttl: nat): Job {
    if Active(j)
    then j.(status := JobStatus.Cancelled, completedAt := Some(now), expiresAt := Some(now + ttl),
            archivePath := None, archiveBytes := None, leaseId := None, leaseUntil := None,
            rows := map s | s in j.rows :: CancelRow(j.rows[s], now))
    else j
  }

  predicate AnyRow(j: Job, st: RowStatus) { exists s :: s in j.rows && j.rows[s].status == st }

  // The check POST /export-jobs/:id/retry makes on the job itself.
  predicate RetryAccepts(j: Job) {
    && (j.status.Partial? || j.status.Failed?)
    && (AnyRow(j, RowStatus.Failed) || j.lastError.Some?)
  }

  function RetryRow(row: ServiceRow): ServiceRow {
    if row.status.Failed?
    then row.(status := RowStatus.Pending, bytes := None, sha := None, lastError := None, snapshot := None,
              startedAt := None, completedAt := None)
    else row
  }

  function RetryJob(j: Job): Job {
    if RetryAccepts(j)
    then j.(status := JobStatus.Queued, completedAt := None, expiresAt := None, lastError := None,
            leaseId := None, leaseUntil := None,
            rows := map s | s in j.rows :: RetryRow(j.rows[s]))
    else j
  }

  predicate Expirable(j: Job, now: Millis) {
    j.expiresAt.Some? && j.expiresAt.value <= now && !j.status.Expired?
  }

  function ExpireJob(j: Job, now: Millis): Job {
    if Expirable(j, now)
    then j.(status := JobStatus.Expired, archivePath := None, archiveBytes := None, leaseId := None, leaseUntil := None)
    else j
  }

  // ---------------------------------------------------------------- what the rows promise

  // An attempt ends exactly when it is closed, with an error unless it succeeded.
  predicate AttemptOk(a: Attempt) {
    && (a.status.Running? <==> a.completedAt.None?)
    && (a.status.Failed? || a.status.Cancelled? <==> a.error.Some?)
    && (a.status.Succeeded? <==> a.bytes.Some?) && (a.status.Succeeded? <==> a.sha.Some?)
  }

  predicate LedgerOk(row: ServiceRow) {
    && row.attempts == |row.ledger|
    && (forall i :: 0 <= i < |row.ledger| ==> row.ledger[i].number == i + 1 && AttemptOk(row.ledger[i]))
    && (forall i :: 0 <= i < |row.ledger| - 1 ==> !row.ledger[i].status.Running?)
    && (row.status.Running? <==> |row.ledger| > 0 && Newest(row).status.Running?)
    && (row.status.Succeeded? ==>
          && row.bytes.Some? && row.sha.Some? && row.snapshot.Some?
          && |row.ledger| > 0
          && Newest(row).status.Succeeded? && Newest(row).bytes == row.bytes && Newest(row).sha == row.sha)
    && (!row.status.Succeeded? ==> row.bytes.None? && row.sha.None? && row.snapshot.None?)
  }

  function Newest(row: ServiceRow): Attempt
    requires |row.ledger| > 0
  {
    row.ledger[|row.ledger| - 1]
  }

  predicate AllRows(j: Job, st: RowStatus) { forall s :: s in j.rows ==> j.rows[s].status == st }

  predicate Settled(j: Job) { j.status.Completed? || j.status.Partial? || j.status.Failed? }

  predicate StatusOk(j: Job) {
    && (Active(j) <==> j.expiresAt.None?)
    && (Active(j) <==> j.completedAt.None?)
    && (j.status.Running? <==> j.leaseId.Some?)
    && (j.leaseId.Some? <==> j.leaseUntil.Some?)
    && (j.archivePath.Some? <==> j.archiveBytes.Some?)
    && (j.status.Completed? ==> AllRows(j, RowStatus.Succeeded) && j.archivePath.Some?)
    && (j.status.Partial? ==> j.archivePath.Some?)
    && (j.status.Failed? || j.status.Cancelled? || j.status.Expired? ==> j.archivePath.None?)
    && (j.archivePath.Some? ==> AnyRow(j, RowStatus.Succeeded))
  }

  predicate RowOk(row: ServiceRow, st: JobStatus) {
    && LedgerOk(row)
    && (row.status.Running? ==> st.Running?)
    && (row.status.Cancelled? ==> st.Cancelled? || st.Expired?)
  }

  predicate RowsOk(j: Job) {
    && j.rows != map[]
    && (forall s :: s in j.rows ==> RowOk(j.rows[s], j.status))
  }

  predicate JobOk(j: Job) { RowsOk(j) && StatusOk(j) }

  // SELECT COALESCE(SUM(bytes), 0) ... WHERE status = 'succeeded'
  function RowBytes(row: ServiceRow): nat {
    if row.status.Succeeded? && row.bytes.Some? then row.bytes.value else 0
  }

  ghost function SucceededBytes(rows: map<Service, ServiceRow>): int {
    Sum(map s | s in rows :: RowBytes(rows[s]))
  }

  // ---------------------------------------------------------------- every transaction keeps it

  lemma CloseAttemptsShape(row: ServiceRow, status: AttemptStatus, now: Millis, error: string)
    requires LedgerOk(row) && !status.Running?
    ensures var l := CloseAttempts(row.ledger, status, now, error);
            && |l| == |row.ledger|
            && (forall i :: 0 <= i < |l| ==> l[i].number == i + 1 && !l[i].status.Running?)
            && (!row.status.Running? ==> l == row.ledger)
  {
  }

  lemma NewJobOk(owner: UserId, now: Millis, services: set<Service>)
    requires Schlussel in services
    ensures JobOk(NewJob(owner, now, services))
  {
    var j := NewJob(owner, now, services);
    assert Schlussel in j.rows;
  }

  lemma InterruptRowOk(row: ServiceRow, now: Millis)
    requires LedgerOk(row)
    ensures LedgerOk(InterruptRow(row, now))
    ensures !InterruptRow(row, now).status.Running?
    ensures !row.status.Running? ==> InterruptRow(row, now) == row
    ensures InterruptRow(row, now).attempts == row.attempts
    ensures row.status.Running? ==> InterruptRow(row, now).status.Pending?
  {
  }

  lemma SameBytes(a: map<Service, ServiceRow>, b: map<Service, ServiceRow>)
    requires a.Keys == b.Keys
    requires forall s :: s in a ==> RowBytes(a[s]) == RowBytes(b[s])
    ensures SucceededBytes(a) == SucceededBytes(b)
  {
    assert (map s | s in a :: RowBytes(a[s])) == (map s | s in b :: RowBytes(b[s]));
  }

  lemma BytesUpdate(rows: map<Service, ServiceRow>, s: Service, row: ServiceRow)
    requires s in rows
    ensures SucceededBytes(rows[s := row]) == SucceededBytes(rows) - RowBytes(rows[s]) + RowBytes(row)
  {
    var m: map<Service, int> := map t | t in rows :: RowBytes(rows[t]);
    var rows' := rows[s := row];
    assert (map t | t in rows' :: RowBytes(rows'[t])) == m[s := RowBytes(row)];
    SumUpdate(m, s, RowBytes(row));
  }

  // A job keeps its evidence that something succeeded.
  lemma KeepsSucceeded(j: Job, j': Job)
    requires forall s :: s in j.rows && j.rows[s].status.Succeeded? ==> s in j'.rows && j'.rows[s].status.Succeeded?
    ensures AnyRow(j, RowStatus.Succeeded) ==> AnyRow(j', RowStatus.Succeeded)
  {
  }

  lemma ClaimRows(j: Job, lease: LeaseId, now: Millis, leaseMs: nat)
    requires JobOk(j) && Claimable(j, now)
    ensures var j' := ClaimJob(j, lease, now, leaseMs);
            && j'.rows.Keys == j.rows.Keys
            && (forall s :: s in j.rows ==> LedgerOk(j'.rows[s]) && !j'.rows[s].status.Running?)
            && (forall s :: s in j.rows ==> RowBytes(j'.rows[s]) == RowBytes(j.rows[s]))
            && (forall s :: s in j.rows ==> j'.rows[s].attempts == j.rows[s].attempts)
            && (forall s :: s in j.rows && !j.rows[s].status.Running? ==> j'.rows[s] == j.rows[s])
            && (forall s :: s in j.rows && j.rows[s].status.Running? ==> j'.rows[s].status.Pending?)
  {
    forall s | s in j.rows {
      InterruptRowOk(j.rows[s], now);
    }
  }

  lemma ClaimRowsOk(j: Job, lease: LeaseId, now: Millis, leaseMs: nat)
    requires JobOk(j) && Claimable(j, now)
    ensures RowsOk(ClaimJob(j, lease, now, leaseMs))
  {
    ClaimRows(j, lease, now, leaseMs);
    assert forall s :: s in j.rows ==> !j.rows[s].status.Cancelled?;
  }

  lemma ClaimJobOk(j: Job, lease: LeaseId, now: Millis, leaseMs: nat)
    requires JobOk(j) && Claimable(j, now)
    ensures JobOk(ClaimJob(j, lease, now, leaseMs))
    ensures SucceededBytes(ClaimJob(j, lease, now, leaseMs).rows) == SucceededBytes(j.rows)
  {
    var j' := ClaimJob(j, lease, now, leaseMs);
    ClaimRowsOk(j, lease, now, leaseMs);
    ClaimRows(j, lease, now, leaseMs);
    SameBytes(j'.rows, j.rows);
    KeepsSucceeded(j, j');
  }

  lemma StartedRowOk(row: ServiceRow, id: AttemptId, now: Millis)
    requires LedgerOk(row) && !row.status.Running?
    ensures LedgerOk(StartedRow(row, id, now))
    ensures Newest(StartedRow(row, id, now)).id == id
    // The unique index on (job, service, attempt) cannot fire.
    ensures forall i :: 0 <= i < |row.ledger| ==> row.ledger[i].number != row.attempts + 1
  {
  }

  lemma StartAttemptOk(j: Job, lease: LeaseId, s: Service, id: AttemptId, now: Millis)
    requires JobOk(j) && CanStart(j, lease, s) && !j.rows[s].status.Running?
    ensures JobOk(StartAttempt(j, lease, s, id, now))
    ensures SucceededBytes(StartAttempt(j, lease, s, id, now).rows) == SucceededBytes(j.rows)
  {
    var j' := StartAttempt(j, lease, s, id, now);
    StartedRowOk(j.rows[s], id, now);
    BytesUpdate(j.rows, s, StartedRow(j.rows[s], id, now));
    KeepsSucceeded(j, j');
    assert j.status.Running?;
  }

  lemma FinishedRowOk(row: ServiceRow, id: AttemptId, now: Millis, o: Outcome)
    requires LedgerOk(row) && row.status.Running? && Newest(row).id == id
    ensures LedgerOk(FinishedRow(row, id, now, o))
  {
  }

  lemma FinishAttemptOk(j: Job, lease: LeaseId, s: Service, id: AttemptId, now: Millis, o: Outcome)
    requires JobOk(j) && Owns(j, lease) && s in j.rows
    requires j.rows[s].status.Running? && Newest(j.rows[s]).id == id
    ensures JobOk(FinishAttempt(j, lease, s, id, now, o))
    ensures SucceededBytes(FinishAttempt(j, lease, s, id, now, o).rows)
         == SucceededBytes(j.rows) + (if o.Success? then o.bytes else 0)
  {
    var j' := FinishAttempt(j, lease, s, id, now, o);
    FinishedRowOk(j.rows[s], id, now, o);
    BytesUpdate(j.rows, s, FinishedRow(j.rows[s], id, now, o));
    KeepsSucceeded(j, j');
    assert j.status.Running?;
  }

  lemma PublishOk(j: Job, lease: LeaseId, status: JobStatus, now: Millis, ttl: nat,
                  path: Option<FileName>, bytes: Option<nat>, error: Option<string>)
    requires JobOk(j) && Owns(j, lease) && !AnyRow(j, RowStatus.Running)
    requires path.Some? <==> bytes.Some?
    requires path.Some? ==> AnyRow(j, RowStatus.Succeeded)
    requires status.Completed? || status.Partial? || status.Failed?
    requires status.Failed? <==> path.None?
    requires status.Completed? ==> AllRows(j, RowStatus.Succeeded)
    ensures JobOk(Publish(j, lease, status, now, ttl, path, bytes, error))
  {
  }

  lemma CancelRowOk(row: ServiceRow, now: Millis)
    requires LedgerOk(row)
    ensures LedgerOk(CancelRow(row, now)) && !CancelRow(row, now).status.Running?
  {
  }

  lemma CancelJobOk(j: Job, now: Millis, ttl: nat)
    requires JobOk(j)
    ensures JobOk(CancelJob(j, now, ttl))
  {
    var j' := CancelJob(j, now, ttl);
    if Active(j) {
      forall s | s in j.rows
        ensures s in j'.rows && LedgerOk(j'.rows[s]) && !j'.rows[s].status.Running?
      {
        CancelRowOk(j.rows[s], now);
      }
      assert j'.rows.Keys == j.rows.Keys;
    }
  }

  lemma RetryRows(j: Job)
    requires JobOk(j)
    ensures var j' := RetryJob(j);
            && j'.rows.Keys == j.rows.Keys
            && (forall s :: s in j.rows ==> LedgerOk(j'.rows[s]) && RowBytes(j'.rows[s]) == RowBytes(j.rows[s]))
            // Only failed services are put back to be fetched again.
            && (forall s :: s in j.rows && !j.rows[s].status.Failed? ==> j'.rows[s] == j.rows[s])
            && (RetryAccepts(j) ==> forall s :: s in j.rows && j.rows[s].status.Failed? ==> j'.rows[s].status.Pending?)
  {
    forall s | s in j.rows ensures LedgerOk(RetryRow(j.rows[s])) && LedgerOk(j.rows[s]) {
      assert RowOk(j.rows[s], j.status);
    }
  }

  lemma RetryJobOk(j: Job)
    requires JobOk(j)
    ensures JobOk(RetryJob(j))
    ensures SucceededBytes(RetryJob(j).rows) == SucceededBytes(j.rows)
  {
    var j' := RetryJob(j);
    RetryRowsOk(j);
    RetryRows(j);
    SameBytes(j'.rows, j.rows);
    KeepsSucceeded(j, j');
  }

  lemma RetryRowsOk(j: Job)
    requires JobOk(j)
    ensures RowsOk(RetryJob(j))
  {
    var j' := RetryJob(j);
    RetryRows(j);
    forall s | s in j.rows ensures RowOk(j'.rows[s], j'.status) { assert RowOk(j.rows[s], j.status); }
  }

  // Cleanup can never expire a job that is queued or running.
  lemma ExpireJobOk(j: Job, now: Millis)
    requires JobOk(j)
    ensures JobOk(ExpireJob(j, now))
    ensures Active(j) ==> ExpireJob(j, now) == j
  {
  }
}
