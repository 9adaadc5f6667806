// The export tables as one mutable object: each method is one of the source's
// transactions, written statement by statement and proved against the row-level
// functions the step model runs on.
module ExportDatabase {
  import opened Common
  import opened MapSums
  import opened ExportRows

  predicate ActiveOf(j: Job, owner: UserId) { j.owner == owner && Active(j) }

  predicate RetainedOf(j: Job, owner: UserId) { j.owner == owner && !j.status.Expired? }

  function CountOf(j: Job, owner: UserId): nat { if RetainedOf(j, owner) then 1 else 0 }

  function BytesOf(j: Job, owner: UserId): nat {
    if RetainedOf(j, owner) && j.archiveBytes.Some? then j.archiveBytes.value else 0
  }

  function CountColumn(jobs: map<JobId, Job>, owner: UserId): map<JobId, int> {
    map id | id in jobs :: CountOf(jobs[id], owner)
  }

  function BytesColumn(jobs: map<JobId, Job>, owner: UserId): map<JobId, int> {
    map id | id in jobs :: BytesOf(jobs[id], owner)
  }

  predicate AnyActive(jobs: map<JobId, Job>, owner: UserId) {
    exists id :: id in jobs && ActiveOf(jobs[id], owner)
  }

  // Every job of the owner was created at least `cooldown` ago.
  predicate Cooled(jobs: map<JobId, Job>, owner: UserId, now: Millis, cooldown: nat) {
    forall id :: id in jobs && jobs[id].owner == owner ==> cooldown <= now - jobs[id].createdAt
  }

  predicate Latest(jobs: map<JobId, Job>, owner: UserId, at: Option<Millis>) {
    && (at.None? ==> forall id :: id in jobs ==> jobs[id].owner != owner)
    && (at.Some? ==>
          && (exists id :: id in jobs && jobs[id].owner == owner && jobs[id].createdAt == at.value)
          && (forall id :: id in jobs && jobs[id].owner == owner ==> jobs[id].createdAt <= at.value))
  }

  // Math.max(1, Math.ceil(remaining / 1000)) for a positive remaining time.
  function RetryAfterSeconds(remaining: nat): nat { Max(1, (remaining + 999) / 1000) }

  // The header is enough to wait, and no whole second more than needed.
  lemma RetryAfterIsExact(remaining: nat)
    requires 0 < remaining
    ensures remaining <= 1000 * RetryAfterSeconds(remaining) < remaining + 1000
  {
  }

  datatype Creation =
    | Existing(id: JobId)
    | Created(id: JobId)
    | Cooldown(retryAfter: nat)
    | RetainedLimit
    | ArtifactLimit

  datatype Cancellation = CancelMissing | AlreadyCancelled | CancelConflict | CancelDone(removeNow: bool)

  datatype Requeue = RetryMissing | RetryConflict | OtherActive | Requeued

  predicate Sooner(jobs: map<JobId, Job>, a: JobId, b: JobId)
    requires a in jobs && b in jobs
  {
    Before(Rank(jobs[a].createdAt, a, 0, 0), Rank(jobs[b].createdAt, b, 0, 0))
  }

  // The row `ORDER BY created_at, id LIMIT 1` returns.
  predicate IsNext(jobs: map<JobId, Job>, now: Millis, id: JobId) {
    && id in jobs && Claimable(jobs[id], now)
    && (forall k :: k in jobs && k != id && Claimable(jobs[k], now) ==> Sooner(jobs, id, k))
  }

  // Nobody holds the job: it waits in the queue, or the lease of its dispatch is over.
  predicate Vacant(j: Job, now: Millis) {
    j.status.Queued? || (j.status.Running? && (j.leaseUntil.Some? ==> j.leaseUntil.value <= now))
  }

  // Kept long enough, and not yet marked.
  predicate Due(j: Job, now: Millis) {
    !j.status.Expired? && j.expiresAt.Some? && j.expiresAt.value <= now
  }

  // A transaction on one job; on a missing job the statements match no row.
  function Put(jobs: map<JobId, Job>, id: JobId, f: Job -> Job): map<JobId, Job> {
    if id in jobs then jobs[id := f(jobs[id])] else jobs
  }

  class Database {
    const cfg: Config
    var jobs: map<JobId, Job>

    constructor (cfg: Config)
      ensures this.cfg == cfg && jobs == map[]
    {
      this.cfg := cfg;
      jobs := map[];
    }

    // ---------------------------------------------------------------- queries

    method SelectNext(now: Millis) returns (next: Option<JobId>)
      ensures next.None? ==> forall id :: id in jobs ==> !Claimable(jobs[id], now)
      ensures next.Some? ==> IsNext(jobs, now, next.value)
    {
      next := None;
      var rest := jobs.Keys;
      while rest != {}
        invariant rest <= jobs.Keys
        invariant next.None? ==> forall id :: id in jobs.Keys - rest ==> !Claimable(jobs[id], now)
        invariant next.Some? ==>
          && next.value in jobs.Keys - rest && Claimable(jobs[next.value], now)
          && (forall k :: k in jobs.Keys - rest && k != next.value && Claimable(jobs[k], now) ==>
              Sooner(jobs, next.value, k))
        decreases |rest|
      {
        var id :| id in rest;
        rest := rest - {id};
        if Claimable(jobs[id], now) && (next.None? || Sooner(jobs, id, next.value)) {
          next := Some(id);
        }
      }
    }

    method SelectActive(owner: UserId, except: set<JobId>) returns (found: Option<JobId>)
      ensures found.None? ==> forall id :: id in jobs && id !in except ==> !ActiveOf(jobs[id], owner)
      ensures found.Some? ==> found.value in jobs && found.value !in except && ActiveOf(jobs[found.value], owner)
    {
      var rest := jobs.Keys - except;
      while rest != {}
        invariant rest <= jobs.Keys - except
        invariant forall id :: id in jobs && id !in except && id !in rest ==> !ActiveOf(jobs[id], owner)
        decreases |rest|
      {
        var id :| id in rest;
        if ActiveOf(jobs[id], owner) { return Some(id); }
        rest := rest - {id};
      }
      return None;
    }

    method SelectLatest(owner: UserId) returns (at: Option<Millis>)
      ensures Latest(jobs, owner, at)
    {
      at := None;
      var rest := jobs.Keys;
      while rest != {}
        invariant rest <= jobs.Keys
        invariant at.None? ==> forall id :: id in jobs && id !in rest ==> jobs[id].owner != owner
        invariant at.Some? ==> exists id :: id in jobs && jobs[id].owner == owner && jobs[id].createdAt == at.value
        invariant at.Some? ==> forall id :: id in jobs && id !in rest && jobs[id].owner == owner ==>
                    jobs[id].createdAt <= at.value
        decreases |rest|
      {
        var id :| id in rest;
        rest := rest - {id};
        if jobs[id].owner == owner && (at.None? || at.value < jobs[id].createdAt) {
          at := Some(jobs[id].createdAt);
        }
      }
    }

    method SelectRetained(owner: UserId) returns (count: nat, bytes: nat)
      ensures count == Sum(CountColumn(jobs, owner)) && bytes == Sum(BytesColumn(jobs, owner))
    {
      count, bytes := 0, 0;
      var rest := jobs.Keys;
      ghost var counts, sizes := CountColumn(jobs, owner), BytesColumn(jobs, owner);
      assert counts.Keys == jobs.Keys && sizes.Keys == jobs.Keys;
      SumNone(counts);
      SumNone(sizes);
      while rest != {}
        invariant rest <= jobs.Keys && count == Sum(counts - rest) && bytes == Sum(sizes - rest)
        decreases |rest|
      {
        var id :| id in rest;
        SumPeel(counts, rest, id);
        SumPeel(sizes, rest, id);
        rest := rest - {id};
        count, bytes := count + CountOf(jobs[id], owner), bytes + BytesOf(jobs[id], owner);
      }
    }

    // The finalizer's query: archive bytes of the owner's other unexpired jobs.
    method SelectOthersBytes(owner: UserId, except: JobId) returns (bytes: nat)
      ensures bytes == Sum(BytesColumn(jobs, owner) - {except})
    {
      bytes := 0;
      var rest := jobs.Keys - {except};
      ghost var sizes := BytesColumn(jobs, owner) - {except};
      assert sizes.Keys == rest;
      SumNone(sizes);
      while rest != {}
        invariant rest <= sizes.Keys && bytes == Sum(sizes - rest)
        decreases |rest|
      {
        var id :| id in rest;
        SumPeel(sizes, rest, id);
        rest := rest - {id};
        bytes := bytes + BytesOf(jobs[id], owner);
      }
    }

    // ---------------------------------------------------------------- the worker's transactions

    method ClaimNextJob(now: Millis, lease: LeaseId, leaseMs: nat) returns (claimed: Option<JobId>)
      modifies this
      ensures claimed.None? ==> jobs == old(jobs) && forall id :: id in jobs ==> !Claimable(jobs[id], now)
      ensures claimed.Some? ==>
        && IsNext(old(jobs), now, claimed.value)
        && jobs == old(jobs)[claimed.value := ClaimJob(old(jobs)[claimed.value], lease, now, leaseMs)]
      // Only a queued job, or a running one whose lease has run out, changes hands: the
      // first of these by age and id. A live lease keeps everybody else off.
      ensures claimed.None? ==> forall id :: id in jobs ==> !Vacant(jobs[id], now)
      ensures claimed.Some? ==>
        && claimed.value in old(jobs) && Vacant(old(jobs)[claimed.value], now)
        && (forall id :: id in old(jobs) && id != claimed.value && Vacant(old(jobs)[id], now) ==>
              || old(jobs)[claimed.value].createdAt < old(jobs)[id].createdAt
              || (old(jobs)[claimed.value].createdAt == old(jobs)[id].createdAt && claimed.value < id))
        && jobs[claimed.value].status.Running? && jobs[claimed.value].leaseId == Some(lease)
        && jobs[claimed.value].leaseUntil == Some(now + leaseMs)
        && jobs - {claimed.value} == old(jobs) - {claimed.value}
    {
      claimed := SelectNext(now);
      if claimed.None? { return; }
      var row := jobs[claimed.value];
      if row.status.Running? {
        row := row.(rows := map s | s in row.rows ::
          row.rows[s].(ledger := CloseAttempts(row.rows[s].ledger, AttemptStatus.Failed, now, INTERRUPTED)));
        row := row.(rows := map s | s in row.rows ::
          if row.rows[s].status.Running?
          then row.rows[s].(status := RowStatus.Pending, lastError := Some(INTERRUPTED)) else row.rows[s]);
      }
      row := row.(status := JobStatus.Running, startedAt := if row.startedAt.Some? then row.startedAt else Some(now),
                  leaseId := Some(lease), leaseUntil := Some(now + leaseMs),
                  completedAt := None, expiresAt := None, lastError := None);
      assert row.rows == ClaimJob(jobs[claimed.value], lease, now, leaseMs).rows;
      jobs := jobs[claimed.value := row];
    }

    method OwnsLease(id: JobId, lease: LeaseId) returns (owns: bool)
      ensures owns <==> id in jobs && Owns(jobs[id], lease)
    {
      owns := id in jobs && jobs[id].status.Running? && jobs[id].leaseId == Some(lease);
    }

    method RenewLease(id: JobId, lease: LeaseId, until: Millis)
      modifies this
      ensures jobs == Put(old(jobs), id, j => Renew(j, lease, until))
    {
      var owns := OwnsLease(id, lease);
      if owns { jobs := jobs[id := jobs[id].(leaseUntil := Some(until))]; }
    }

    method StartServiceAttempt(id: JobId, lease: LeaseId, service: Service, now: Millis, attempt: AttemptId)
      returns (started: bool)
      modifies this
      ensures started <==> id in old(jobs) && CanStart(old(jobs)[id], lease, service)
      ensures jobs == Put(old(jobs), id, j => StartAttempt(j, lease, service, attempt, now))
    {
      var owns := OwnsLease(id, lease);
      if !owns { return false; }
      var job := jobs[id];
      if service !in job.rows || job.rows[service].status.Succeeded? { return false; }
      var row := job.rows[service];
      var number := row.attempts + 1;
      row := row.(status := RowStatus.Running, attempts := number, startedAt := Some(now), completedAt := None,
                  bytes := None, sha := None, snapshot := None, lastError := None);
      row := row.(ledger :=
          row.ledger + [Attempt(attempt, number, AttemptStatus.Running, now, None, None, None, None)]);
      jobs := jobs[id := job.(rows := job.rows[service := row])];
      return true;
    }

    method FinishServiceAttempt(id: JobId, lease: LeaseId, service: Service, attempt: AttemptId, now: Millis,
                                o: Outcome)
      returns (ok: bool)
      modifies this
      ensures ok <==> id in old(jobs) && Owns(old(jobs)[id], lease)
      ensures jobs == Put(old(jobs), id, j => FinishAttempt(j, lease, service, attempt, now, o))
    {
      ok := OwnsLease(id, lease);
      if !ok { return; }
      var job := jobs[id];
      if service !in job.rows { return; }
      var row := job.rows[service];
      match o {
        case Success(bytes, sha, snapshot) =>
          if row.status.Running? {
            row := row.(status := RowStatus.Succeeded, bytes := Some(bytes), sha := Some(sha),
                        snapshot := Some(snapshot), lastError := None, completedAt := Some(now));
          }
        case Failure(error) =>
          if row.status.Running? {
            row := row.(status := RowStatus.Failed, bytes := None, sha := None, snapshot := None,
                        lastError := Some(error), completedAt := Some(now));
          }
      }
      row := row.(ledger := FinishLedger(row.ledger, attempt, now, o));
      jobs := jobs[id := job.(rows := job.rows[service := row])];
    }

    // The UPDATE that ends a dispatch.
    method Finalize(id: JobId, lease: LeaseId, status: JobStatus, now: Millis, path: Option<FileName>,
                    bytes: Option<nat>, error: Option<string>)
      returns (changes: nat)
      modifies this
      ensures changes == if id in old(jobs) && Owns(old(jobs)[id], lease) then 1 else 0
      ensures jobs == Put(old(jobs), id, j => Publish(j, lease, status, now, cfg.artifactTtlMs, path, bytes, error))
    {
      var owns := OwnsLease(id, lease);
      if !owns { return 0; }
      jobs := jobs[id := jobs[id].(status := status, completedAt := Some(now),
                                   expiresAt := Some(now + cfg.artifactTtlMs), archivePath := path,
                                   archiveBytes := bytes, lastError := error, leaseId := None, leaseUntil := None)];
      return 1;
    }

    // ---------------------------------------------------------------- the routes' transactions

    method CreateOrGetActiveJob(owner: UserId, now: Millis, id: JobId, services: seq<Service>) returns (r: Creation)
      requires id !in jobs
      modifies this
      ensures r.Created? <==>
        && !AnyActive(old(jobs), owner) && Cooled(old(jobs), owner, now, cfg.cooldownMs)
        && Sum(CountColumn(old(jobs), owner)) < cfg.maxRetainedJobs
        && Sum(BytesColumn(old(jobs), owner)) < cfg.maxRetainedBytes
      ensures r.Created? ==> r.id == id && jobs == old(jobs)[id := NewJob(owner, now, set s | s in services)]
      ensures r.Created? ==>
        && jobs[id].status.Queued? && jobs[id].owner == owner && jobs[id].createdAt == now
        && jobs[id].leaseId.None? && jobs[id].archivePath.None? && jobs[id].expiresAt.None?
        && (forall s :: s in jobs[id].rows <==> s in services)
        && (forall s :: s in services ==> jobs[id].rows[s].status.Pending? && jobs[id].rows[s].ledger == [])
      ensures !r.Created? ==> jobs == old(jobs)
      ensures r.Existing? <==> AnyActive(old(jobs), owner)
      ensures r.Existing? ==> r.id in jobs && ActiveOf(jobs[r.id], owner)
      ensures r.Cooldown? <==> !AnyActive(old(jobs), owner) && !Cooled(old(jobs), owner, now, cfg.cooldownMs)
      // The promised wait is enough for the cooldown, and shorter by a second would not be.
      ensures r.Cooldown? ==>
        && Cooled(jobs, owner, now + 1000 * r.retryAfter, cfg.cooldownMs)
        && !Cooled(jobs, owner, now + 1000 * (r.retryAfter - 1), cfg.cooldownMs)
    {
      var existing := SelectActive(owner, {});
      if existing.Some? { return Existing(existing.value); }
      var latest := SelectLatest(owner);
      if latest.Some? && now - latest.value < cfg.cooldownMs {
        RetryAfterIsExact(cfg.cooldownMs - (now - latest.value));
        return Cooldown(RetryAfterSeconds(cfg.cooldownMs - (now - latest.value)));
      }
      var count, bytes := SelectRetained(owner);
      if count >= cfg.maxRetainedJobs { return RetainedLimit; }
      if bytes >= cfg.maxRetainedBytes { return ArtifactLimit; }
      var rows: map<Service, ServiceRow> := map[];
      for i := 0 to |services|
        invariant rows == map s | s in services[..i] :: NEW_ROW
      {
        rows := rows[services[i] := NEW_ROW];
      }
      assert services[..|services|] == services;
      assert rows == NewJob(owner, now, set s | s in services).rows;
      jobs := jobs[id := Job(owner, JobStatus.Queued, now, None, None, None, None, None, None, None, None, rows)];
      return Created(id);
    }

    method Cancel(id: JobId, user: UserId, now: Millis) returns (r: Cancellation)
      modifies this
      ensures r.CancelMissing? <==> id !in old(jobs) || old(jobs)[id].owner != user
      ensures r.CancelDone? <==> id in old(jobs) && ActiveOf(old(jobs)[id], user)
      ensures r.CancelDone? ==>
        && jobs == old(jobs)[id := CancelJob(old(jobs)[id], now, cfg.artifactTtlMs)]
        && (r.removeNow <==> old(jobs)[id].status.Queued?)
      ensures !r.CancelDone? ==> jobs == old(jobs)
      ensures r.AlreadyCancelled? ==> jobs[id].status.Cancelled?
    {
      if id !in jobs || jobs[id].owner != user { return CancelMissing; }
      var job := jobs[id];
      if job.status.Cancelled? { return AlreadyCancelled; }
      if !job.status.Queued? && !job.status.Running? { return CancelConflict; }
      var removeNow := job.status.Queued?;
      job := job.(status := JobStatus.Cancelled, completedAt := Some(now), expiresAt := Some(now + cfg.artifactTtlMs),
                  archivePath := None, archiveBytes := None, leaseId := None, leaseUntil := None);
      job := job.(rows := map s | s in job.rows ::
        if job.rows[s].status.Pending? || job.rows[s].status.Running?
        then job.rows[s].(status := RowStatus.Cancelled, completedAt := Some(now)) else job.rows[s]);
      job := job.(rows := map s | s in job.rows ::
        job.rows[s].(ledger := CloseAttempts(job.rows[s].ledger, AttemptStatus.Cancelled, now, CANCELLED)));
      assert job.rows == CancelJob(jobs[id], now, cfg.artifactTtlMs).rows;
      jobs := jobs[id := job];
      return CancelDone(removeNow);
    }

    method Retry(id: JobId, user: UserId) returns (r: Requeue)
      modifies this
      ensures r.RetryMissing? <==> id !in old(jobs) || old(jobs)[id].owner != user
      ensures r.Requeued? <==>
        && id in old(jobs) && old(jobs)[id].owner == user && RetryAccepts(old(jobs)[id])
        && (forall k :: k in old(jobs) && k != id ==> !ActiveOf(old(jobs)[k], user))
      ensures jobs == if r.Requeued? then old(jobs)[id := RetryJob(old(jobs)[id])] else old(jobs)
    {
      if id !in jobs || jobs[id].owner != user { return RetryMissing; }
      var job := jobs[id];
      if !job.status.Partial? && !job.status.Failed? { return RetryConflict; }
      var active := SelectActive(user, {id});
      if active.Some? { return OtherActive; }
      var failed := AnyRow(job, RowStatus.Failed);
      var archiveOnly := !failed && job.lastError.Some?;
      if !failed && !archiveOnly { return RetryConflict; }
      var rows := job.rows;
      if !archiveOnly {
        rows := map s | s in rows ::
          if rows[s].status.Failed?
          then rows[s].(status := RowStatus.Pending, bytes := None, sha := None, lastError := None,
                        snapshot := None, startedAt := None, completedAt := None)
          else rows[s];
      }
      assert rows == RetryJob(job).rows;
      jobs := jobs[id := job.(status := JobStatus.Queued, completedAt := None, expiresAt := None, lastError := None,
                              leaseId := None, leaseUntil := None, rows := rows)];
      return Requeued;
    }

    // ---------------------------------------------------------------- cleanup

    method ExpireJobs(now: Millis) returns (expired: set<JobId>)
      modifies this
      ensures expired == set id | id in old(jobs) && Expirable(old(jobs)[id], now)
      ensures jobs == map id | id in old(jobs) :: ExpireJob(old(jobs)[id], now)
      // Exactly the jobs whose time has come, and no other job is touched.
      ensures expired == set id | id in old(jobs) && Due(old(jobs)[id], now)
      ensures jobs.Keys == old(jobs).Keys
      ensures forall id :: id in old(jobs) && !Due(old(jobs)[id], now) ==> jobs[id] == old(jobs)[id]
      ensures forall id :: id in old(jobs) && Due(old(jobs)[id], now) ==>
                jobs[id] == old(jobs)[id].(status := JobStatus.Expired, archivePath := None, archiveBytes := None,
                                           leaseId := None, leaseUntil := None)
    {
      expired := set id | id in jobs && Expirable(jobs[id], now);
      ghost var before := jobs;
      var rest := expired;
      while rest != {}
        invariant rest <= expired && jobs.Keys == before.Keys
        invariant forall id :: id in before ==>
                    jobs[id] == if id in rest then before[id] else ExpireJob(before[id], now)
        decreases |rest|
      {
        var id :| id in rest;
        rest := rest - {id};
        if jobs[id].expiresAt.Some? && jobs[id].expiresAt.value <= now && !jobs[id].status.Expired? {
          jobs := jobs[id := jobs[id].(status := JobStatus.Expired, archivePath := None, archiveBytes := None,
                                       leaseId := None, leaseUntil := None)];
        }
      }
    }
  }
}
