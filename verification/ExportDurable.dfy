// What the disk and the database promise at every instant, including the
// instant after a crash in the middle of a stretch.
module ExportDurable {
  import opened Common
  import opened MapSums
  import opened ExportRows
  import opened ExportCell

  // Rows of a cancelled or expired job may outlive their files.
  predicate NeedsSnapshots(j: Job) { !j.status.Cancelled? && !j.status.Expired? }

  predicate ArchiveOk(j: Job, dir: map<FileName, Content>) {
    j.archivePath.Some? && j.archiveBytes.Some? ==>
      && j.archivePath.value.Archive?
      && j.archivePath.value in dir
      && |dir[j.archivePath.value]| == j.archiveBytes.value
  }

  predicate SnapshotOk(row: ServiceRow, dir: map<FileName, Content>) {
    row.snapshot.Some? ==>
      && row.bytes.Some? && row.sha.Some?
      && row.snapshot.value in dir
      && |dir[row.snapshot.value]| == row.bytes.value
      && Sha256Of(dir[row.snapshot.value]) == row.sha.value
  }

  predicate SnapshotsOk(j: Job, dir: map<FileName, Content>) {
    forall s :: s in j.rows ==> SnapshotOk(j.rows[s], dir)
  }

  // Recorded names carry the lease that wrote them.
  predicate RowNames(s: Service, row: ServiceRow, leases: set<LeaseId>) {
    row.snapshot.Some? ==>
        row.snapshot.value.Snapshot? && row.snapshot.value.service == s && row.snapshot.value.lease in leases
  }

  predicate NamesOk(j: Job, leases: set<LeaseId>) {
    && (j.leaseId.Some? ==> j.leaseId.value in leases)
    && (j.archivePath.Some? ==> j.archivePath.value.lease in leases)
    && (forall s :: s in j.rows ==> RowNames(s, j.rows[s], leases))
  }

  ghost predicate BytesOk(cfg: Config, j: Job) {
    && SucceededBytes(j.rows) <= cfg.maxAggregateBytes
    && (forall s :: s in j.rows ==> RowBytes(j.rows[s]) <= cfg.maxResponseBytes)
  }

  ghost predicate DurableJob(cfg: Config, j: Job, dir: map<FileName, Content>, leases: set<LeaseId>) {
    && JobOk(j)
    && BytesOk(cfg, j)
    && NamesOk(j, leases)
    && ArchiveOk(j, dir)
    && (NeedsSnapshots(j) ==> SnapshotsOk(j, dir))
  }

  ghost predicate Durable(cfg: Config, c: Cell) {
    c.job.Some? ==> DurableJob(cfg, c.job.value, c.dir, c.leases)
  }

  // Durable after every effect of the script.
  ghost predicate Safe(cfg: Config, c: Cell, s: Script)
    decreases s
  {
    && Durable(cfg, c)
    && match s
       case End => true
       case Then(e, rest) => Safe(cfg, Apply(c, e), rest)
  }

  // Files the rows name.
  predicate Needed(j: Job, n: FileName) {
    || j.archivePath == Some(n)
    || (NeedsSnapshots(j) && exists s :: s in j.rows && j.rows[s].snapshot == Some(n))
  }

  // Needed files always exist: the missing-file branch of the download route is dead.
  lemma NeededFilesExist(cfg: Config, c: Cell, n: FileName)
    requires c.job.Some? && Durable(cfg, c) && Needed(c.job.value, n)
    ensures n in c.dir && (n.Archive? || n.Snapshot?) && n.lease in c.leases
  {
  }

  lemma MoreFilesStayDurable(cfg: Config, c: Cell, names: set<FileName>, lost: set<FileName>)
    requires Durable(cfg, c) && Durable(cfg, c.(dir := c.dir - names)) && lost <= names
    ensures Durable(cfg, c.(dir := c.dir - lost))
  {
  }

  lemma {:induction false} TornIsDurable(cfg: Config, c: Cell, s: Script, k: nat, lost: set<FileName>)
    requires Safe(cfg, c, s)
    ensures Durable(cfg, Torn(c, s, k, lost))
    decreases s
  {
    if s.Then? {
      if k > 0 {
        TornIsDurable(cfg, Apply(c, s.effect), s.rest, k - 1, lost);
      } else if s.effect.Unlink? {
        assert Durable(cfg, Apply(c, s.effect));
        MoreFilesStayDurable(cfg, c, s.effect.names, s.effect.names * lost);
      } else if s.effect.Wipe? {
        assert Durable(cfg, Apply(c, s.effect));
        assert Apply(c, s.effect).dir == c.dir - c.dir.Keys;
        MoreFilesStayDurable(cfg, c, c.dir.Keys, c.dir.Keys * lost);
        assert c.dir - (c.dir.Keys * lost) == c.dir - lost;
      }
    }
  }

  lemma {:induction false} PlayIsDurable(cfg: Config, c: Cell, s: Script)
    requires Safe(cfg, c, s)
    ensures Durable(cfg, Play(c, s)) && Play(c, s).workers == c.workers && Play(c, s).leases == c.leases
    decreases s
  {
    if s.Then? {
      var c' := Apply(c, s.effect);
      ApplyKeeps(c, s.effect);
      PlayIsDurable(cfg, c', s.rest);
    }
  }

  lemma ApplyKeeps(c: Cell, e: Effect)
    ensures Apply(c, e).workers == c.workers && Apply(c, e).leases == c.leases
  {
  }

  lemma {:induction false} Script1(cfg: Config, c: Cell, e: Effect, rest: Script)
    requires Durable(cfg, c) && Safe(cfg, Apply(c, e), rest)
    ensures Safe(cfg, c, Then(e, rest))
    ensures Play(c, Then(e, rest)) == Play(Apply(c, e), rest)
  {
  }

  lemma {:induction false} Script2(cfg: Config, c: Cell, e: Effect, f: Effect, rest: Script)
    requires Durable(cfg, c) && Durable(cfg, Apply(c, e)) && Safe(cfg, Apply(Apply(c, e), f), rest)
    ensures Safe(cfg, c, Then(e, Then(f, rest)))
    ensures Play(c, Then(e, Then(f, rest))) == Play(Apply(Apply(c, e), f), rest)
  {
    Script1(cfg, Apply(c, e), f, rest);
  }

  lemma {:induction false} Script3(cfg: Config, c: Cell, e: Effect, f: Effect, g: Effect, rest: Script)
    requires Durable(cfg, c) && Durable(cfg, Apply(c, e)) && Durable(cfg, Apply(Apply(c, e), f))
    requires Safe(cfg, Apply(Apply(Apply(c, e), f), g), rest)
    ensures Safe(cfg, c, Then(e, Then(f, Then(g, rest))))
    ensures Play(c, Then(e, Then(f, Then(g, rest)))) == Play(Apply(Apply(Apply(c, e), f), g), rest)
  {
    Script2(cfg, Apply(c, e), f, g, rest);
  }

  // ---------------------------------------------------------------- transactions keep it

  lemma ClaimDurable(cfg: Config, j: Job, dir: map<FileName, Content>, leases: set<LeaseId>,
                     l: LeaseId, now: Millis, leaseMs: nat)
    requires DurableJob(cfg, j, dir, leases) && Claimable(j, now)
    ensures DurableJob(cfg, ClaimJob(j, l, now, leaseMs), dir, leases + {l})
  {
    ClaimJobOk(j, l, now, leaseMs);
    ClaimRows(j, l, now, leaseMs);
    var j' := ClaimJob(j, l, now, leaseMs);
    forall s | s in j'.rows
      ensures SnapshotOk(j'.rows[s], dir) && RowNames(s, j'.rows[s], leases + {l})
    {
      assert SnapshotOk(j.rows[s], dir) && RowNames(s, j.rows[s], leases);
    }
  }

  lemma StartDurable(cfg: Config, j: Job, dir: map<FileName, Content>, leases: set<LeaseId>,
                     l: LeaseId, s: Service, id: AttemptId, now: Millis)
    requires DurableJob(cfg, j, dir, leases) && CanStart(j, l, s) && !j.rows[s].status.Running?
    ensures DurableJob(cfg, StartAttempt(j, l, s, id, now), dir, leases)
  {
    StartAttemptOk(j, l, s, id, now);
    var j' := StartAttempt(j, l, s, id, now);
    forall t | t in j'.rows
      ensures SnapshotOk(j'.rows[t], dir) && RowNames(t, j'.rows[t], leases)
      ensures RowBytes(j'.rows[t]) <= cfg.maxResponseBytes
    {
      assert t == s || j'.rows[t] == j.rows[t];
      if t != s { assert SnapshotOk(j.rows[t], dir) && RowNames(t, j.rows[t], leases); }
    }
  }

  // The outcome an attempt may record: a failure, or a file that is there.
  predicate Recordable(cfg: Config, o: Outcome, s: Service, dir: map<FileName, Content>, leases: set<LeaseId>) {
    o.Success? ==>
      && o.snapshot.Snapshot? && o.snapshot.service == s && o.snapshot.lease in leases
      && o.snapshot in dir && |dir[o.snapshot]| == o.bytes && Sha256Of(dir[o.snapshot]) == o.sha
      && o.bytes <= cfg.maxResponseBytes
  }

  lemma FinishDurable(cfg: Config, j: Job, dir: map<FileName, Content>, leases: set<LeaseId>,
                      l: LeaseId, s: Service, id: AttemptId, now: Millis, o: Outcome)
    requires DurableJob(cfg, j, dir, leases) && Owns(j, l) && s in j.rows
    requires j.rows[s].status.Running? && Newest(j.rows[s]).id == id
    requires Recordable(cfg, o, s, dir, leases)
    requires o.Success? ==> SucceededBytes(j.rows) + o.bytes <= cfg.maxAggregateBytes
    ensures DurableJob(cfg, FinishAttempt(j, l, s, id, now, o), dir, leases)
  {
    FinishAttemptOk(j, l, s, id, now, o);
    var j' := FinishAttempt(j, l, s, id, now, o);
    forall t | t in j'.rows
      ensures SnapshotOk(j'.rows[t], dir) && RowNames(t, j'.rows[t], leases)
      ensures RowBytes(j'.rows[t]) <= cfg.maxResponseBytes
    {
      assert t == s || j'.rows[t] == j.rows[t];
      if t != s { assert SnapshotOk(j.rows[t], dir) && RowNames(t, j.rows[t], leases); }
    }
  }

  lemma PublishDurable(cfg: Config, j: Job, dir: map<FileName, Content>, leases: set<LeaseId>,
                       l: LeaseId, status: JobStatus, now: Millis, ttl: nat,
                       path: Option<FileName>, bytes: Option<nat>, error: Option<string>)
    requires DurableJob(cfg, j, dir, leases)
    requires Owns(j, l) ==>
      && !AnyRow(j, RowStatus.Running)
      && (path.Some? <==> bytes.Some?)
      && (path.Some? ==> AnyRow(j, RowStatus.Succeeded) && path.value.Archive? && path.value.lease in leases
                         && path.value in dir && |dir[path.value]| == bytes.value)
      && (status.Completed? || status.Partial? || status.Failed?)
      && (status.Failed? <==> path.None?)
      && (status.Completed? ==> AllRows(j, RowStatus.Succeeded))
    ensures DurableJob(cfg, Publish(j, l, status, now, ttl, path, bytes, error), dir, leases)
  {
    if Owns(j, l) {
      PublishOk(j, l, status, now, ttl, path, bytes, error);
      assert Publish(j, l, status, now, ttl, path, bytes, error).rows == j.rows;
    }
  }

  lemma CancelDurable(cfg: Config, j: Job, dir: map<FileName, Content>, leases: set<LeaseId>, now: Millis, ttl: nat)
    requires DurableJob(cfg, j, dir, leases)
    ensures DurableJob(cfg, CancelJob(j, now, ttl), dir, leases)
  {
    CancelJobOk(j, now, ttl);
    var j' := CancelJob(j, now, ttl);
    forall s | s in j.rows
      ensures s in j'.rows && RowNames(s, j'.rows[s], leases) && RowBytes(j'.rows[s]) == RowBytes(j.rows[s])
    {
      assert RowNames(s, j.rows[s], leases);
    }
    SameBytes(j'.rows, j.rows);
  }

  lemma RetryDurable(cfg: Config, j: Job, dir: map<FileName, Content>, leases: set<LeaseId>)
    requires DurableJob(cfg, j, dir, leases)
    ensures DurableJob(cfg, RetryJob(j), dir, leases)
  {
    RetryJobOk(j);
    RetryRows(j);
    var j' := RetryJob(j);
    forall s | s in j'.rows
      ensures NeedsSnapshots(j) ==> SnapshotOk(j'.rows[s], dir)
      ensures RowNames(s, j'.rows[s], leases)
    {
      assert NeedsSnapshots(j) ==> SnapshotOk(j.rows[s], dir);
      assert RowNames(s, j.rows[s], leases);
    }
  }

  lemma ExpireDurable(cfg: Config, j: Job, dir: map<FileName, Content>, leases: set<LeaseId>, now: Millis)
    requires DurableJob(cfg, j, dir, leases)
    ensures DurableJob(cfg, ExpireJob(j, now), dir, leases)
  {
  }
}
