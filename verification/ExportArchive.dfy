// The life of a published archive: what a publication stores, how long the archive
// stays named and served, when cleanup takes it, and what is left in the directory.
module ExportArchive {
  import opened Common
  import opened MapSums
  import opened ExportRows
  import opened ExportCell
  import opened ExportDurable
  import opened ExportLive
  import opened ExportSteps
  import opened ExportPublish
  import opened ExportRuns
  import opened ExportTheorems
  import opened ExportPool

  // ---------------------------------------------------------------- what a publication stores

  // The status the rows deserve.
  predicate Deserves(rows: map<Service, ServiceRow>, status: JobStatus) {
    && (status.Completed? || status.Partial? || status.Failed?)
    && (status.Completed? <==> forall s :: s in rows ==> rows[s].status.Succeeded?)
    && (status.Partial? <==> (exists s :: s in rows && rows[s].status.Succeeded?)
                             && (exists s :: s in rows && !rows[s].status.Succeeded?))
    && (status.Failed? <==> forall s :: s in rows ==> !rows[s].status.Succeeded?)
  }

  // An error leaves the archive that was named, and the job partial with it or failed
  // without one; no error comes with the status the rows deserve and the new archive,
  // if anything succeeded. Either way the result is kept for its time to live.
  predicate StoredBy(j: Job, job': Option<Job>, l: LeaseId, at: Millis, ttl: nat, stream: Content) {
    && job'.Some?
    && var j' := job'.value;
       && j'.rows == j.rows && j'.owner == j.owner && j'.createdAt == j.createdAt && j'.startedAt == j.startedAt
       && j'.completedAt == Some(at) && j'.expiresAt == Some(at + ttl) && j'.leaseId.None? && j'.leaseUntil.None?
       && (j'.lastError.Some? ==>
             && j'.archivePath == j.archivePath && j'.archiveBytes == j.archiveBytes
             && j'.status == if j.archivePath.Some? then JobStatus.Partial else JobStatus.Failed)
       && (j'.lastError.None? ==>
             && Deserves(j.rows, j'.status)
             && (j'.status.Failed? ==> j'.archivePath.None? && j'.archiveBytes.None?)
             && (!j'.status.Failed? ==> j'.archivePath == Some(Archive(l)) && j'.archiveBytes == Some(|stream|)))
  }

  lemma DeservesFinal(j: Job)
    requires j.rows != map[]
    ensures Deserves(j.rows, FinalStatus(j))
  {
    var s :| s in j.rows;
  }

  lemma GiveUpStores(cfg: Config, j: Job, l: LeaseId, w: Worker, at: Millis, error: string, stream: Content)
    requires Owns(j, l) && w.oldPath == j.archivePath && w.oldBytes == j.archiveBytes
    ensures var sc := GiveUpScript(cfg, Some(j), l, w, at, error);
            && Commits(sc)
            && Saves(sc, job => StoredBy(j, job, l, at, cfg.artifactTtlMs, stream))
  {
    var p: Option<Job> -> bool := job => StoredBy(j, job, l, at, cfg.artifactTtlMs, stream);
    var sc := GiveUpScript(cfg, Some(j), l, w, at, error);
    assert sc.rest.rest.effect.Save? && p(sc.rest.rest.effect.job);
    assert Saves(sc.rest.rest.rest, p);
    assert Saves(sc.rest.rest, p) && Commits(sc.rest.rest);
    assert Saves(sc.rest, p) && Commits(sc.rest);
  }

  lemma ArchiveStores(cfg: Config, j: Job, l: LeaseId, w: Worker, stream: Content)
    requires Owns(j, l) && j.rows != map[]
    requires w.phase.Zipping? && w.phase.status == FinalStatus(j) && !w.phase.status.Failed?
    ensures var sc := PublishScript(cfg, Some(j), l, w, |stream|);
            && Commits(sc)
            && Saves(sc, job => StoredBy(j, job, l, w.phase.completedAt, cfg.artifactTtlMs, stream))
  {
    var p: Option<Job> -> bool := job =>
      StoredBy(j, job, l, w.phase.completedAt, cfg.artifactTtlMs, stream);
    var sc := PublishScript(cfg, Some(j), l, w, |stream|);
    DeservesFinal(j);
    assert sc.rest.effect.Save? && p(sc.rest.effect.job);
    assert Saves(sc.rest.rest.rest, p);
    assert Saves(sc.rest.rest, p);
    assert Saves(sc.rest, p) && Commits(sc.rest);
  }

  lemma NothingStores(cfg: Config, j: Job, l: LeaseId, w: Worker, at: Millis, stream: Content)
    requires Owns(j, l) && JobOk(j) && FinalStatus(j).Failed?
    requires w.oldPath == j.archivePath && w.oldBytes == j.archiveBytes
    ensures StoredBy(j, Some(Publish(j, l, JobStatus.Failed, at, cfg.artifactTtlMs, w.oldPath, w.oldBytes, None)),
                     l, at, cfg.artifactTtlMs, stream)
  {
    DeservesFinal(j);
  }

  // The bytes that went through the limiter into the archive.
  function StreamOf(w: Worker): Content { if w.phase.Zipping? then w.phase.stream else [] }

  // When the runners were done: now, or at the start of the zip.
  function DoneAt(w: Worker, a: Action): Millis {
    if a.Finish? then a.now else if w.phase.Zipping? then w.phase.completedAt else 0
  }

  lemma FinishStores(cfg: Config, c: Cell, a: Action, l: LeaseId, j: Job, w: Worker)
    requires CellOk(cfg, c) && Publishes(cfg, c, a, l) && a.Finish? && c.job == Some(j) && w == c.workers[l]
    requires w.oldPath == j.archivePath && w.oldBytes == j.archiveBytes
    ensures var sc := ScriptOf(cfg, c, a);
            && Commits(sc)
            && Saves(sc, job => StoredBy(j, job, l, a.now, cfg.artifactTtlMs, StreamOf(w)))
  {
    var sc := ScriptOf(cfg, c, a);
    if FinalStatus(j).Failed? {
      NothingStores(cfg, j, l, w, a.now, StreamOf(w));
      OneSave(sc.effect.job, sc.rest,
              job => StoredBy(j, job, l, a.now, cfg.artifactTtlMs, StreamOf(w)));
    } else {
      GiveUpStores(cfg, j, l, w, a.now, FinishError(cfg, w, a.retained, a.free).value, StreamOf(w));
    }
  }

  lemma PublishingStores(cfg: Config, c: Cell, a: Action, l: LeaseId, j: Job, w: Worker, at: Millis)
    requires CellOk(cfg, c) && Publishes(cfg, c, a, l) && c.job == Some(j) && w == c.workers[l] && at == DoneAt(w, a)
    ensures var sc := ScriptOf(cfg, c, a);
            && Commits(sc)
            && Saves(sc, job => StoredBy(j, job, l, at, cfg.artifactTtlMs, StreamOf(w)))
  {
    WorkerOf(cfg, c, l);
    HeldPublish(cfg, c, l);
    if a.Finish? {
      FinishStores(cfg, c, a, l, j, w);
    } else if a.ZipDone? {
      ArchiveStores(cfg, j, l, w, w.phase.stream);
    } else {
      GiveUpStores(cfg, j, l, w, at, a.error, StreamOf(w));
    }
  }

  // What every publication stores, from the row and the stream it found.
  lemma PublicationStores(cfg: Config, c: Cell, a: Action, l: LeaseId)
    requires CellOk(cfg, c) && Publishes(cfg, c, a, l)
    ensures var w := c.workers[l];
            StoredBy(c.job.value, Next(cfg, c, a).job, l, DoneAt(w, a), cfg.artifactTtlMs, StreamOf(w))
  {
    var j, w := c.job.value, c.workers[l];
    var at, stream := DoneAt(w, a), StreamOf(w);
    PublishingStores(cfg, c, a, l, j, w, at);
    LastSaveLoses(WithLease(c, a), ScriptOf(cfg, c, a),
                  job => StoredBy(j, job, l, at, cfg.artifactTtlMs, stream));
  }

  // ---------------------------------------------------------------- nobody rewrites a named archive

  // The script writes nothing under this name; it may remove it.
  predicate Spares(s: Script, n: FileName)
    decreases s
  {
    s.Then? ==> !(s.effect.Put? && s.effect.name == n) && !(s.effect.Move? && s.effect.dst == n) && Spares(s.rest, n)
  }

  lemma {:induction false} SparedFile(c: Cell, s: Script, k: nat, lost: set<FileName>, n: FileName)
    requires Spares(s, n)
    ensures n in Play(c, s).dir ==> n in c.dir && Play(c, s).dir[n] == c.dir[n]
    ensures n in Torn(c, s, k, lost).dir ==> n in c.dir && Torn(c, s, k, lost).dir[n] == c.dir[n]
    decreases s
  {
    if s.Then? { SparedFile(Apply(c, s.effect), s.rest, if k > 0 then k - 1 else 0, lost, n); }
  }

  lemma {:induction false} ScriptSpares(cfg: Config, c: Cell, a: Action, n: FileName)
    requires Enabled(cfg, c, a) && n.Archive? && (HasLease(a) ==> n.lease != a.lease)
    ensures Spares(ScriptOf(cfg, c, a), n)
  {
    var sc := ScriptOf(cfg, c, a);
    if sc.Then? && sc.rest.Then? {
      if sc.rest.rest.Then? {
        assert Spares(sc.rest.rest.rest, n);
        assert Spares(sc.rest.rest, n);
      }
      assert Spares(sc.rest, n);
    }
  }

  lemma NamedNotMine(cfg: Config, c: Cell, a: Action, n: FileName)
    requires CellOk(cfg, c) && c.job.Some? && c.job.value.archivePath == Some(n) && Enabled(cfg, c, a)
    ensures n.Archive? && (HasLease(a) ==> n.lease != a.lease)
  {
    if HasLease(a) && !a.Claim? { WorkerOf(cfg, c, a.lease); }
  }

  lemma NamedContent(cfg: Config, c: Cell, e: Event, n: FileName)
    requires CellOk(cfg, c) && c.job.Some? && c.job.value.archivePath == Some(n) && n in Do(cfg, c, e).dir
    ensures n in c.dir && Do(cfg, c, e).dir[n] == c.dir[n]
  {
    if Enabled(cfg, c, e.action) {
      var k := if e.CrashIn? then e.after else 0;
      var lost: set<FileName> := if e.CrashIn? then e.lost else {};
      NamedNotMine(cfg, c, e.action, n);
      ScriptSpares(cfg, c, e.action, n);
      SparedFile(WithLease(c, e.action), ScriptOf(cfg, c, e.action), k, lost, n);
    }
  }

  // ---------------------------------------------------------------- how long an archive is served

  // The archive is named, and its owner downloads this content.
  predicate Serves(c: Cell, n: FileName, content: Content) {
    && c.job.Some? && c.job.value.archivePath == Some(n)
    && DownloadOf(c, c.job.value.owner) == Stream(content)
  }

  // The events that may take a named archive from its owner.
  predicate Retires(cfg: Config, c: Cell, e: Event) {
    Enabled(cfg, c, e.action) && match e.action
      case Cancel(_) => true
      case Expire(_) => true
      case DropOwner => true
      case ZipDone(l) => OwnsRow(c.job, l)
      case _ => false
  }

  predicate KeepsArchive(j: Job, job: Option<Job>) {
    job.Some? && job.value.owner == j.owner
    && job.value.archivePath == j.archivePath && job.value.archiveBytes == j.archiveBytes
  }

  lemma RouteKeeps(cfg: Config, c: Cell, a: Action, j: Job)
    requires Enabled(cfg, c, a) && c.job == Some(j) && (!HasLease(a) || a.Claim?) && !Retires(cfg, c, Step(a))
    ensures Saves(ScriptOf(cfg, c, a), job => KeepsArchive(j, job))
  {
    var p: Option<Job> -> bool := job => KeepsArchive(j, job);
    var sc := ScriptOf(cfg, c, a);
    if a.Sweep? { assert Saves(sc.rest, p); } else { OneSave(sc.effect.job, sc.rest, p); }
  }

  lemma GiveUpKeeps(cfg: Config, j: Job, l: LeaseId, w: Worker, at: Millis, error: string)
    requires Owns(j, l) && w.oldPath == j.archivePath && w.oldBytes == j.archiveBytes
    ensures Saves(GiveUpScript(cfg, Some(j), l, w, at, error), job => KeepsArchive(j, job))
  {
    var p: Option<Job> -> bool := job => KeepsArchive(j, job);
    var sc := GiveUpScript(cfg, Some(j), l, w, at, error);
    assert Saves(sc.rest.rest.rest, p);
    assert Saves(sc.rest.rest, p);
    assert Saves(sc.rest, p);
  }

  lemma OwnerKeeps(cfg: Config, c: Cell, a: Action, j: Job, w: Worker)
    requires Enabled(cfg, c, a) && HasLease(a) && !a.Claim? && !a.ZipDone? && c.job == Some(j) && Owns(j, a.lease)
    requires w == c.workers[a.lease] && w.oldPath == j.archivePath && w.oldBytes == j.archiveBytes
    ensures Saves(ScriptOf(cfg, c, a), job => KeepsArchive(j, job))
  {
    var p: Option<Job> -> bool := job => KeepsArchive(j, job);
    var sc := ScriptOf(cfg, c, a);
    if a.ZipFail? {
      GiveUpKeeps(cfg, j, a.lease, w, w.phase.completedAt, a.error);
    } else if a.Finish? && !FinalStatus(j).Failed? && FinishError(cfg, w, a.retained, a.free).Some? {
      GiveUpKeeps(cfg, j, a.lease, w, a.now, FinishError(cfg, w, a.retained, a.free).value);
    } else if sc.Then? {
      if sc.rest.Then? {
        if sc.rest.rest.Then? {
          assert Saves(sc.rest.rest.rest, p);
          assert Saves(sc.rest.rest, p);
        }
        assert Saves(sc.rest, p);
      }
    }
  }

  lemma EventKeeps(cfg: Config, c: Cell, e: Event)
    requires CellOk(cfg, c) && c.job.Some? && !Retires(cfg, c, e)
    ensures KeepsArchive(c.job.value, Do(cfg, c, e).job)
  {
    var j, a := c.job.value, e.action;
    if Enabled(cfg, c, a) {
      if !HasLease(a) || a.Claim? {
        RouteKeeps(cfg, c, a, j);
      } else if OwnsRow(c.job, a.lease) {
        WorkerOf(cfg, c, a.lease);
        OwnerKeeps(cfg, c, a, j, c.workers[a.lease]);
      } else {
        StaleScript(cfg, c, a);
        EventSaves(cfg, c, e, job => job == c.job);
      }
      if !HasLease(a) || a.Claim? || OwnsRow(c.job, a.lease) { EventSaves(cfg, c, e, job => KeepsArchive(j, job)); }
    }
  }

  lemma ServesNamed(cfg: Config, c: Cell, n: FileName)
    requires CellOk(cfg, c) && c.job.Some? && c.job.value.archivePath == Some(n)
    ensures n in c.dir && Serves(c, n, c.dir[n])
  {
    NeededFilesExist(cfg, c, n);
  }

  // Any other event leaves the archive named and served, byte by byte.
  lemma ArchiveStays(cfg: Config, c: Cell, e: Event, n: FileName, content: Content)
    requires CellOk(cfg, c) && Serves(c, n, content) && !Retires(cfg, c, e)
    ensures Serves(Do(cfg, c, e), n, content)
  {
    var c' := Do(cfg, c, e);
    EventKeeps(cfg, c, e);
    DoOk(cfg, c, e);
    ServesNamed(cfg, c', n);
    ServesNamed(cfg, c, n);
    NamedContent(cfg, c, e, n);
  }

  // No event of the continuation retires the archive.
  ghost predicate Spared(cfg: Config, c: Cell, es: seq<Event>) {
    es == [] || (Spared(cfg, c, es[..|es| - 1]) && !Retires(cfg, Run(cfg, c, es[..|es| - 1]), es[|es| - 1]))
  }

  // So in every run an archive is served to its owner until a publication without an
  // error replaces it, or a cancel, an expiry or the owner's deletion takes it.
  lemma {:induction false} ArchiveServed(cfg: Config, c: Cell, es: seq<Event>, n: FileName, content: Content)
    requires CellOk(cfg, c) && Serves(c, n, content) && Spared(cfg, c, es)
    ensures Serves(Run(cfg, c, es), n, content)
  {
    if es != [] {
      var prior := Run(cfg, c, es[..|es| - 1]);
      ArchiveServed(cfg, c, es[..|es| - 1], n, content);
      RunOk(cfg, c, es[..|es| - 1]);
      ArchiveStays(cfg, prior, es[|es| - 1], n, content);
    }
  }

  // ---------------------------------------------------------------- a new archive

  predicate Names(job: Option<Job>, n: FileName) { job.Some? && job.value.archivePath == Some(n) }

  lemma NewArchiveScript(cfg: Config, j: Job, l: LeaseId, w: Worker, size: nat)
    requires Owns(j, l) && w.phase.Zipping?
    ensures var sc := PublishScript(cfg, Some(j), l, w, size);
            Saves(sc, job => Names(job, Archive(l))) && Commits(sc) && Spares(sc.rest, Archive(l))
  {
    var p: Option<Job> -> bool := job => Names(job, Archive(l));
    var sc := PublishScript(cfg, Some(j), l, w, size);
    assert Saves(sc.rest.rest.rest, p) && Spares(sc.rest.rest.rest, Archive(l));
    assert Saves(sc.rest.rest, p) && Spares(sc.rest.rest, Archive(l));
    assert Saves(sc.rest, p) && Commits(sc.rest) && Spares(sc.rest, Archive(l));
  }

  lemma {:induction false} NewArchiveParts(cfg: Config, c: Cell, a: Action, l: LeaseId, w: Worker)
    requires Publishes(cfg, c, a, l) && a.ZipDone? && w == c.workers[l]
    ensures c.job.Some? && Owns(c.job.value, l) && w.phase.Zipping?
    ensures ScriptOf(cfg, c, a) == PublishScript(cfg, c.job, l, w, |w.phase.stream|)
    ensures ArchiveTmp(l) in c.dir && c.dir[ArchiveTmp(l)] == w.phase.stream
    ensures Next(cfg, c, a).job == Play(c, ScriptOf(cfg, c, a)).job
    ensures Next(cfg, c, a).dir == Play(c, ScriptOf(cfg, c, a)).dir
  {
    ZipDoneParts(cfg, c, a);
  }

  lemma {:induction false} NewArchiveServed(cfg: Config, c: Cell, l: LeaseId, w: Worker, c': Cell)
    requires OwnsRow(c.job, l) && w.phase.Zipping?
    requires ArchiveTmp(l) in c.dir && c.dir[ArchiveTmp(l)] == w.phase.stream
    requires var end := Play(c, PublishScript(cfg, c.job, l, w, |w.phase.stream|));
             c'.job == end.job && c'.dir == end.dir
    requires CellOk(cfg, c')
    ensures Serves(c', Archive(l), w.phase.stream)
  {
    var sc := PublishScript(cfg, c.job, l, w, |w.phase.stream|);
    NewArchiveScript(cfg, c.job.value, l, w, |w.phase.stream|);
    LastSaveLoses(c, sc, job => Names(job, Archive(l)));
    ServesNamed(cfg, c', Archive(l));
    SparedFile(Apply(c, sc.effect), sc.rest, 0, {}, Archive(l));
  }

  // A publication without an error serves exactly what went through the limiter.
  lemma PublishedIsStream(cfg: Config, c: Cell, a: Action, l: LeaseId)
    requires CellOk(cfg, c) && Publishes(cfg, c, a, l) && a.ZipDone?
    ensures Serves(Next(cfg, c, a), Archive(l), StreamOf(c.workers[l]))
  {
    NewArchiveParts(cfg, c, a, l, c.workers[l]);
    NextOk(cfg, c, a);
    NewArchiveServed(cfg, c, l, c.workers[l], Next(cfg, c, a));
  }

  // ---------------------------------------------------------------- what is left in the directory

  // The script removes this file and does not write it again.
  predicate Drops(s: Script, n: FileName)
    decreases s
  {
    s.Then? &&
    (|| (s.effect.Unlink? && n in s.effect.names && Spares(s.rest, n))
     || (s.effect.Move? && s.effect.src == n && s.effect.dst != n && Spares(s.rest, n))
     || Drops(s.rest, n))
  }

  lemma {:induction false} DroppedFile(c: Cell, s: Script, n: FileName)
    requires Drops(s, n)
    ensures n !in Play(c, s).dir
    decreases s
  {
    var c' := Apply(c, s.effect);
    if Drops(s.rest, n) { DroppedFile(c', s.rest, n); } else { SparedFile(c', s.rest, 0, {}, n); }
  }

  lemma {:induction false} ArchiveDrops(cfg: Config, job: Option<Job>, l: LeaseId, w: Worker, size: nat, n: FileName)
    requires w.phase.Zipping? && n != Archive(l)
    ensures var sc := PublishScript(cfg, job, l, w, size);
            && Drops(sc, ArchiveTmp(l))
            && (!OwnsRow(job, l) ==> Drops(sc, Archive(l)))
            && (OwnsRow(job, l) && w.oldPath == Some(n) ==> Drops(sc, n))
  {
    var sc := PublishScript(cfg, job, l, w, size);
    forall m ensures Spares(sc.rest.rest.rest, m) { }
    assert Spares(sc.rest.rest, ArchiveTmp(l));
    assert Spares(sc.rest, ArchiveTmp(l));
    if !OwnsRow(job, l) {
      assert Drops(sc.rest.rest, Archive(l));
      assert Drops(sc.rest, Archive(l));
    } else if w.oldPath == Some(n) {
      assert Drops(sc.rest.rest, n);
      assert Drops(sc.rest, n);
    }
  }

  lemma GiveUpDrops(cfg: Config, job: Option<Job>, l: LeaseId, w: Worker, at: Millis, error: string)
    ensures var sc := GiveUpScript(cfg, job, l, w, at, error); Drops(sc, ArchiveTmp(l)) && Drops(sc, Archive(l))
  {
    var sc := GiveUpScript(cfg, job, l, w, at, error);
    forall m ensures Spares(sc.rest.rest.rest, m) { }
    assert Spares(sc.rest.rest, ArchiveTmp(l)) && Spares(sc.rest.rest, Archive(l));
    assert Spares(sc.rest, ArchiveTmp(l)) && Drops(sc.rest, Archive(l));
  }

  lemma {:induction false} ZipEndDrops(cfg: Config, c: Cell, a: Action, l: LeaseId, n: FileName)
    requires CellOk(cfg, c) && Enabled(cfg, c, a) && (a.ZipDone? || a.ZipFail?) && l == a.lease && n != Archive(l)
    ensures var sc := ScriptOf(cfg, c, a);
            && Drops(sc, ArchiveTmp(l))
            && (!OwnsRow(c.job, l) || a.ZipFail? ==> Drops(sc, Archive(l)))
            && (OwnsRow(c.job, l) && a.ZipDone? && c.job.value.archivePath == Some(n) ==> Drops(sc, n))
  {
    var w := c.workers[l];
    if a.ZipDone? {
      if OwnsRow(c.job, l) { WorkerOf(cfg, c, l); }
      ArchiveDrops(cfg, c.job, l, w, |c.dir[ArchiveTmp(l)]|, n);
    } else {
      GiveUpDrops(cfg, c.job, l, w, w.phase.completedAt, a.error);
    }
  }

  // However the zip ends, its temporary file is gone, its archive stays only if the
  // row names it, and an archive it replaced is gone.
  lemma NoLeftovers(cfg: Config, c: Cell, a: Action, l: LeaseId, n: FileName)
    requires CellOk(cfg, c) && Enabled(cfg, c, a) && (a.ZipDone? || a.ZipFail?) && l == a.lease
    ensures ArchiveTmp(l) !in Next(cfg, c, a).dir
    ensures Archive(l) in Next(cfg, c, a).dir ==> a.ZipDone? && OwnsRow(c.job, l)
    ensures a.ZipDone? && OwnsRow(c.job, l) && c.job.value.archivePath == Some(n) ==> n !in Next(cfg, c, a).dir
  {
    var sc := ScriptOf(cfg, c, a);
    if c.job.Some? && c.job.value.archivePath == Some(n) { NamedNotMine(cfg, c, a, n); }
    ZipEndDrops(cfg, c, a, l, if n == Archive(l) then ArchiveTmp(l) else n);
    forall m | Drops(sc, m) ensures m !in Next(cfg, c, a).dir { DroppedFile(c, sc, m); }
  }
}
