// The end of a dispatch: build the archive, publish it behind the lease fence,
// and remove whichever archive lost.
module ExportPublish {
  import opened Common
  import opened MapSums
  import opened ExportRows
  import opened ExportCell
  import opened ExportDurable
  import opened ExportLive
  import opened ExportSteps
  import opened ExportFlights

  // ---------------------------------------------------------------- heartbeat and death

  lemma RenewedWorker(cfg: Config, l: LeaseId, w: Worker, job: Option<Job>, until: Millis, dir: map<FileName, Content>)
    requires WorkerOk(cfg, l, w, job, dir)
    ensures WorkerOk(cfg, l, w, Renewed(job, l, until), dir)
  {
    if OwnsRow(job, l) {
      var j' := Renew(job.value, l, until);
      RenewedHeld(cfg, w, w, job.value, j');
      RenewedUnrecorded(l, w, w, job.value, j');
    }
  }

  lemma ZipperWorker(cfg: Config, l: LeaseId, w: Worker, job: Option<Job>, st: JobStatus, now: Millis, until: Millis,
                     dir: map<FileName, Content>, dir': map<FileName, Content>)
    requires WorkerOk(cfg, l, w, job, dir) && Drained(w) && OwnsRow(job, l)
    requires st == FinalStatus(job.value) && !st.Failed?
    requires dir' == dir - {ArchiveTmp(l)}
    ensures WorkerOk(cfg, l, Zipper(w, st, now), Renewed(job, l, until), dir')
  {
    var w' := Zipper(w, st, now);
    var j' := Renew(job.value, l, until);
    RenewedHeld(cfg, w, w', job.value, j');
    RenewedUnrecorded(l, w, w', job.value, j');
  }

  lemma RenewedUnrecorded(l: LeaseId, w: Worker, w': Worker, j: Job, j': Job)
    requires UnrecordedOk(l, w, j) && j'.rows == j.rows && j'.archivePath == j.archivePath
    requires w'.flights == w.flights && w'.next == w.next && w'.defs == w.defs
    ensures UnrecordedOk(l, w', j')
  {
  }

  lemma SameFinalStatus(j: Job, j': Job)
    requires j'.rows == j.rows
    ensures FinalStatus(j') == FinalStatus(j)
  {
  }

  lemma RenewedHeld(cfg: Config, w: Worker, w': Worker, j: Job, j': Job)
    requires PoolOk(cfg, w) && Held(cfg, w, j)
    requires j'.rows == j.rows && j'.archivePath == j.archivePath && j'.archiveBytes == j.archiveBytes
    requires w' == w || (w'.phase.Zipping? && w' == Zipper(w, FinalStatus(j), w'.phase.completedAt))
    ensures Held(cfg, w', j')
  {
    SameFinalStatus(j, j');
    forall s | s in w'.flights ensures Flying(s, w'.flights[s], j') { assert Flying(s, w.flights[s], j); }
    forall i | w'.next <= i < |w'.defs| ensures Fresh(w'.defs[i], w', j') { assert Fresh(w.defs[i], w, j); }
    forall i | 0 <= i < w'.next && i < |w'.defs| ensures Passed(w'.defs[i], w', j') { assert Passed(w.defs[i], w, j); }
    forall s | s in j'.rows && s !in w'.defs ensures Aside(s, w', j') { assert Aside(s, w, j); }
  }

  lemma RenewSaves(cfg: Config, c: Cell, l: LeaseId, until: Millis)
    requires Durable(cfg, c)
    ensures Durable(cfg, c.(job := Renewed(c.job, l, until)))
    ensures JobFrame({l}, c.job, Renewed(c.job, l, until))
  {
  }

  lemma HeartbeatLands(cfg: Config, c: Cell, l: LeaseId, until: Millis)
    requires CellOk(cfg, c) && l in c.workers
    ensures Lands(cfg, c, Then(Save(Renewed(c.job, l, until)), End), c.workers[l := c.workers[l]])
  {
    var job' := Renewed(c.job, l, until);
    WorkerOf(cfg, c, l);
    RenewSaves(cfg, c, l, until);
    RenewedWorker(cfg, l, c.workers[l], c.job, until, c.dir);
    Script1(cfg, c, Save(job'), End);
    assert Play(c, Then(Save(job'), End)) == c.(job := job', dir := c.dir);
    ActorLands(cfg, c, l, Then(Save(job'), End), c.workers[l], job', c.dir);
  }

  lemma HeartbeatParts(cfg: Config, c: Cell, a: Action, sc: Script)
    requires Enabled(cfg, c, a) && a.Heartbeat? && sc == Then(Save(Renewed(c.job, a.lease, a.until)), End)
    ensures a.lease in c.workers && ScriptOf(cfg, c, a) == sc
    ensures WorkersAfter(cfg, c, a) == c.workers[a.lease := c.workers[a.lease]]
  {
  }

  lemma HeartbeatOk(cfg: Config, c: Cell, a: Action)
    requires CellOk(cfg, c) && Enabled(cfg, c, a) && a.Heartbeat?
    ensures StepOk(cfg, c, a)
  {
    var sc := Then(Save(Renewed(c.job, a.lease, a.until)), End);
    HeartbeatParts(cfg, c, a, sc);
    HeartbeatLands(cfg, c, a.lease, a.until);
    StepFrom(cfg, c, a, sc, c.workers[a.lease := c.workers[a.lease]]);
  }

  lemma KillParts(cfg: Config, c: Cell, a: Action)
    requires Enabled(cfg, c, a) && a.Kill?
    ensures a.lease in c.workers && ScriptOf(cfg, c, a) == End && WorkersAfter(cfg, c, a) == c.workers - {a.lease}
  {
  }

  lemma KillOk(cfg: Config, c: Cell, a: Action)
    requires CellOk(cfg, c) && Enabled(cfg, c, a) && a.Kill?
    ensures StepOk(cfg, c, a)
  {
    KillParts(cfg, c, a);
    assert Play(c, End) == c.(job := c.job, dir := c.dir);
    LeaverLands(cfg, c, a.lease, End, c.job, c.dir);
    StepFrom(cfg, c, a, End, c.workers - {a.lease});
  }

  // ---------------------------------------------------------------- zip bytes

  lemma ZipHeld(cfg: Config, w: Worker, w': Worker, j: Job)
    requires PoolOk(cfg, w) && Held(cfg, w, j) && w.phase.Zipping? && w'.phase.Zipping?
    requires w' == w.(usage := w'.usage, phase := w'.phase) && w'.phase.status == w.phase.status
    ensures Held(cfg, w', j)
  {
    SameProgress(w, w', j);
  }

  lemma ZipWorker(cfg: Config, l: LeaseId, w: Worker, data: Content, created: bool, refused: bool, job: Option<Job>,
                  dir: map<FileName, Content>, dir': map<FileName, Content>)
    requires WorkerOk(cfg, l, w, job, dir) && w.phase.Zipping?
    requires ArchiveTmp(l) in dir' ==> created && dir'[ArchiveTmp(l)] <= w.phase.stream + data
    ensures WorkerOk(cfg, l, WithZip(w, data, created, refused), job, dir')
  {
    var w' := WithZip(w, data, created, refused);
    if OwnsRow(job, l) { ZipHeld(cfg, w, w', job.value); }
    if job.Some? { RenewedUnrecorded(l, w, w', job.value, job.value); }
  }

  lemma ZipReserveParts(cfg: Config, c: Cell, a: Action, w: Worker, data: Content, refused: bool)
    requires Enabled(cfg, c, a) && a.ZipReserve? && w == c.workers[a.lease]
    requires var allowed := QuotaAllows(cfg, w.usage, |a.data|, a.free);
             data == (if allowed then a.data else []) && refused == !allowed
    ensures ScriptOf(cfg, c, a) == End && w.phase.Zipping?
    ensures WorkersAfter(cfg, c, a) == c.workers[a.lease := WithZip(w, data, w.phase.created, refused)]
  {
  }

  lemma ZipReserveOk(cfg: Config, c: Cell, a: Action)
    requires CellOk(cfg, c) && Enabled(cfg, c, a) && a.ZipReserve?
    ensures StepOk(cfg, c, a)
  {
    var w := c.workers[a.lease];
    WorkerOf(cfg, c, a.lease);
    var allowed := QuotaAllows(cfg, w.usage, |a.data|, a.free);
    var data, refused := if allowed then a.data else [], !allowed;
    ZipReserveParts(cfg, c, a, w, data, refused);
    ZipWorker(cfg, a.lease, w, data, w.phase.created, refused, c.job, c.dir, c.dir);
    QuietStep(cfg, c, a, a.lease, WithZip(w, data, w.phase.created, refused));
  }

  lemma ZipGrown(cfg: Config, c: Cell, l: LeaseId, data: Content)
    requires CellOk(cfg, c) && l in c.workers && c.workers[l].phase.Zipping? && data <= c.workers[l].phase.stream
    ensures WorkerOk(cfg, l, WithZip(c.workers[l], [], true, c.workers[l].phase.refused), c.job,
              c.dir[ArchiveTmp(l) := data])
  {
    var w := c.workers[l];
    WorkerOf(cfg, c, l);
    ZipWorker(cfg, l, w, [], true, w.phase.refused, c.job, c.dir, c.dir[ArchiveTmp(l) := data]);
  }

  lemma ZipPutParts(cfg: Config, c: Cell, a: Action, w: Worker, data: Content)
    requires Enabled(cfg, c, a) && a.ZipFlush? && w == c.workers[a.lease]
    requires if !w.phase.created then data == a.data
             else ArchiveTmp(a.lease) in c.dir && data == c.dir[ArchiveTmp(a.lease)] + a.data
    ensures ScriptOf(cfg, c, a) == Then(Put(ArchiveTmp(a.lease), data), End)
    ensures WorkersAfter(cfg, c, a) == c.workers[a.lease := WithZip(w, [], true, w.phase.refused)]
  {
  }

  lemma ZipPut(cfg: Config, c: Cell, a: Action, data: Content)
    requires CellOk(cfg, c) && Enabled(cfg, c, a) && a.ZipFlush?
    requires if !c.workers[a.lease].phase.created then data == a.data
             else ArchiveTmp(a.lease) in c.dir && data == c.dir[ArchiveTmp(a.lease)] + a.data
    ensures StepOk(cfg, c, a)
  {
    ZipPutParts(cfg, c, a, c.workers[a.lease], data);
    ZipGrown(cfg, c, a.lease, data);
    PutStep(cfg, c, a, a.lease, WithZip(c.workers[a.lease], [], true, c.workers[a.lease].phase.refused),
        ArchiveTmp(a.lease), data);
  }

  // The temporary archive has been unlinked under the writer.
  lemma ZipLost(cfg: Config, c: Cell, a: Action, w: Worker)
    requires CellOk(cfg, c) && Enabled(cfg, c, a) && a.ZipFlush? && w == c.workers[a.lease]
    requires w.phase.created && ArchiveTmp(a.lease) !in c.dir
    ensures StepOk(cfg, c, a)
  {
    ZipLostParts(cfg, c, a, w);
    ZipLostLands(cfg, c, a.lease, w);
    StepFrom(cfg, c, a, End, c.workers[a.lease := WithZip(w, [], true, w.phase.refused)]);
  }

  lemma ZipLostParts(cfg: Config, c: Cell, a: Action, w: Worker)
    requires Enabled(cfg, c, a) && a.ZipFlush? && w == c.workers[a.lease]
    requires w.phase.created && ArchiveTmp(a.lease) !in c.dir
    ensures ScriptOf(cfg, c, a) == End
    ensures WorkersAfter(cfg, c, a) == c.workers[a.lease := WithZip(w, [], true, w.phase.refused)]
  {
  }

  lemma ZipLostLands(cfg: Config, c: Cell, l: LeaseId, w: Worker)
    requires CellOk(cfg, c) && l in c.workers && w == c.workers[l] && w.phase.Zipping? && ArchiveTmp(l) !in c.dir
    ensures Lands(cfg, c, End, c.workers[l := WithZip(w, [], true, w.phase.refused)])
  {
    WorkerOf(cfg, c, l);
    ZipWorker(cfg, l, w, [], true, w.phase.refused, c.job, c.dir, c.dir);
    EndLands(cfg, c, l, WithZip(w, [], true, w.phase.refused));
  }

  lemma ZipFlushOk(cfg: Config, c: Cell, a: Action)
    requires CellOk(cfg, c) && Enabled(cfg, c, a) && a.ZipFlush?
    ensures StepOk(cfg, c, a)
  {
    var w := c.workers[a.lease];
    if !w.phase.created {
      ZipPut(cfg, c, a, a.data);
    } else if ArchiveTmp(a.lease) in c.dir {
      ZipPut(cfg, c, a, c.dir[ArchiveTmp(a.lease)] + a.data);
    } else {
      ZipLost(cfg, c, a, w);
    }
  }

  // ---------------------------------------------------------------- giving up

  // The facts that make a publication well-formed while the lease is held.
  lemma HeldPublish(cfg: Config, c: Cell, l: LeaseId)
    requires CellOk(cfg, c) && l in c.workers && OwnsRow(c.job, l) && c.workers[l].flights == map[]
    ensures var w := c.workers[l];
            var j := c.job.value;
            && !AnyRow(j, RowStatus.Running)
            && w.oldPath == j.archivePath && w.oldBytes == j.archiveBytes
            && (w.phase.Zipping? ==> w.phase.status == FinalStatus(j) && !w.phase.status.Failed?)
  {
    WorkerOf(cfg, c, l);
  }

  // Publishing what the row already names.
  lemma KeepSaves(cfg: Config, c: Cell, l: LeaseId, status: JobStatus, at: Millis, error: Option<string>)
    requires CellOk(cfg, c) && l in c.workers && c.workers[l].flights == map[]
    requires OwnsRow(c.job, l) ==>
               status == if c.job.value.archivePath.Some? then JobStatus.Partial else JobStatus.Failed
    ensures Durable(cfg,
              c.(job := Published(cfg, c.job, l, status, at, c.workers[l].oldPath, c.workers[l].oldBytes, error)))
  {
    var w := c.workers[l];
    if OwnsRow(c.job, l) {
      HeldPublish(cfg, c, l);
      PublishDurable(cfg, c.job.value, c.dir, c.leases, l, status, at, cfg.artifactTtlMs, w.oldPath, w.oldBytes, error);
    } else if c.job.Some? {
      assert Published(cfg, c.job, l, status, at, w.oldPath, w.oldBytes, error) == c.job;
    }
  }

  // Two removals, one transaction, then the finally block.
  lemma {:induction false} GiveUpPlays(cfg: Config, c: Cell, l: LeaseId, job': Option<Job>)
    requires Durable(cfg, c) && Durable(cfg, c.(job := job'))
    requires c.job.Some? ==> c.job.value.archivePath != Some(Archive(l))
    requires job'.Some? ==> job'.value.archivePath != Some(Archive(l))
    ensures var sc := Then(Unlink({ArchiveTmp(l)}), Then(Unlink({Archive(l)}), Then(Save(job'), Finally(job'))));
            && Safe(cfg, c, sc)
            && exists dir' :: Play(c, sc) == c.(job := job', dir := dir') && DirFrame({l}, c.dir, dir')
  {
    var m, n := ArchiveTmp(l), Archive(l);
    DropDropSave(cfg, c, m, n, job');
    var c3 := c.(job := job', dir := c.dir - {m} - {n});
    FinallyKeeps(c3);
    Script3(cfg, c, Unlink({m}), Unlink({n}), Save(job'), Finally(job'));
    FinallyPlays(c3, job');
  }

  lemma {:induction false} FinallyPlays(c: Cell, job: Option<Job>)
    ensures Play(c, Finally(job)) == c.(dir := Play(c, Finally(job)).dir)
  {
  }

  lemma {:induction false} FinallyKeeps(c: Cell)
    ensures Play(c, Finally(c.job)) == c.(dir := Play(c, Finally(c.job)).dir)
    ensures forall n :: n in Play(c, Finally(c.job)).dir ==> n in c.dir && Play(c, Finally(c.job)).dir[n] == c.dir[n]
  {
  }

  lemma GiveUpLands(cfg: Config, c: Cell, l: LeaseId, at: Millis, error: string)
    requires CellOk(cfg, c) && l in c.workers && c.workers[l].flights == map[]
    ensures Lands(cfg, c, GiveUpScript(cfg, c.job, l, c.workers[l], at, error), c.workers - {l})
  {
    var w := c.workers[l];
    var status := if w.oldPath.Some? then JobStatus.Partial else JobStatus.Failed;
    var job' := Published(cfg, c.job, l, status, at, w.oldPath, w.oldBytes, Some(error));
    WorkerOf(cfg, c, l);
    if OwnsRow(c.job, l) { HeldPublish(cfg, c, l); }
    KeepSaves(cfg, c, l, status, at, Some(error));
    GiveUpPlays(cfg, c, l, job');
    var sc := GiveUpScript(cfg, c.job, l, w, at, error);
    var dir' :| Play(c, sc) == c.(job := job', dir := dir') && DirFrame({l}, c.dir, dir');
    LeaverLands(cfg, c, l, sc, job', dir');
  }

  lemma ZipFailOk(cfg: Config, c: Cell, a: Action)
    requires CellOk(cfg, c) && Enabled(cfg, c, a) && a.ZipFail?
    ensures StepOk(cfg, c, a)
  {
    WorkerOf(cfg, c, a.lease);
    GiveUpLands(cfg, c, a.lease, c.workers[a.lease].phase.completedAt, a.error);
    StepFrom(cfg, c, a,
        GiveUpScript(cfg, c.job, a.lease, c.workers[a.lease], c.workers[a.lease].phase.completedAt, a.error),
             c.workers - {a.lease});
  }

  // ---------------------------------------------------------------- publishing

  lemma ArchiveMoved(cfg: Config, c: Cell, l: LeaseId)
    requires Durable(cfg, c) && ArchiveTmp(l) in c.dir
    requires c.job.Some? ==> c.job.value.archivePath != Some(Archive(l))
    ensures var c' := Apply(c, Move(ArchiveTmp(l), Archive(l)));
            && Durable(cfg, c') && c' == c.(dir := c'.dir)
            && Archive(l) in c'.dir && c'.dir[Archive(l)] == c.dir[ArchiveTmp(l)]
            && (forall n :: n in c'.dir && n != Archive(l) ==> n in c.dir && c'.dir[n] == c.dir[n])
  {
    if c.job.Some? {
      OthersUnneeded(cfg, c, ArchiveTmp(l));
      OthersUnneeded(cfg, c, Archive(l));
    }
  }

  // The archive is in place before the row names it.
  lemma PublishSaves(cfg: Config, c: Cell, l: LeaseId)
    requires CellOk(cfg, c) && l in c.workers && c.workers[l].phase.Zipping? && ArchiveTmp(l) in c.dir
    ensures var w := c.workers[l];
            var c1 := Apply(c, Move(ArchiveTmp(l), Archive(l)));
            Durable(cfg, c1) && Durable(cfg, c1.(job := NewArchive(cfg, c.job, l, w, |c.dir[ArchiveTmp(l)]|)))
  {
    var w := c.workers[l];
    WorkerOf(cfg, c, l);
    ArchiveMoved(cfg, c, l);
    var c1 := Apply(c, Move(ArchiveTmp(l), Archive(l)));
    if OwnsRow(c.job, l) {
      HeldPublish(cfg, c, l);
      PublishDurable(cfg, c.job.value, c1.dir, c1.leases, l, w.phase.status, w.phase.completedAt, cfg.artifactTtlMs,
                     Some(Archive(l)), Some(|c.dir[ArchiveTmp(l)]|), None);
    } else if c.job.Some? {
      assert NewArchive(cfg, c.job, l, w, |c.dir[ArchiveTmp(l)]|) == c.job;
    }
  }

  // Whichever archive lost is named by no row any more.
  lemma LoserUnneeded(cfg: Config, c: Cell, l: LeaseId, c2: Cell, size: nat)
    requires CellOk(cfg, c) && l in c.workers && c.workers[l].phase.Zipping? && Durable(cfg, c2)
    requires c2.job == NewArchive(cfg, c.job, l, c.workers[l], size)
    ensures Durable(cfg, Apply(c2, Unlink(Loser(c.job, l, c.workers[l]))))
  {
    var w := c.workers[l];
    WorkerOf(cfg, c, l);
    if !OwnsRow(c.job, l) {
      assert c2.job == c.job;
      DropFile(cfg, c2, Archive(l));
    } else {
      OldArchive(cfg, c, l);
      DropOld(cfg, c2, l, w.oldPath);
    }
  }

  lemma DropOld(cfg: Config, c: Cell, l: LeaseId, prior: Option<FileName>)
    requires Durable(cfg, c) && c.job.Some? && c.job.value.archivePath == Some(Archive(l))
    requires prior.Some? ==> prior.value.Archive? && prior.value != Archive(l)
    ensures Durable(cfg, Apply(c, Unlink(if prior.Some? then {prior.value} else {})))
  {
    if prior.Some? {
      DropFile(cfg, c, prior.value);
    } else {
      assert c.dir - {} == c.dir;
    }
  }

  lemma OldArchive(cfg: Config, c: Cell, l: LeaseId)
    requires CellOk(cfg, c) && l in c.workers && c.workers[l].phase.Zipping? && OwnsRow(c.job, l)
    ensures c.workers[l].oldPath.Some? ==>
              c.workers[l].oldPath.value.Archive? && c.workers[l].oldPath.value != Archive(l)
  {
    WorkerOf(cfg, c, l);
    HeldPublish(cfg, c, l);
  }

  // One rename, one transaction, one removal, then the finally block.
  lemma {:induction false} MoveSaveDrop(cfg: Config, c: Cell, l: LeaseId, job': Option<Job>, loser: set<FileName>)
    requires Durable(cfg, c) && Durable(cfg, Apply(c, Move(ArchiveTmp(l), Archive(l))))
    requires Durable(cfg, Apply(Apply(c, Move(ArchiveTmp(l), Archive(l))), Save(job')))
    requires Durable(cfg, Apply(Apply(Apply(c, Move(ArchiveTmp(l), Archive(l))), Save(job')), Unlink(loser)))
    ensures var sc := Then(Move(ArchiveTmp(l), Archive(l)), Then(Save(job'), Then(Unlink(loser), Finally(job'))));
            && Safe(cfg, c, sc)
            && exists dir' :: Play(c, sc) == c.(job := job', dir := dir') && DirFrame({l}, c.dir, dir')
  {
    var e := Move(ArchiveTmp(l), Archive(l));
    var c3 := Apply(Apply(Apply(c, e), Save(job')), Unlink(loser));
    FinallyKeeps(c3);
    Script3(cfg, c, e, Save(job'), Unlink(loser), Finally(job'));
    assert Play(c3, Finally(job')) == c.(job := job', dir := Play(c3, Finally(job')).dir);
  }

  lemma {:induction false} PublishPlays(cfg: Config, c: Cell, l: LeaseId)
    requires CellOk(cfg, c) && l in c.workers && c.workers[l].phase.Zipping? && ArchiveTmp(l) in c.dir
    ensures var w := c.workers[l];
            var size := |c.dir[ArchiveTmp(l)]|;
            var sc := PublishScript(cfg, c.job, l, w, size);
            && Safe(cfg, c, sc)
            && exists dir' :: Play(c, sc) == c.(job := NewArchive(cfg, c.job, l, w, size), dir := dir')
                              && DirFrame({l}, c.dir, dir')
  {
    var w := c.workers[l];
    var size := |c.dir[ArchiveTmp(l)]|;
    var job' := NewArchive(cfg, c.job, l, w, size);
    var loser := Loser(c.job, l, w);
    var e := Move(ArchiveTmp(l), Archive(l));
    PublishSaves(cfg, c, l);
    LoserUnneeded(cfg, c, l, Apply(Apply(c, e), Save(job')), size);
    MoveSaveDrop(cfg, c, l, job', loser);
    assert PublishScript(cfg, c.job, l, w, size) == Then(e, Then(Save(job'), Then(Unlink(loser), Finally(job'))));
  }

  lemma PublishLands(cfg: Config, c: Cell, l: LeaseId)
    requires CellOk(cfg, c) && l in c.workers && c.workers[l].phase.Zipping? && ArchiveTmp(l) in c.dir
    ensures Lands(cfg, c, PublishScript(cfg, c.job, l, c.workers[l], |c.dir[ArchiveTmp(l)]|), c.workers - {l})
  {
    var w := c.workers[l];
    var size := |c.dir[ArchiveTmp(l)]|;
    var job' := NewArchive(cfg, c.job, l, w, size);
    var sc := PublishScript(cfg, c.job, l, w, size);
    PublishPlays(cfg, c, l);
    var dir' :| Play(c, sc) == c.(job := job', dir := dir') && DirFrame({l}, c.dir, dir');
    LeaverLands(cfg, c, l, sc, job', dir');
  }

  lemma ZipDoneOk(cfg: Config, c: Cell, a: Action)
    requires CellOk(cfg, c) && Enabled(cfg, c, a) && a.ZipDone?
    ensures StepOk(cfg, c, a)
  {
    ZipDoneParts(cfg, c, a);
    PublishLands(cfg, c, a.lease);
    StepFrom(cfg, c, a, ScriptOf(cfg, c, a), WorkersAfter(cfg, c, a));
  }

  lemma ZipDoneParts(cfg: Config, c: Cell, a: Action)
    requires Enabled(cfg, c, a) && a.ZipDone?
    ensures ScriptOf(cfg, c, a) == PublishScript(cfg, c.job, a.lease, c.workers[a.lease], |c.dir[ArchiveTmp(a.lease)]|)
    ensures WorkersAfter(cfg, c, a) == c.workers - {a.lease}
  {
  }

  // ---------------------------------------------------------------- the runners are done

  lemma ExitLands(cfg: Config, c: Cell, l: LeaseId)
    requires CellOk(cfg, c) && l in c.workers
    ensures Lands(cfg, c, Finally(c.job), c.workers - {l})
  {
    FinallyKeeps(c);
    var dir' := Play(c, Finally(c.job)).dir;
    assert Play(c, Finally(c.job)) == c.(job := c.job, dir := dir');
    LeaverLands(cfg, c, l, Finally(c.job), c.job, dir');
  }

  // Nothing succeeded: there is no archive to build and none to keep.
  lemma NothingLands(cfg: Config, c: Cell, l: LeaseId, now: Millis)
    requires CellOk(cfg, c) && l in c.workers && Drained(c.workers[l]) && OwnsRow(c.job, l)
    requires FinalStatus(c.job.value).Failed?
    ensures var w := c.workers[l];
            Lands(cfg, c, Then(Save(Published(cfg, c.job, l, JobStatus.Failed, now, w.oldPath, w.oldBytes, None)), End),
                  c.workers - {l})
  {
    var w := c.workers[l];
    var job' := Published(cfg, c.job, l, JobStatus.Failed, now, w.oldPath, w.oldBytes, None);
    HeldPublish(cfg, c, l);
    KeepSaves(cfg, c, l, JobStatus.Failed, now, None);
    Script1(cfg, c, Save(job'), End);
    assert Play(c, Then(Save(job'), End)) == c.(job := job', dir := c.dir);
    LeaverLands(cfg, c, l, Then(Save(job'), End), job', c.dir);
  }

  lemma {:induction false} SaveDrop(cfg: Config, c: Cell, job': Option<Job>, n: FileName)
    requires Durable(cfg, c) && Durable(cfg, c.(job := job')) && n.ArchiveTmp?
    ensures var sc := Then(Save(job'), Then(Unlink({n}), End));
            Safe(cfg, c, sc) && Play(c, sc) == c.(job := job', dir := c.dir - {n})
  {
    DropFile(cfg, c.(job := job'), n);
    Script2(cfg, c, Save(job'), Unlink({n}), End);
  }

  lemma {:induction false} ZipStartPlays(cfg: Config, c: Cell, l: LeaseId, until: Millis)
    requires Durable(cfg, c)
    ensures var sc := ZipStartScript(c.job, l, until);
            && Safe(cfg, c, sc)
            && Play(c, sc) == c.(job := Renewed(c.job, l, until), dir := c.dir - {ArchiveTmp(l)})
  {
    RenewSaves(cfg, c, l, until);
    SaveDrop(cfg, c, Renewed(c.job, l, until), ArchiveTmp(l));
  }

  lemma ZipStartLands(cfg: Config, c: Cell, l: LeaseId, w: Worker, st: JobStatus, now: Millis, until: Millis)
    requires CellOk(cfg, c) && l in c.workers && w == c.workers[l] && Drained(w) && OwnsRow(c.job, l)
    requires st == FinalStatus(c.job.value) && !st.Failed?
    ensures Lands(cfg, c, ZipStartScript(c.job, l, until), c.workers[l := Zipper(w, st, now)])
  {
    var job' := Renewed(c.job, l, until);
    var dir' := c.dir - {ArchiveTmp(l)};
    WorkerOf(cfg, c, l);
    ZipperWorker(cfg, l, w, c.job, st, now, until, c.dir, dir');
    RenewSaves(cfg, c, l, until);
    ZipStartPlays(cfg, c, l, until);
    ActorLands(cfg, c, l, ZipStartScript(c.job, l, until), Zipper(w, st, now), job', dir');
  }

  lemma FinishGone(cfg: Config, c: Cell, a: Action)
    requires CellOk(cfg, c) && Enabled(cfg, c, a) && a.Finish? && !OwnsRow(c.job, a.lease)
    ensures StepOk(cfg, c, a)
  {
    ExitLands(cfg, c, a.lease);
    StepFrom(cfg, c, a, Finally(c.job), c.workers - {a.lease});
  }

  lemma FinishNothing(cfg: Config, c: Cell, a: Action, w: Worker, sc: Script)
    requires CellOk(cfg, c) && Enabled(cfg, c, a) && a.Finish? && OwnsRow(c.job, a.lease)
    requires FinalStatus(c.job.value).Failed?
    requires w == c.workers[a.lease]
    requires sc == Then(Save(Published(cfg, c.job, a.lease, JobStatus.Failed, a.now, w.oldPath, w.oldBytes, None)), End)
    ensures StepOk(cfg, c, a)
  {
    NothingLands(cfg, c, a.lease, a.now);
    NothingParts(cfg, c, a, w, sc);
    StepFrom(cfg, c, a, sc, c.workers - {a.lease});
  }

  lemma NothingParts(cfg: Config, c: Cell, a: Action, w: Worker, sc: Script)
    requires Enabled(cfg, c, a) && a.Finish? && OwnsRow(c.job, a.lease) && FinalStatus(c.job.value).Failed?
    requires w == c.workers[a.lease]
    requires sc == Then(Save(Published(cfg, c.job, a.lease, JobStatus.Failed, a.now, w.oldPath, w.oldBytes, None)), End)
    ensures ScriptOf(cfg, c, a) == sc && WorkersAfter(cfg, c, a) == c.workers - {a.lease}
  {
  }

  predicate Archives(cfg: Config, c: Cell, a: Action, st: JobStatus, error: Option<string>) {
    && Enabled(cfg, c, a) && a.Finish? && OwnsRow(c.job, a.lease)
    && st == FinalStatus(c.job.value) && !st.Failed?
    && error == FinishError(cfg, c.workers[a.lease], a.retained, a.free)
  }

  lemma RefusedParts(cfg: Config, c: Cell, a: Action, st: JobStatus, error: Option<string>)
    requires Archives(cfg, c, a, st, error) && error.Some?
    ensures ScriptOf(cfg, c, a) == GiveUpScript(cfg, c.job, a.lease, c.workers[a.lease], a.now, error.value)
    ensures WorkersAfter(cfg, c, a) == c.workers - {a.lease}
  {
  }

  lemma GoParts(cfg: Config, c: Cell, a: Action, st: JobStatus, until: Millis)
    requires Archives(cfg, c, a, st, None) && until == a.now + cfg.leaseMs
    ensures ScriptOf(cfg, c, a) == ZipStartScript(c.job, a.lease, until)
    ensures WorkersAfter(cfg, c, a) == c.workers[a.lease := Zipper(c.workers[a.lease], st, a.now)]
  {
  }

  lemma FinishRefused(cfg: Config, c: Cell, a: Action, st: JobStatus, error: Option<string>)
    requires CellOk(cfg, c) && Archives(cfg, c, a, st, error) && error.Some?
    ensures StepOk(cfg, c, a)
  {
    RefusedParts(cfg, c, a, st, error);
    GiveUpLands(cfg, c, a.lease, a.now, error.value);
    StepFrom(cfg, c, a, ScriptOf(cfg, c, a), WorkersAfter(cfg, c, a));
  }

  lemma GoLands(cfg: Config, c: Cell, a: Action, st: JobStatus, until: Millis)
    requires CellOk(cfg, c) && Archives(cfg, c, a, st, None)
    ensures Lands(cfg, c, ZipStartScript(c.job, a.lease, until),
              c.workers[a.lease := Zipper(c.workers[a.lease], st, a.now)])
  {
    ZipStartLands(cfg, c, a.lease, c.workers[a.lease], st, a.now, until);
  }

  lemma FinishGo(cfg: Config, c: Cell, a: Action, st: JobStatus, until: Millis, sc: Script, ws: map<LeaseId, Worker>)
    requires CellOk(cfg, c) && Archives(cfg, c, a, st, None) && until == a.now + cfg.leaseMs
    requires sc == ZipStartScript(c.job, a.lease, until)
    requires ws == c.workers[a.lease := Zipper(c.workers[a.lease], st, a.now)]
    ensures StepOk(cfg, c, a)
  {
    GoParts(cfg, c, a, st, until);
    GoLands(cfg, c, a, st, until);
    StepFrom(cfg, c, a, sc, ws);
  }

  lemma FinishOk(cfg: Config, c: Cell, a: Action)
    requires CellOk(cfg, c) && Enabled(cfg, c, a) && a.Finish?
    ensures StepOk(cfg, c, a)
  {
    if !OwnsRow(c.job, a.lease) {
      FinishGone(cfg, c, a);
    } else if FinalStatus(c.job.value).Failed? {
      var w := c.workers[a.lease];
      FinishNothing(cfg, c, a, w,
        Then(Save(Published(cfg, c.job, a.lease, JobStatus.Failed, a.now, w.oldPath, w.oldBytes, None)), End));
    } else {
      var st := FinalStatus(c.job.value);
      var error := FinishError(cfg, c.workers[a.lease], a.retained, a.free);
      if error.Some? {
        FinishRefused(cfg, c, a, st, error);
      } else {
        var until := a.now + cfg.leaseMs;
        FinishGo(cfg, c, a, st, until, ZipStartScript(c.job, a.lease, until),
                 c.workers[a.lease := Zipper(c.workers[a.lease], st, a.now)]);
      }
    }
  }
}
