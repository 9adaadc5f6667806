// Every stretch keeps the cell's invariant, and a crash inside any stretch
// leaves rows and files in agreement.
module ExportSteps {
  import opened Common
  import opened MapSums
  import opened ExportRows
  import opened ExportCell
  import opened ExportDurable
  import opened ExportLive

  // The rows name only published archives and recorded snapshots.
  lemma OthersUnneeded(cfg: Config, c: Cell, n: FileName)
    requires Durable(cfg, c) && c.job.Some?
    requires n.Archive? ==> c.job.value.archivePath != Some(n)
    requires n.Snapshot? ==> Unrecorded(n.lease, n.service, c.job.value)
    ensures !Needed(c.job.value, n)
  {
  }

  lemma DropFile(cfg: Config, c: Cell, n: FileName)
    requires Durable(cfg, c)
    requires c.job.Some? && n.Archive? ==> c.job.value.archivePath != Some(n)
    requires c.job.Some? && n.Snapshot? ==> Unrecorded(n.lease, n.service, c.job.value)
    ensures Durable(cfg, Apply(c, Unlink({n})))
  {
    if c.job.Some? { OthersUnneeded(cfg, c, n); }
  }

  // ---------------------------------------------------------------- putting a step together

  // The two halves of a step's obligation.
  ghost predicate StepOk(cfg: Config, c: Cell, a: Action) {
    Enabled(cfg, c, a) ==>
      Safe(cfg, WithLease(c, a), ScriptOf(cfg, c, a)) && CellOk(cfg, Next(cfg, c, a))
  }

  ghost predicate Lands(cfg: Config, c: Cell, sc: Script, ws: map<LeaseId, Worker>) {
    Safe(cfg, c, sc) && CellOk(cfg, Play(c, sc).(workers := ws))
  }

  lemma StepFrom(cfg: Config, c: Cell, a: Action, sc: Script, ws: map<LeaseId, Worker>)
    requires Enabled(cfg, c, a) ==> ScriptOf(cfg, c, a) == sc && WorkersAfter(cfg, c, a) == ws
    requires Lands(cfg, c, sc, ws) && !a.Claim?
    ensures StepOk(cfg, c, a)
  {
  }

  // A stretch that only moves the dispatch's own variables.
  lemma EndLands(cfg: Config, c: Cell, l: LeaseId, w': Worker)
    requires CellOk(cfg, c) && l in c.workers && WorkerOk(cfg, l, w', c.job, c.dir)
    ensures Lands(cfg, c, End, c.workers[l := w'])
  {
    assert c.(job := c.job, dir := c.dir) == c;
    ActorSteps(cfg, c, l, w', c.job, c.dir);
  }

  lemma WorkerOf(cfg: Config, c: Cell, l: LeaseId)
    requires CellOk(cfg, c) && l in c.workers
    ensures WorkerOk(cfg, l, c.workers[l], c.job, c.dir)
  {
  }

  lemma QuietStep(cfg: Config, c: Cell, a: Action, l: LeaseId, w': Worker)
    requires CellOk(cfg, c) && l in c.workers && !a.Claim? && Enabled(cfg, c, a)
    requires ScriptOf(cfg, c, a) == End && WorkersAfter(cfg, c, a) == c.workers[l := w']
    requires WorkerOk(cfg, l, w', c.job, c.dir)
    ensures StepOk(cfg, c, a)
  {
    EndLands(cfg, c, l, w');
    StepFrom(cfg, c, a, End, c.workers[l := w']);
  }

  // A stretch whose effects end in job' and dir'.
  lemma {:induction false} ActorLands(cfg: Config, c: Cell, l: LeaseId, sc: Script, w': Worker, job': Option<Job>,
                                      dir': map<FileName, Content>)
    requires CellOk(cfg, c) && l in c.workers
    requires Safe(cfg, c, sc) && Play(c, sc) == c.(job := job', dir := dir')
    requires WorkerOk(cfg, l, w', job', dir')
    requires DirFrame({l}, c.dir, dir') && JobFrame({l}, c.job, job')
    ensures Lands(cfg, c, sc, c.workers[l := w'])
  {
    PlayIsDurable(cfg, c, sc);
    ActorSteps(cfg, c, l, w', job', dir');
  }

  lemma {:induction false} LeaverLands(cfg: Config, c: Cell, l: LeaseId, sc: Script, job': Option<Job>,
                                       dir': map<FileName, Content>)
    requires CellOk(cfg, c) && l in c.workers
    requires Safe(cfg, c, sc) && Play(c, sc) == c.(job := job', dir := dir')
    requires DirFrame({l}, c.dir, dir') && JobFrame({l}, c.job, job')
    ensures Lands(cfg, c, sc, c.workers - {l})
  {
    PlayIsDurable(cfg, c, sc);
    ActorLeaves(cfg, c, l, job', dir');
  }

  // ---------------------------------------------------------------- claim

  lemma {:induction false} ClaimSafe(cfg: Config, c: Cell, a: Action)
    requires CellOk(cfg, c) && Enabled(cfg, c, a) && a.Claim?
    ensures Safe(cfg, WithLease(c, a), ScriptOf(cfg, c, a))
  {
    var j := c.job.value;
    var c0 := WithLease(c, a);
    ClaimDurable(cfg, j, c.dir, c.leases, a.lease, a.now, cfg.leaseMs);
    var c1 := Apply(c0, Save(Some(ClaimJob(j, a.lease, a.now, cfg.leaseMs))));
    SweepKeeps(cfg, c1, j);
    Script2(cfg, c0, Save(c1.job), Unlink(Swept(j, c.dir)), End);
  }

  // The sweep spares whatever the claimed row names.
  lemma SweepKeeps(cfg: Config, c: Cell, j: Job)
    requires Durable(cfg, c) && c.job.Some? && c.job.value.archivePath == j.archivePath
    ensures Durable(cfg, Apply(c, Unlink(Swept(j, c.dir))))
  {
    var c' := Apply(c, Unlink(Swept(j, c.dir)));
    forall n | n in c.dir && Needed(c.job.value, n)
      ensures n in c'.dir
    {
      NeededFilesExist(cfg, c, n);
    }
  }

  lemma NewWorkerOk(cfg: Config, j: Job, l: LeaseId, defs: seq<Service>, registry: set<Service>, usage: nat,
                    dir: map<FileName, Content>)
    requires JobOk(j) && BytesOk(cfg, j) && Owns(j, l) && !AnyRow(j, RowStatus.Running)
    requires IsWorkList(defs, j.rows, registry)
    requires j.archivePath != Some(Archive(l)) && forall s :: s in j.rows ==> Unrecorded(l, s, j)
    requires ArchiveTmp(l) !in dir
    ensures WorkerOk(cfg, l, NewWorker(cfg, j, defs, usage), Some(j), dir)
  {
    var w := NewWorker(cfg, j, defs, usage);
    FlightNone();
    assert forall s :: s in j.rows ==> !j.rows[s].status.Running?;
    forall i | 0 <= i < |defs| ensures Fresh(defs[i], w, j) { assert defs[i] in defs; }
    forall s | s in j.rows && s !in defs ensures Aside(s, w, j) { }
  }

  lemma ClaimRun(cfg: Config, c: Cell, a: Action)
    requires Enabled(cfg, c, a) && a.Claim?
    ensures var j' := ClaimJob(c.job.value, a.lease, a.now, cfg.leaseMs);
            Next(cfg, c, a) == Cell(Some(j'), c.dir - Swept(c.job.value, c.dir),
                                    c.workers[a.lease := NewWorker(cfg, j', a.defs, a.usage)],
                                    c.leases + {a.lease})
  {
    var c1 := Apply(WithLease(c, a), Save(Some(ClaimJob(c.job.value, a.lease, a.now, cfg.leaseMs))));
    assert Play(c1, Then(Unlink(Swept(c.job.value, c.dir)), End)) == Apply(c1, Unlink(Swept(c.job.value, c.dir)));
  }

  // A fresh lease is on no recorded file.
  lemma FreshLease(cfg: Config, j: Job, j': Job, dir: map<FileName, Content>, leases: set<LeaseId>, l: LeaseId)
    requires DurableJob(cfg, j, dir, leases) && l !in leases
    requires j'.archivePath == j.archivePath && j'.rows.Keys == j.rows.Keys
    requires forall s :: s in j.rows && !j.rows[s].status.Running? ==> j'.rows[s] == j.rows[s]
    requires forall s :: s in j.rows && j.rows[s].status.Running? ==> j'.rows[s].snapshot.None?
    ensures j'.archivePath != Some(Archive(l)) && forall s :: s in j'.rows ==> Unrecorded(l, s, j')
  {
  }

  lemma ClaimedJob(cfg: Config, j: Job, j': Job, dir: map<FileName, Content>, leases: set<LeaseId>,
                   l: LeaseId, now: Millis)
    requires DurableJob(cfg, j, dir, leases) && Claimable(j, now) && l !in leases
    requires j' == ClaimJob(j, l, now, cfg.leaseMs)
    ensures JobOk(j') && BytesOk(cfg, j') && Owns(j', l) && !AnyRow(j', RowStatus.Running)
    ensures j'.archivePath != Some(Archive(l)) && forall s :: s in j'.rows ==> Unrecorded(l, s, j')
  {
    ClaimJobOk(j, l, now, cfg.leaseMs);
    ClaimRows(j, l, now, cfg.leaseMs);
    FreshLease(cfg, j, j', dir, leases, l);
  }

  lemma ClaimedList(j: Job, l: LeaseId, now: Millis, leaseMs: nat, defs: seq<Service>, registry: set<Service>)
    requires JobOk(j) && Claimable(j, now) && IsWorkList(defs, j.rows, registry)
    ensures IsWorkList(defs, ClaimJob(j, l, now, leaseMs).rows, registry)
  {
    ClaimRows(j, l, now, leaseMs);
  }

  lemma ClaimWorker(cfg: Config, c: Cell, a: Action, j': Job, dir': map<FileName, Content>)
    requires Durable(cfg, c) && Enabled(cfg, c, a) && a.Claim?
    requires j' == ClaimJob(c.job.value, a.lease, a.now, cfg.leaseMs)
    requires ArchiveTmp(a.lease) !in dir'
    ensures WorkerOk(cfg, a.lease, NewWorker(cfg, j', a.defs, a.usage), Some(j'), dir')
  {
    ClaimedJob(cfg, c.job.value, j', c.dir, c.leases, a.lease, a.now);
    ClaimedList(c.job.value, a.lease, a.now, cfg.leaseMs, a.defs, a.registry);
    NewWorkerOk(cfg, j', a.lease, a.defs, a.registry, a.usage, dir');
  }

  lemma ClaimJobFrame(j: Job, l: LeaseId, now: Millis, leaseMs: nat)
    requires JobOk(j) && Claimable(j, now)
    ensures JobFrame({l}, Some(j), Some(ClaimJob(j, l, now, leaseMs)))
  {
  }

  lemma ClaimNextDurable(cfg: Config, c: Cell, a: Action)
    requires CellOk(cfg, c) && Enabled(cfg, c, a) && a.Claim?
    ensures Durable(cfg, Next(cfg, c, a))
  {
    ClaimSafe(cfg, c, a);
    PlayIsDurable(cfg, WithLease(c, a), ScriptOf(cfg, c, a));
  }

  // A new dispatch joins the ones alive.
  lemma JoinerLands(cfg: Config, c: Cell, l: LeaseId, w': Worker, job': Option<Job>, dir': map<FileName, Content>)
    requires CellOk(cfg, c) && WorkerOk(cfg, l, w', job', dir')
    requires Durable(cfg, Cell(job', dir', c.workers[l := w'], c.leases + {l}))
    requires DirFrame({l}, c.dir, dir') && JobFrame({l}, c.job, job')
    ensures CellOk(cfg, Cell(job', dir', c.workers[l := w'], c.leases + {l}))
  {
    WorkersFrame(cfg, c, Cell(job', dir', c.workers[l := w'], c.leases + {l}), {l});
  }

  lemma ClaimOk(cfg: Config, c: Cell, a: Action)
    requires CellOk(cfg, c) && Enabled(cfg, c, a) && a.Claim?
    ensures CellOk(cfg, Next(cfg, c, a))
  {
    var j' := ClaimJob(c.job.value, a.lease, a.now, cfg.leaseMs);
    var dir' := c.dir - Swept(c.job.value, c.dir);
    ClaimNextDurable(cfg, c, a);
    ClaimRun(cfg, c, a);
    ClaimWorker(cfg, c, a, j', dir');
    ClaimJobFrame(c.job.value, a.lease, a.now, cfg.leaseMs);
    JoinerLands(cfg, c, a.lease, NewWorker(cfg, j', a.defs, a.usage), Some(j'), dir');
  }

  // ---------------------------------------------------------------- taking and returning

  // The stretch in which a runner starts an attempt.
  predicate Starts(c: Cell, a: Action) {
    && a.Take? && a.lease in c.workers
    && var w := c.workers[a.lease];
       && w.phase.Fetching? && w.ready > 0 && w.next < |w.defs| && !a.abort
       && c.job.Some? && CanStart(c.job.value, a.lease, w.defs[w.next])
  }

  lemma NextIsFresh(cfg: Config, c: Cell, l: LeaseId)
    requires CellOk(cfg, c) && l in c.workers && OwnsRow(c.job, l) && c.workers[l].next < |c.workers[l].defs|
    ensures var w := c.workers[l]; Fresh(w.defs[w.next], w, c.job.value)
  {
    assert WorkerOk(cfg, l, c.workers[l], c.job, c.dir);
  }

  lemma StartSaves(cfg: Config, c: Cell, l: LeaseId, s: Service, id: AttemptId, now: Millis)
    requires Durable(cfg, c) && c.job.Some? && CanStart(c.job.value, l, s) && !c.job.value.rows[s].status.Running?
    ensures var j := Renew(c.job.value, l, now + cfg.leaseMs);
            && Durable(cfg, c.(job := Some(j)))
            && Durable(cfg, c.(job := Some(StartAttempt(j, l, s, id, now))))
  {
    var j := Renew(c.job.value, l, now + cfg.leaseMs);
    StartDurable(cfg, j, c.dir, c.leases, l, s, id, now);
  }

  lemma {:induction false} SaveSaveDrop(cfg: Config, c: Cell, j: Job, j': Job, n: FileName)
    requires Durable(cfg, c) && Durable(cfg, c.(job := Some(j))) && Durable(cfg, c.(job := Some(j'))) && n.SnapshotTmp?
    ensures var sc := Then(Save(Some(j)), Then(Save(Some(j')), Then(Unlink({n}), End)));
            && Safe(cfg, c, sc)
            && Play(c, sc) == c.(job := Some(j'), dir := c.dir - {n})
  {
    var c2 := c.(job := Some(j'));
    assert Apply(c, Save(Some(j))) == c.(job := Some(j)) && Apply(c.(job := Some(j)), Save(Some(j'))) == c2;
    DropFile(cfg, c2, n);
    DropSafe(cfg, c2, n);
    Script2(cfg, c, Save(Some(j)), Save(Some(j')), Then(Unlink({n}), End));
  }

  lemma {:induction false} DropSafe(cfg: Config, c: Cell, n: FileName)
    requires Durable(cfg, c) && Durable(cfg, Apply(c, Unlink({n})))
    ensures Safe(cfg, c, Then(Unlink({n}), End))
    ensures Play(c, Then(Unlink({n}), End)) == c.(dir := c.dir - {n})
  {
    Script1(cfg, c, Unlink({n}), End);
  }

  lemma {:induction false} StartSafe(cfg: Config, c: Cell, l: LeaseId, s: Service, id: AttemptId, now: Millis)
    requires Durable(cfg, c) && c.job.Some? && CanStart(c.job.value, l, s) && !c.job.value.rows[s].status.Running?
    ensures var j' := StartAttempt(Renew(c.job.value, l, now + cfg.leaseMs), l, s, id, now);
            var sc := StartScript(cfg, c.job.value, l, s, id, now);
            && Safe(cfg, c, sc)
            && Play(c, sc) == c.(job := Some(j'), dir := c.dir - {SnapshotTmp(s, l)})
  {
    var j := Renew(c.job.value, l, now + cfg.leaseMs);
    var j' := StartAttempt(j, l, s, id, now);
    assert StartScript(cfg, c.job.value, l, s, id, now)
        == Then(Save(Some(j)), Then(Save(Some(j')), Then(Unlink({SnapshotTmp(s, l)}), End)));
    StartSaves(cfg, c, l, s, id, now);
    SaveSaveDrop(cfg, c, j, j', SnapshotTmp(s, l));
  }

  lemma LaunchedFlights(w: Worker, id: AttemptId)
    requires w.next < |w.defs| && w.ready > 0 && w.defs[w.next] !in w.flights
    ensures |Launched(w, id).flights| == |w.flights| + 1
    ensures FlightBytes(Launched(w, id).flights) == FlightBytes(w.flights)
  {
    var s := w.defs[w.next];
    FlightSet(w.flights, s, Flight(id, 0, false, false));
    assert Launched(w, id).flights.Keys == w.flights.Keys + {s};
    assert |Launched(w, id).flights.Keys| == |w.flights.Keys| + 1;
  }

  lemma StartPool(cfg: Config, l: LeaseId, w: Worker, id: AttemptId, dir: map<FileName, Content>)
    requires PoolOk(cfg, w) && FilesOk(cfg, l, w, dir) && UsageOk(w)
    requires w.phase.Fetching? && w.ready > 0 && w.next < |w.defs|
    ensures var w' := Launched(w, id);
            PoolOk(cfg, w') && FilesOk(cfg, l, w', dir - {SnapshotTmp(w.defs[w.next], l)}) && UsageOk(w')
  {
    var dir' := dir - {SnapshotTmp(w.defs[w.next], l)};
    var w' := Launched(w, id);
    LaunchedFlights(w, id);
    forall t: Service | t in w'.flights
      ensures FlightOk(cfg, l, t, w'.flights[t], dir')
    {
      if t in w.flights { assert FlightOk(cfg, l, t, w.flights[t], dir'); }
    }
  }

  // The job after a start, seen only through what the dispatch relies on.
  predicate StartedJob(j: Job, j': Job, s: Service, id: AttemptId, now: Millis) {
    && s in j.rows
    && j'.rows == j.rows[s := StartedRow(j.rows[s], id, now)]
    && j'.archivePath == j.archivePath && j'.archiveBytes == j.archiveBytes
  }

  lemma StartProgress(cfg: Config, w: Worker, j: Job, j': Job, id: AttemptId, now: Millis)
    requires PoolOk(cfg, w) && Progress(w, j)
    requires w.phase.Fetching? && w.ready > 0 && w.next < |w.defs| && StartedJob(j, j', w.defs[w.next], id, now)
    ensures Progress(Launched(w, id), j')
  {
    var w' := Launched(w, id);
    LaunchedFlights(w, id);
    forall i | w'.next <= i < |w'.defs|
      ensures Fresh(w'.defs[i], w', j')
    {
      assert Fresh(w.defs[i], w, j);
    }
    assert Fresh(w.defs[w.next], w, j);
    forall i | 0 <= i < w'.next && i < |w'.defs| ensures Passed(w'.defs[i], w', j') {
      if i < w.next { assert Passed(w.defs[i], w, j); }
    }
    forall s | s in j'.rows && s !in w'.defs ensures Aside(s, w', j') { assert Aside(s, w, j); }
  }

  lemma StartHeld(cfg: Config, w: Worker, j: Job, j': Job, id: AttemptId, now: Millis)
    requires PoolOk(cfg, w) && Held(cfg, w, j) && RowsOk(j)
    requires w.phase.Fetching? && w.ready > 0 && w.next < |w.defs| && StartedJob(j, j', w.defs[w.next], id, now)
    ensures Held(cfg, Launched(w, id), j')
  {
    var s := w.defs[w.next];
    StartProgress(cfg, w, j, j', id, now);
    LaunchedFlights(w, id);
    assert Fresh(s, w, j);
    BytesUpdate(j.rows, s, StartedRow(j.rows[s], id, now));
    forall t | t in Launched(w, id).flights
      ensures Flying(t, Launched(w, id).flights[t], j')
    {
      if t != s { assert Flying(t, w.flights[t], j); }
    }
  }

  lemma StartUnrecorded(cfg: Config, l: LeaseId, w: Worker, j: Job, j': Job, id: AttemptId, now: Millis)
    requires PoolOk(cfg, w) && UnrecordedOk(l, w, j)
    requires w.ready > 0 && w.next < |w.defs| && StartedJob(j, j', w.defs[w.next], id, now)
    ensures UnrecordedOk(l, Launched(w, id), j')
  {
  }

  lemma StartWorker(cfg: Config, l: LeaseId, w: Worker, j: Job, j': Job, id: AttemptId, now: Millis,
                    dir: map<FileName, Content>)
    requires WorkerOk(cfg, l, w, Some(j), dir) && Owns(j, l) && RowsOk(j)
    requires w.phase.Fetching? && w.ready > 0 && w.next < |w.defs| && StartedJob(j, j', w.defs[w.next], id, now)
    ensures WorkerOk(cfg, l, Launched(w, id), Some(j'), dir - {SnapshotTmp(w.defs[w.next], l)})
  {
    StartPool(cfg, l, w, id, dir);
    StartHeld(cfg, w, j, j', id, now);
    StartUnrecorded(cfg, l, w, j, j', id, now);
  }

  lemma StartsScript(cfg: Config, c: Cell, a: Action)
    requires Starts(c, a)
    ensures var w := c.workers[a.lease];
            var s := w.defs[w.next];
            && Enabled(cfg, c, a)
            && ScriptOf(cfg, c, a) == StartScript(cfg, c.job.value, a.lease, s, a.attempt, a.now)
            && WorkersAfter(cfg, c, a) == c.workers[a.lease := Launched(w, a.attempt)]
  {
  }

  lemma StartsOk(cfg: Config, c: Cell, a: Action)
    requires CellOk(cfg, c) && Starts(c, a)
    ensures StepOk(cfg, c, a)
  {
    var w := c.workers[a.lease];
    var s := w.defs[w.next];
    var sc := StartScript(cfg, c.job.value, a.lease, s, a.attempt, a.now);
    StartsScript(cfg, c, a);
    StartsCell(cfg, c, a.lease, w, s, a.attempt, a.now);
    StepFrom(cfg, c, a, sc, c.workers[a.lease := Launched(w, a.attempt)]);
  }

  lemma StartsCell(cfg: Config, c: Cell, l: LeaseId, w: Worker, s: Service, id: AttemptId, now: Millis)
    requires CellOk(cfg, c) && l in c.workers && c.workers[l] == w && c.job.Some?
    requires w.phase.Fetching? && w.ready > 0 && w.next < |w.defs| && s == w.defs[w.next]
    requires CanStart(c.job.value, l, s)
    ensures Lands(cfg, c, StartScript(cfg, c.job.value, l, s, id, now), c.workers[l := Launched(w, id)])
  {
    var j' := StartAttempt(Renew(c.job.value, l, now + cfg.leaseMs), l, s, id, now);
    NextIsFresh(cfg, c, l);
    StartSafe(cfg, c, l, s, id, now);
    StartWorker(cfg, l, w, c.job.value, j', id, now, c.dir);
    StartFrame(l, c.job.value, j', s, id, now);
    ActorLands(cfg, c, l, StartScript(cfg, c.job.value, l, s, id, now), Launched(w, id), Some(j'),
               c.dir - {SnapshotTmp(s, l)});
  }

  lemma StartFrame(l: LeaseId, j: Job, j': Job, s: Service, id: AttemptId, now: Millis)
    requires StartedJob(j, j', s, id, now) && j'.leaseId == Some(l)
    ensures JobFrame({l}, Some(j), Some(j'))
  {
  }

  lemma SkippedWorker(cfg: Config, l: LeaseId, w: Worker, job: Option<Job>, dir: map<FileName, Content>, abort: bool)
    requires WorkerOk(cfg, l, w, job, dir) && w.phase.Fetching? && w.ready > 0 && w.next < |w.defs|
    requires abort || !OwnsRow(job, l)
    ensures WorkerOk(cfg, l, Skipped(w, abort), job, dir)
  {
    var w' := Skipped(w, abort);
    assert FilesOk(cfg, l, w', dir) by {
      forall s | s in w'.flights ensures FlightOk(cfg, l, s, w'.flights[s], dir) {
        assert FlightOk(cfg, l, s, w.flights[s], dir);
      }
    }
    if OwnsRow(job, l) { SkippedProgress(cfg, w, w', job.value); }
  }

  lemma SkippedProgress(cfg: Config, w: Worker, w': Worker, j: Job)
    requires PoolOk(cfg, w) && Progress(w, j) && w.phase.Fetching? && w.ready > 0 && w.next < |w.defs|
    requires w' == Skipped(w, true)
    ensures Progress(w', j)
  {
    forall i | w'.next <= i < |w'.defs| ensures Fresh(w'.defs[i], w', j) { assert Fresh(w.defs[i], w, j); }
    forall i | 0 <= i < w'.next && i < |w'.defs| ensures Passed(w'.defs[i], w', j) {
      if i < w.next { assert Passed(w.defs[i], w, j); } else { assert Fresh(w.defs[i], w, j); }
    }
    forall s | s in j.rows && s !in w'.defs ensures Aside(s, w', j) { assert Aside(s, w, j); }
  }

  lemma IdleWorker(cfg: Config, l: LeaseId, w: Worker, job: Option<Job>, dir: map<FileName, Content>)
    requires WorkerOk(cfg, l, w, job, dir) && w.phase.Fetching? && w.ready > 0 && w.next == |w.defs|
    ensures WorkerOk(cfg, l, w.(ready := w.ready - 1), job, dir)
  {
    if OwnsRow(job, l) { SameProgress(w, w.(ready := w.ready - 1), job.value); }
  }

  lemma TakeOk(cfg: Config, c: Cell, a: Action)
    requires CellOk(cfg, c) && Enabled(cfg, c, a) && a.Take?
    ensures StepOk(cfg, c, a)
  {
    var l := a.lease;
    var w := c.workers[l];
    if w.next == |w.defs| {
      LeaveLoopOk(cfg, c, a, w, w.(ready := w.ready - 1));
    } else if a.abort || !OwnsRow(c.job, l) {
      SkipOk(cfg, c, a, w);
    } else {
      NextIsFresh(cfg, c, l);
      StartsOk(cfg, c, a);
    }
  }

  lemma LeaveLoopOk(cfg: Config, c: Cell, a: Action, w: Worker, w': Worker)
    requires CellOk(cfg, c) && Enabled(cfg, c, a) && a.Take? && w == c.workers[a.lease]
    requires w.next == |w.defs| && w' == w.(ready := w.ready - 1)
    ensures StepOk(cfg, c, a)
  {
    WorkerOf(cfg, c, a.lease);
    IdleWorker(cfg, a.lease, w, c.job, c.dir);
    EndLands(cfg, c, a.lease, w');
    LeaveLoopParts(cfg, c, a, w, w');
    StepFrom(cfg, c, a, End, c.workers[a.lease := w']);
  }

  lemma LeaveLoopParts(cfg: Config, c: Cell, a: Action, w: Worker, w': Worker)
    requires Enabled(cfg, c, a) && a.Take? && w == c.workers[a.lease]
    requires w.next == |w.defs| && w' == w.(ready := w.ready - 1)
    ensures ScriptOf(cfg, c, a) == End && WorkersAfter(cfg, c, a) == c.workers[a.lease := w']
  {
  }

  lemma SkipParts(cfg: Config, c: Cell, a: Action, w: Worker)
    requires Enabled(cfg, c, a) && a.Take? && w == c.workers[a.lease]
    requires w.next < |w.defs| && (a.abort || !OwnsRow(c.job, a.lease))
    ensures w.phase.Fetching? && w.ready > 0 && ScriptOf(cfg, c, a) == End
    ensures WorkersAfter(cfg, c, a) == c.workers[a.lease := Skipped(w, a.abort)]
  {
  }

  lemma SkipOk(cfg: Config, c: Cell, a: Action, w: Worker)
    requires CellOk(cfg, c) && Enabled(cfg, c, a) && a.Take? && w == c.workers[a.lease]
    requires w.next < |w.defs| && (a.abort || !OwnsRow(c.job, a.lease))
    ensures StepOk(cfg, c, a)
  {
    SkipParts(cfg, c, a, w);
    WorkerOf(cfg, c, a.lease);
    SkippedWorker(cfg, a.lease, w, c.job, c.dir, a.abort);
    QuietStep(cfg, c, a, a.lease, Skipped(w, a.abort));
  }

  lemma ReturnedWorker(cfg: Config, l: LeaseId, w: Worker, job: Option<Job>, dir: map<FileName, Content>)
    requires WorkerOk(cfg, l, w, job, dir) && w.phase.Fetching? && w.returned > 0
    ensures WorkerOk(cfg, l, Returned(w, OwnsRow(job, l)), job, dir)
  {
  }

  lemma ReturnParts(cfg: Config, c: Cell, a: Action, w: Worker, w': Worker)
    requires Enabled(cfg, c, a) && a.Return? && w == c.workers[a.lease] && w' == Returned(w, OwnsRow(c.job, a.lease))
    ensures w.phase.Fetching? && w.returned > 0
    ensures ScriptOf(cfg, c, a) == End && WorkersAfter(cfg, c, a) == c.workers[a.lease := w']
  {
  }

  lemma ReturnOk(cfg: Config, c: Cell, a: Action)
    requires CellOk(cfg, c) && Enabled(cfg, c, a) && a.Return?
    ensures StepOk(cfg, c, a)
  {
    var w := c.workers[a.lease];
    var w' := Returned(w, OwnsRow(c.job, a.lease));
    ReturnParts(cfg, c, a, w, w');
    WorkerOf(cfg, c, a.lease);
    ReturnedWorker(cfg, a.lease, w, c.job, c.dir);
    QuietStep(cfg, c, a, a.lease, w');
  }
}
