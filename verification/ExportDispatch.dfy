// dispatchExportJobBatch as code: closure variables, the budget object, and one
// method per stretch between two awaits. Each method is proved to perform exactly
// the effects of its step, in the step's order, and to leave the variables the
// step model says.
module ExportDispatch {
  import opened Common
  import opened MapSums
  import opened ExportRows
  import opened ExportCell
  import opened ExportDatabase
  import opened ExportStorage
  import opened ExportDisk

  const RESPONSE_LIMIT := "Service response exceeded its size limit"
  const AGGREGATE_LIMIT := "Export exceeded its aggregate size limit"
  const QUOTA_EXCEEDED := "Export storage quota exceeded"
  const RESERVE_REACHED := "Export storage free-space reserve reached"
  const RETAINED_REACHED := "Per-user retained export artifact limit reached"

  function Effects(s: Script): seq<Effect>
    decreases s
  {
    match s
    case End => []
    case Then(e, rest) => [e] + Effects(rest)
  }

  // Rows and files do not depend on who is running.
  lemma {:induction false} PlayWorkers(c: Cell, s: Script, ws: map<LeaseId, Worker>)
    ensures Play(c.(workers := ws), s) == Play(c, s).(workers := ws)
    decreases s
  {
    if s.Then? {
      assert Apply(c.(workers := ws), s.effect) == Apply(c, s.effect).(workers := ws);
      PlayWorkers(Apply(c, s.effect), s.rest, ws);
    }
  }

  lemma {:induction false} EffectsCons(e: Effect, rest: Script)
    ensures Effects(Then(e, rest)) == [e] + Effects(rest)
  {
  }

  lemma {:induction false} PlayCons(c: Cell, e: Effect, rest: Script)
    ensures Play(c, Then(e, rest)) == Play(Apply(c, e), rest)
  {
  }

  lemma {:induction false} Effects3(e: Effect, f: Effect, g: Effect, rest: Script, tail: seq<Effect>)
    requires tail == Effects(rest)
    ensures Effects(Then(e, Then(f, Then(g, rest)))) == [e, f, g] + tail
  {
    EffectsCons(e, Then(f, Then(g, rest)));
    assert [e] + ([f, g] + tail) == [e, f, g] + tail;
  }

  lemma {:induction false} Plays1(c: Cell, e: Effect)
    ensures Play(c, Then(e, End)) == Apply(c, e) && Effects(Then(e, End)) == [e]
  {
  }

  lemma {:induction false} Plays2(c: Cell, e: Effect, f: Effect, rest: Script)
    ensures Play(c, Then(e, Then(f, rest))) == Play(Apply(Apply(c, e), f), rest)
    ensures Effects(Then(e, Then(f, rest))) == [e, f] + Effects(rest)
  {
  }

  lemma {:induction false} Plays3(c: Cell, e: Effect, f: Effect, g: Effect, rest: Script)
    ensures Play(c, Then(e, Then(f, Then(g, rest)))) == Play(Apply(Apply(Apply(c, e), f), g), rest)
    ensures Effects(Then(e, Then(f, Then(g, rest)))) == [e, f, g] + Effects(rest)
  {
    PlayCons(c, e, Then(f, Then(g, rest)));
    PlayCons(Apply(c, e), f, Then(g, rest));
    PlayCons(Apply(Apply(c, e), f), g, rest);
    Effects3(e, f, g, rest, Effects(rest));
  }

  // storageBudget(...)
  class StorageBudget {
    const cfg: Config
    var usage: int

    constructor (cfg: Config, usage: int)
      ensures this.cfg == cfg && this.usage == usage
    {
      this.cfg := cfg;
      this.usage := usage;
    }

    method Check(bytes: int, free: int) returns (error: Option<string>)
      ensures error.None? <==> usage + bytes <= cfg.storageQuotaBytes && cfg.minFreeBytes <= free - bytes
      ensures cfg.storageQuotaBytes < usage + bytes <==> error == Some("Export storage quota exceeded")
      ensures usage + bytes <= cfg.storageQuotaBytes && free - bytes < cfg.minFreeBytes <==>
                error == Some("Export storage free-space reserve reached")
    {
      if usage + bytes > cfg.storageQuotaBytes { return Some(QUOTA_EXCEEDED); }
      if free - bytes < cfg.minFreeBytes { return Some(RESERVE_REACHED); }
      return None;
    }

    method Reserve(bytes: nat, free: int) returns (error: Option<string>)
      modifies this
      ensures error.None? <==> old(usage) + bytes <= cfg.storageQuotaBytes && cfg.minFreeBytes <= free - bytes
      ensures error.Some? ==> error == if cfg.storageQuotaBytes < old(usage) + bytes then Some(QUOTA_EXCEEDED)
                                       else Some(RESERVE_REACHED)
      ensures usage == if error.None? then old(usage) + bytes else old(usage)
    {
      error := Check(bytes, free);
      if error.None? { usage := usage + bytes; }
    }

    method Release(bytes: nat)
      modifies this
      ensures usage == Max(0, old(usage) - bytes)
    {
      usage := Max(0, usage - bytes);
    }
  }

  function AttemptScript(cfg: Config, job: Option<Job>, l: LeaseId, s: Service, now: Millis, id: AttemptId,
                         abort: bool): Script
  {
    if abort || !OwnsRow(job, l) then End
    else if CanStart(job.value, l, s) then StartScript(cfg, job.value, l, s, id, now)
    else Then(Save(Renewed(job, l, now + cfg.leaseMs)), End)
  }

  lemma TakeParts(cfg: Config, c: Cell, l: LeaseId, now: Millis, id: AttemptId, abort: bool)
    requires l in c.workers && c.workers[l].phase.Fetching? && c.workers[l].ready > 0
    requires c.workers[l].next <= |c.workers[l].defs|
    ensures var a, w := Take(l, now, id, abort), c.workers[l];
            && Enabled(cfg, c, a)
            && (w.next == |w.defs| ==>
                  ScriptOf(cfg, c, a) == End && WorkerAfter(cfg, c, a) == Some(w.(ready := w.ready - 1)))
            && (w.next < |w.defs| ==>
                  && ScriptOf(cfg, c, a) == AttemptScript(cfg, c.job, l, w.defs[w.next], now, id, abort)
                  && WorkerAfter(cfg, c, a) ==
                       Some(if abort || c.job.None? || !CanStart(c.job.value, l, w.defs[w.next])
                            then Skipped(w, abort) else Launched(w, id)))
  {
  }

  lemma SucceedShape(cfg: Config, c: Cell, l: LeaseId, s: Service, now: Millis)
    requires InFlight(c, l, s) && !c.workers[l].flights[s].refused && SnapshotTmp(s, l) in c.dir && OwnsRow(c.job, l)
    ensures var a := Succeed(l, s, now);
            && Enabled(cfg, c, a) && WorkerAfter(cfg, c, a) == Some(Landed(c.workers[l], s))
            && ScriptOf(cfg, c, a) ==
                SucceedScript(c.job.value, l, s, c.workers[l].flights[s], now, c.dir[SnapshotTmp(s, l)])
  {
  }

  lemma FailShape(cfg: Config, c: Cell, l: LeaseId, s: Service, now: Millis, error: string)
    requires InFlight(c, l, s)
    ensures var a := Fail(l, s, now, error);
            && Enabled(cfg, c, a) && WorkerAfter(cfg, c, a) == Some(Crashed(c.workers[l], s))
            && ScriptOf(cfg, c, a) == FailScript(c.job, l, s, c.workers[l].flights[s], now, error)
  {
  }

  lemma FinishShape(cfg: Config, c: Cell, l: LeaseId, now: Millis, retained: nat, free: int, error: Option<string>,
                    st: JobStatus)
    requires l in c.workers && Drained(c.workers[l]) && OwnsRow(c.job, l) && st == FinalStatus(c.job.value)
    requires !st.Failed?
    requires error == FinishError(cfg, c.workers[l], retained, free)
    ensures var a, w := Finish(l, now, retained, free), c.workers[l];
            && Enabled(cfg, c, a)
            && (error.Some? ==>
                  && ScriptOf(cfg, c, a) == GiveUpScript(cfg, c.job, l, w, now, error.value)
                  && WorkerAfter(cfg, c, a) == None)
            && (error.None? ==> ScriptOf(cfg, c, a) == ZipStartScript(c.job, l, now + cfg.leaseMs)
                                && WorkerAfter(cfg, c, a) == Some(Zipper(w, st, now)))
  {
  }

  lemma EmptyShape(cfg: Config, c: Cell, l: LeaseId, now: Millis, retained: nat, free: int)
    requires l in c.workers && Drained(c.workers[l]) && OwnsRow(c.job, l) && FinalStatus(c.job.value).Failed?
    ensures var a, w := Finish(l, now, retained, free), c.workers[l];
            var e := Save(Published(cfg, c.job, l, JobStatus.Failed, now, w.oldPath, w.oldBytes, None));
            && Enabled(cfg, c, a) && WorkerAfter(cfg, c, a) == None
            && ScriptOf(cfg, c, a) == Then(e, End)
            && Effects(Then(e, End)) == [e] && (forall d :: Play(d, Then(e, End)) == Apply(d, e))
  {
  }

  lemma {:induction false} PublishUnfolds(cfg: Config, c: Cell, l: LeaseId, w: Worker, size: nat)
    requires w.phase.Zipping?
    ensures var job' := NewArchive(cfg, c.job, l, w, size);
            var e, f, g := Move(ArchiveTmp(l), Archive(l)), Save(job'), Unlink(Loser(c.job, l, w));
            && Play(c, PublishScript(cfg, c.job, l, w, size)) == Play(Apply(Apply(Apply(c, e), f), g), Finally(job'))
            && Effects(PublishScript(cfg, c.job, l, w, size)) == [e, f, g] + Effects(Finally(job'))
  {
    var job' := NewArchive(cfg, c.job, l, w, size);
    Plays3(c, Move(ArchiveTmp(l), Archive(l)), Save(job'), Unlink(Loser(c.job, l, w)), Finally(job'));
  }

  // The claim leaves what the sweep and the work list read as it was.
  lemma ClaimedRow(cfg: Config, j: Job, l: LeaseId, now: Millis, defs: seq<Service>,
                   registry: set<Service>, dir: map<FileName, Content>)
    ensures var j' := ClaimJob(j, l, now, cfg.leaseMs);
            && Swept(j', dir) == Swept(j, dir)
            && (IsWorkList(defs, j'.rows, registry) <==> IsWorkList(defs, j.rows, registry))
  {
  }

  lemma ClaimShape(cfg: Config, c: Cell, l: LeaseId, now: Millis, registry: set<Service>, defs: seq<Service>,
                   usage: nat)
    requires c.job.Some? && c.workers == map[] && c.leases == {}
    requires Claimable(c.job.value, now) && IsWorkList(defs, c.job.value.rows, registry)
    ensures var a := Claim(l, now, registry, defs, usage);
            var e, f := Save(Some(ClaimJob(c.job.value, l, now, cfg.leaseMs))), Unlink(Swept(c.job.value, c.dir));
            && Enabled(cfg, c, a)
            && Effects(ScriptOf(cfg, c, a)) == [e, f]
            && Next(cfg, c, a) == Cell(e.job, c.dir - f.names, map[l := NewWorker(cfg, e.job.value, defs, usage)], {l})
  {
    var a := Claim(l, now, registry, defs, usage);
    var e, f := Save(Some(ClaimJob(c.job.value, l, now, cfg.leaseMs))), Unlink(Swept(c.job.value, c.dir));
    Plays2(WithLease(c, a), e, f, End);
    assert WorkersAfter(cfg, c, a) == map[l := NewWorker(cfg, e.job.value, defs, usage)];
  }

  // The status chosen by counting succeeded rows.
  lemma CountDecides(j: Job)
    requires j.rows != map[]
    ensures var n := |set s | s in j.rows && j.rows[s].status.Succeeded?|;
            && (n == |j.rows| <==> AllRows(j, RowStatus.Succeeded))
            && (n > 0 <==> AnyRow(j, RowStatus.Succeeded))
            && (n == 0 <==> FinalStatus(j).Failed?)
  {
    var done := set s | s in j.rows && j.rows[s].status.Succeeded?;
    assert |j.rows| == |j.rows.Keys| && done <= j.rows.Keys;
    if |done| == |j.rows.Keys| { SameSize(done, j.rows.Keys); }
    assert |done| > 0 ==> exists s :: s in done;
    var s :| s in j.rows;
    if AllRows(j, RowStatus.Succeeded) { assert done == j.rows.Keys; }
    if AnyRow(j, RowStatus.Succeeded) {
      var t :| t in j.rows && j.rows[t].status == RowStatus.Succeeded;
      assert t in done;
    }
  }

  lemma SameSize<T>(a: set<T>, b: set<T>)
    requires a <= b && |a| == |b|
    ensures a == b
  {
    if a != b {
      var x :| x in b && x !in a;
      var rest := b - {x};
      assert a <= rest;
      SizeBound(a, rest);
    }
  }

  lemma {:induction false} SizeBound<T>(a: set<T>, b: set<T>)
    requires a <= b
    ensures |a| <= |b|
    decreases |a|
  {
    if a != {} {
      var x :| x in a;
      SizeBound(a - {x}, b - {x});
    }
  }

  // The claim's sweep over readdirSync.
  method SweepDirectory(disk: Disk, id: JobId, retained: Option<FileName>)
    modifies disk
    ensures disk.Files(id) ==
              old(disk.Files(id)) - (set n | n in old(disk.Files(id)) && !n.Snapshot? && retained != Some(n))
    ensures disk.Only(id)
  {
    ghost var before := disk.Files(id);
    ghost var others := disk.dirs - {id};
    ghost var gone: set<FileName> := {};
    var rest := disk.Files(id).Keys;
    while rest != {}
      invariant rest <= before.Keys && disk.Files(id) == before - gone && disk.dirs - {id} == others
      invariant forall n :: n in gone <==> n in before && n !in rest && !n.Snapshot? && retained != Some(n)
      decreases |rest|
    {
      var n :| n in rest;
      rest := rest - {n};
      if !n.Snapshot? && retained != Some(n) {
        disk.Remove(id, n);
        assert before - gone - {n} == before - (gone + {n});
        gone := gone + {n};
      }
    }
    assert gone == set n | n in before && !n.Snapshot? && retained != Some(n);
  }

  // SELECT COALESCE(SUM(bytes), 0) FROM export_job_services WHERE status = 'succeeded'
  method RecordedBytes(rows: map<Service, ServiceRow>) returns (bytes: nat)
    ensures bytes == SucceededBytes(rows)
  {
    bytes := 0;
    var rest := rows.Keys;
    ghost var column: map<Service, int> := map s | s in rows :: RowBytes(rows[s]);
    assert column.Keys == rest;
    SumNone(column);
    while rest != {}
      invariant rest <= rows.Keys && bytes == Sum(column - rest)
      decreases |rest|
    {
      var s :| s in rest;
      SumPeel(column, rest, s);
      rest := rest - {s};
      bytes := bytes + RowBytes(rows[s]);
    }
  }

  // The pending services in row order that the registry still serves.
  method ListWork(rows: map<Service, ServiceRow>, registry: set<Service>, order: seq<Service>)
    returns (defs: seq<Service>)
    requires forall s :: s in rows ==> s in order
    requires forall i, j :: 0 <= i < j < |order| ==> order[i] != order[j]
    ensures IsWorkList(defs, rows, registry)
    ensures forall i, j :: 0 <= i < j < |defs| ==> defs[i] != defs[j]
    ensures forall s :: s in defs <==> s in rows && !rows[s].status.Succeeded? && s in registry
  {
    defs := [];
    for k := 0 to |order|
      invariant forall i, j :: 0 <= i < j < |defs| ==> defs[i] != defs[j]
      invariant forall s :: s in defs <==> s in order[..k] && s in rows && !rows[s].status.Succeeded? && s in registry
    {
      if order[k] in rows && !rows[order[k]].status.Succeeded? && order[k] in registry { defs := defs + [order[k]]; }
    }
    assert order[..|order|] == order;
  }

  // Other jobs' rows and files are untouched.
  twostate predicate OthersUntouched(db: Database, disk: Disk, id: JobId)
    reads db, disk
  {
    && disk.Only(id)
    && db.jobs - {id} == old(db.jobs) - {id}
    && (id in db.jobs <==> id in old(db.jobs))
  }

  class Dispatch {
    const cfg: Config
    const id: JobId
    const lease: LeaseId
    const db: Database
    const disk: Disk
    const storage: StorageBudget

    // Closure variables of the batch and of the runners.
    const defs: seq<Service>
    const pool: nat
    const oldPath: Option<FileName>
    const oldBytes: Option<nat>
    var next: nat
    var aggregateBytes: int
    var flights: map<Service, Flight>
    var phase: Phase
    // Where the runners stand, and whether the batch is still running.
    var ready: nat
    var returned: nat
    var live: bool
    // History.
    ghost const base: map<Service, ServiceRow>
    ghost var skipped: set<Service>
    ghost var log: seq<Effect>

    // The start of a batch once its job is claimed: sweep, scan the export directory,
    // sum the recorded bytes, list the work.
    constructor (cfg: Config, db: Database, disk: Disk, id: JobId, lease: LeaseId, registry: set<Service>,
                 order: seq<Service>)
      requires id in db.jobs && forall s :: s in db.jobs[id].rows ==> s in order
      requires forall i, j :: 0 <= i < j < |order| ==> order[i] != order[j]
      modifies disk
      ensures this.cfg == cfg && this.id == id && this.lease == lease && this.db == db && this.disk == disk && live
      ensures fresh(storage) && storage.cfg == cfg && 0 <= storage.usage == DiskBytes(disk.dirs)
      ensures log == [Save(Row()), Unlink(Swept(db.jobs[id], old(disk.Files(id))))]
      ensures disk.Files(id) == old(disk.Files(id)) - Swept(db.jobs[id], old(disk.Files(id))) && disk.Only(id)
      ensures View() == NewWorker(cfg, db.jobs[id], defs, storage.usage) && IsWorkList(defs, db.jobs[id].rows, registry)
    {
      var job := db.jobs[id];
      ghost var swept := Swept(job, disk.Files(id));
      SweepDirectory(disk, id, job.archivePath);
      var usage := disk.DirectoryBytes();
      var aggregate := RecordedBytes(job.rows);
      var list := ListWork(job.rows, registry, order);
      this.cfg, this.id, this.lease, this.db, this.disk := cfg, id, lease, db, disk;
      this.storage := new StorageBudget(cfg, usage);
      this.defs, this.pool, this.oldPath, this.oldBytes :=
          list, Min(cfg.maxConcurrency, |list|), job.archivePath, job.archiveBytes;
      this.base := job.rows;
      next, aggregateBytes, flights, phase := 0, aggregate, map[], Fetching;
      ready, returned, live, skipped := Min(cfg.maxConcurrency, |list|), 0, true, {};
      log := [Save(Some(job)), Unlink(swept)];
    }

    ghost function View(): Worker
      reads this, storage
    {
      Worker(defs, next, pool, ready, returned, flights, aggregateBytes, storage.usage, oldPath, oldBytes, phase,
          skipped, base)
    }

    function Row(): Option<Job>
      reads db
    {
      if id in db.jobs then Some(db.jobs[id]) else None
    }

    // What persists, as the step model sees it.
    function Here(): Cell
      reads db, disk
    {
      Cell(Row(), disk.Files(id), map[], {lease})
    }

    ghost function State(): Cell
      reads this, storage, db, disk
    {
      Here().(workers := if live then map[lease := View()] else map[])
    }

    twostate predicate Mine()
      reads db, disk
    {
      OthersUntouched(db, disk, id)
    }

    // The stretch between two awaits that the step model calls `a`: the same effects
    // in the same order, the same rows and files, the same variables.
    twostate predicate Did(a: Action)
      requires HasLease(a)
      reads this, storage, db, disk
    {
      && Enabled(cfg, old(State()), a)
      && log == old(log) + Effects(ScriptOf(cfg, old(State()), a))
      && Here() == Play(old(Here()), ScriptOf(cfg, old(State()), a))
      && (if live then Some(View()) else None) == WorkerAfter(cfg, old(State()), a)
      && Mine()
    }

    // Hence the object goes where the step model goes.
    twostate lemma DidIsNext(a: Action)
      requires HasLease(a) && !a.Claim? && a.lease == lease && old(live) && Did(a)
      ensures State() == Next(cfg, old(State()), a)
    {
      var was := old(State());
      PlayWorkers(old(Here()), ScriptOf(cfg, was, a), was.workers);
      assert WithLease(was, a) == was;
      assert WorkersAfter(cfg, was, a) == if live then map[lease := View()] else map[];
    }

    // ---------------------------------------------------------------- single effects

    method RenewLease(until: Millis)
      modifies db, this`log
      ensures log == old(log) + [Save(Renewed(old(Row()), lease, until))]
      ensures Row() == Renewed(old(Row()), lease, until) && Mine()
    {
      db.RenewLease(id, lease, until);
      log := log + [Save(Row())];
    }

    method Remove(name: FileName)
      modifies disk, this`log
      ensures log == old(log) + [Unlink({name})]
      ensures Here() == Apply(old(Here()), Unlink({name})) && Mine()
    {
      disk.Remove(id, name);
      log := log + [Unlink({name})];
    }

    method Write(name: FileName, data: Content)
      modifies disk, this`log
      ensures log == old(log) + [ExportCell.Put(name, data)]
      ensures Here() == Apply(old(Here()), ExportCell.Put(name, data)) && Mine()
    {
      disk.Write(id, name, data);
      log := log + [ExportCell.Put(name, data)];
    }

    method Rename(from: FileName, to: FileName)
      requires from in disk.Files(id)
      modifies disk, this`log
      ensures log == old(log) + [Move(from, to)]
      ensures Here() == Apply(old(Here()), Move(from, to)) && Mine()
    {
      disk.Rename(id, from, to);
      log := log + [Move(from, to)];
    }

    // ---------------------------------------------------------------- runners

    // attemptService up to its first await.
    method AttemptService(service: Service, now: Millis, attempt: AttemptId, abort: bool) returns (started: bool)
      modifies this`log, db, disk
      ensures started <==> !abort && old(Row()).Some? && CanStart(old(Row()).value, lease, service)
      ensures log == old(log) + Effects(AttemptScript(cfg, old(Row()), lease, service, now, attempt, abort))
      ensures Here() == Play(old(Here()), AttemptScript(cfg, old(Row()), lease, service, now, attempt, abort)) && Mine()
    {
      var owns := db.OwnsLease(id, lease);
      if abort || !owns { return false; }
      ghost var job := Row().value;
      ghost var job1 := Renew(job, lease, now + cfg.leaseMs);
      Plays1(Here(), Save(Some(job1)));
      Plays3(Here(), Save(Some(job1)), Save(Some(StartAttempt(job1, lease, service, attempt, now))),
             Unlink({SnapshotTmp(service, lease)}), End);
      RenewLease(now + cfg.leaseMs);
      started := db.StartServiceAttempt(id, lease, service, now, attempt);
      if !started { return; }
      log := log + [Save(Row())];
      Remove(SnapshotTmp(service, lease));
    }

    // One turn of a runner's loop.
    method Take(now: Millis, attempt: AttemptId, abort: bool)
      requires live && phase.Fetching? && ready > 0 && next <= |defs|
      modifies this`next, this`ready, this`returned, this`flights, this`skipped, this`log, db, disk
      ensures Did(Action.Take(lease, now, attempt, abort))
    {
      TakeParts(cfg, State(), lease, now, attempt, abort);
      ready := ready - 1;
      if next == |defs| { return; }
      var service := defs[next];
      next := next + 1;
      var started := AttemptService(service, now, attempt, abort);
      if started {
        flights := flights[service := Flight(attempt, 0, false, false)];
      } else {
        returned := returned + 1;
        if abort { skipped := skipped + {service}; }
      }
    }

    // attemptService has returned: keep looping only while the lease is held.
    method Return()
      requires live && phase.Fetching? && returned > 0
      modifies this`ready, this`returned
      ensures Did(Action.Return(lease))
    {
      returned := returned - 1;
      var owns := db.OwnsLease(id, lease);
      if owns { ready := ready + 1; }
    }

    // ---------------------------------------------------------------- one attempt

    // reserve(bytes): three limits in order, then every counter at once.
    method Reserve(service: Service, bytes: nat, free: int) returns (error: Option<string>)
      requires service in flights && storage.cfg == cfg
      modifies this`flights, this`aggregateBytes, storage
      ensures error.None? <==> ReserveAllows(cfg, old(View()), old(flights)[service], bytes, free)
      ensures View() == if error.None?
                        then WithFlight(old(View()), service,
                            old(flights)[service].(bytes := old(flights)[service].bytes + bytes), bytes)
                        else old(View())
    {
      var f := flights[service];
      if f.bytes + bytes > cfg.maxResponseBytes { return Some(RESPONSE_LIMIT); }
      if aggregateBytes + bytes > cfg.maxAggregateBytes { return Some(AGGREGATE_LIMIT); }
      error := storage.Reserve(bytes, free);
      if error.Some? { return; }
      flights := flights[service := f.(bytes := f.bytes + bytes)];
      aggregateBytes := aggregateBytes + bytes;
    }

    // openSync(temporaryPath, 'wx')
    method Open(service: Service)
      requires live && phase.Fetching? && service in flights && !flights[service].created
      modifies this`flights, this`log, disk
      ensures Did(Action.Open(lease, service))
    {
      Plays1(Here(), ExportCell.Put(SnapshotTmp(service, lease), []));
      Write(SnapshotTmp(service, lease), []);
      flights := flights[service := flights[service].(created := true)];
    }

    // One chunk: reserve first, write after; a refusal ends the attempt.
    method Chunk(service: Service, data: Content, free: int)
      requires live && phase.Fetching? && service in flights && !flights[service].refused && storage.cfg == cfg
      modifies this`flights, this`aggregateBytes, this`log, storage, disk
      ensures Did(Action.Chunk(lease, service, data, free))
    {
      var f := flights[service];
      var name := SnapshotTmp(service, lease);
      var error := Reserve(service, |data|, free);
      if error.Some? {
        flights := flights[service := f.(refused := true)];
        return;
      }
      if !f.created {
        Plays1(Here(), ExportCell.Put(name, data));
        Write(name, data);
      } else if name in disk.Files(id) {
        Plays1(Here(), ExportCell.Put(name, disk.Files(id)[name] + data));
        Write(name, disk.Files(id)[name] + data);
      }
      flights := flights[service := flights[service].(created := true)];
      assert flights == old(flights)[service := f.(bytes := f.bytes + |data|, created := true)];
    }

    // The response is complete and valid: rename, then record.
    method Succeed(service: Service, now: Millis)
      requires live && phase.Fetching? && service in flights && !flights[service].refused
      requires SnapshotTmp(service, lease) in disk.Files(id) && OwnsRow(Row(), lease) && service in db.jobs[id].rows
      modifies this`flights, this`returned, this`log, db, disk
      ensures Did(Action.Succeed(lease, service, now))
    {
      var f := flights[service];
      var contents := disk.Files(id)[SnapshotTmp(service, lease)];
      SucceedShape(cfg, State(), lease, service, now);
      Plays2(Here(), Move(SnapshotTmp(service, lease), Snapshot(service, lease)),
             Save(Some(SucceededJob(Row().value, lease, service, f, now, contents))), End);
      Rename(SnapshotTmp(service, lease), Snapshot(service, lease));
      var ok := db.FinishServiceAttempt(id, lease, service, f.attempt, now,
                                        Success(f.bytes, Sha256Of(contents), Snapshot(service, lease)));
      log := log + [Save(Row())];
      // The source's `if (!finish...)` branch is dead: ownership was checked in this stretch.
      assert ok;
      flights, returned := flights - {service}, returned + 1;
    }

    method RecordFailure(service: Service, f: Flight, now: Millis, error: string)
      modifies db, this`log
      ensures log == old(log) + [Save(FailedJob(old(Row()), lease, service, f, now, error))]
      ensures Here() == Apply(old(Here()), Save(FailedJob(old(Row()), lease, service, f, now, error))) && Mine()
    {
      var _ := db.FinishServiceAttempt(id, lease, service, f.attempt, now, Failure(error));
      log := log + [Save(Row())];
    }

    method Fail(service: Service, now: Millis, error: string)
      requires live && phase.Fetching? && service in flights
      modifies this`flights, this`returned, this`aggregateBytes, this`log, storage, db, disk
      ensures Did(Action.Fail(lease, service, now, error))
    {
      var f := flights[service];
      var tmp, final := SnapshotTmp(service, lease), Snapshot(service, lease);
      FailShape(cfg, State(), lease, service, now, error);
      Plays3(Here(), Unlink({tmp}), Unlink({final}), Save(FailedJob(Row(), lease, service, f, now, error)), End);
      Remove(tmp);
      Remove(final);
      storage.Release(f.bytes);
      aggregateBytes := aggregateBytes - f.bytes;
      RecordFailure(service, f, now, error);
      flights, returned := flights - {service}, returned + 1;
    }

    method Heartbeat(until: Millis)
      requires live
      modifies this`log, db
      ensures Did(Action.Heartbeat(lease, until))
    {
      Plays1(Here(), Save(Renewed(Row(), lease, until)));
      RenewLease(until);
    }

    // ---------------------------------------------------------------- finalization

    // removeFile(path): a null path is nothing to remove.
    method RemoveIf(path: Option<FileName>)
      modifies disk, this`log
      ensures log == old(log) + [Unlink(if path.Some? then {path.value} else {})]
      ensures Here() == Apply(old(Here()), Unlink(if path.Some? then {path.value} else {})) && Mine()
    {
      if path.Some? {
        Remove(path.value);
      } else {
        assert disk.Files(id) - {} == disk.Files(id);
        log := log + [Unlink({})];
      }
    }

    // The final, fenced UPDATE.
    method Publish(status: JobStatus, at: Millis, path: Option<FileName>, bytes: Option<nat>, error: Option<string>)
      returns (changes: nat)
      requires db.cfg == cfg
      modifies db, this`log
      ensures log == old(log) + [Save(Published(cfg, old(Row()), lease, status, at, path, bytes, error))]
      ensures Here() == Apply(old(Here()), Save(Published(cfg, old(Row()), lease, status, at, path, bytes, error)))
      ensures Mine()
      ensures changes == if OwnsRow(old(Row()), lease) then 1 else 0
    {
      changes := db.Finalize(id, lease, status, at, path, bytes, error);
      log := log + [Save(Row())];
    }

    // The `finally` block: the files of a cancelled job go.
    method Leave()
      modifies disk, this`log, this`live
      ensures log == old(log) + Effects(Finally(Row())) && Here() == Play(old(Here()), Finally(Row())) && Mine()
      ensures !live
    {
      live := false;
      if id in db.jobs && db.jobs[id].status.Cancelled? {
        Plays1(Here(), Wipe);
        disk.RemoveDirectory(id);
        log := log + [Wipe];
      }
    }

    // The catch block around writeZip, and what follows it.
    method GiveUp(at: Millis, error: string)
      requires db.cfg == cfg
      modifies this`live, this`log, storage, db, disk
      ensures log == old(log) + Effects(GiveUpScript(cfg, old(Row()), lease, old(View()), at, error))
      ensures Here() == Play(old(Here()), GiveUpScript(cfg, old(Row()), lease, old(View()), at, error)) && Mine()
      ensures !live
    {
      var status := if oldPath.Some? then JobStatus.Partial else JobStatus.Failed;
      var tmp := ArchiveTmp(lease);
      ghost var job' := Published(cfg, Row(), lease, status, at, oldPath, oldBytes, Some(error));
      Plays3(Here(), Unlink({tmp}), Unlink({Archive(lease)}), Save(job'), Finally(job'));
      var temporaryBytes := TemporaryBytes(lease, disk.Files(id));
      Remove(tmp);
      Remove(Archive(lease));
      storage.Release(temporaryBytes);
      var _ := Publish(status, at, oldPath, oldBytes, Some(error));
      Leave();
    }

    // Nothing succeeded: no archive to build and none to keep.
    method FinishEmpty(status: JobStatus, now: Millis)
      requires db.cfg == cfg && OwnsRow(Row(), lease) && !status.Cancelled?
      modifies this`live, this`log, db, disk
      ensures var job' := Published(cfg, old(Row()), lease, status, now, oldPath, oldBytes, None);
              log == old(log) + [Save(job')] && Here() == old(Here()).(job := job') && Mine()
      ensures !live
    {
      var _ := Publish(status, now, oldPath, oldBytes, None);
      Leave();
    }

    // Renew the lease and clear the way for the archive.
    method StartArchive(status: JobStatus, now: Millis)
      modifies this`phase, this`log, db, disk
      ensures log == old(log) + Effects(ZipStartScript(old(Row()), lease, now + cfg.leaseMs))
      ensures Here() == Play(old(Here()), ZipStartScript(old(Row()), lease, now + cfg.leaseMs)) && Mine()
      ensures View() == Zipper(old(View()), status, now)
    {
      Plays2(Here(), Save(Renewed(Row(), lease, now + cfg.leaseMs)), Unlink({ArchiveTmp(lease)}), End);
      RenewLease(now + cfg.leaseMs);
      Remove(ArchiveTmp(lease));
      phase := Zipping(status, now, [], false, false);
    }

    // The two checks before an archive is started.
    method CheckArchive(retained: nat, free: int) returns (refusal: Option<string>)
      requires storage.cfg == cfg
      ensures refusal == FinishError(cfg, View(), retained, free)
    {
      var maximum := aggregateBytes + ARCHIVE_OVERHEAD;
      if retained + maximum > cfg.maxRetainedBytes { return Some(RETAINED_REACHED); }
      refusal := storage.Check(maximum, free);
    }

    // Something succeeded: start the archive or give up on it.
    method AdmitArchive(finalStatus: JobStatus, now: Millis, free: int) returns (retained: nat)
      requires live && Drained(View()) && db.cfg == cfg && storage.cfg == cfg
      requires id in db.jobs && OwnsRow(Row(), lease) && !finalStatus.Failed? && finalStatus == FinalStatus(db.jobs[id])
      modifies this`live, this`phase, this`log, storage, db, disk
      ensures Did(Action.Finish(lease, now, retained, free))
      ensures retained == Sum(BytesColumn(old(db.jobs), old(db.jobs)[id].owner) - {id})
    {
      retained := db.SelectOthersBytes(db.jobs[id].owner, id);
      var refusal := CheckArchive(retained, free);
      FinishShape(cfg, State(), lease, now, retained, free, refusal, finalStatus);
      if refusal.Some? {
        GiveUp(now, refusal.value);
      } else {
        StartArchive(finalStatus, now);
      }
    }

    // After Promise.all(runners): give up, finish without an archive, or start zipping.
    method Finish(now: Millis, free: int) returns (retained: nat)
      requires live && Drained(View()) && db.cfg == cfg && storage.cfg == cfg
      // every job is created with service rows
      requires id in db.jobs ==> db.jobs[id].rows != map[]
      modifies this`live, this`phase, this`log, storage, db, disk
      ensures Did(Action.Finish(lease, now, retained, free))
      ensures id in old(db.jobs) && OwnsRow(old(Row()), lease) && !FinalStatus(old(db.jobs)[id]).Failed? ==>
                retained == Sum(BytesColumn(old(db.jobs), old(db.jobs)[id].owner) - {id})
    {
      retained := 0;
      var owns := db.OwnsLease(id, lease);
      if !owns {
        Leave();
        return;
      }
      var rows := db.jobs[id].rows;
      var succeeded := |set s | s in rows && rows[s].status.Succeeded?|;
      var finalStatus := if succeeded == |rows| then JobStatus.Completed
                         else if succeeded > 0 then JobStatus.Partial
                         else JobStatus.Failed;
      CountDecides(db.jobs[id]);
      if succeeded == 0 {
        EmptyShape(cfg, State(), lease, now, retained, free);
        FinishEmpty(finalStatus, now);
        return;
      }
      retained := AdmitArchive(finalStatus, now, free);
    }

    // The limiter in front of the archive file.
    method ZipReserve(data: Content, free: int)
      requires live && phase.Zipping? && !phase.refused && storage.cfg == cfg
      modifies this`phase, storage
      ensures Did(Action.ZipReserve(lease, data, free))
    {
      var error := storage.Reserve(|data|, free);
      assert phase.stream + [] == phase.stream;
      phase := if error.Some? then phase.(refused := true) else phase.(stream := phase.stream + data);
    }

    // Bytes that have passed the limiter reach the disk, in the order of the stream.
    method ZipFlush(data: Content)
      requires live && phase.Zipping?
      requires var tmp := ArchiveTmp(lease);
               (if tmp in disk.Files(id) then disk.Files(id)[tmp] else []) + data <= phase.stream
      modifies this`phase, this`log, disk
      ensures Did(Action.ZipFlush(lease, data))
    {
      var tmp := ArchiveTmp(lease);
      if !phase.created {
        Plays1(Here(), ExportCell.Put(tmp, data));
        Write(tmp, data);
      } else if tmp in disk.Files(id) {
        Plays1(Here(), ExportCell.Put(tmp, disk.Files(id)[tmp] + data));
        Write(tmp, disk.Files(id)[tmp] + data);
      }
      assert phase.stream + [] == phase.stream;
      phase := phase.(created := true);
    }

    // Rename the archive into place, publish behind the fence, remove the loser.
    method PublishArchive(size: nat)
      requires phase.Zipping? && db.cfg == cfg && ArchiveTmp(lease) in disk.Files(id)
      modifies this`live, this`log, db, disk
      ensures log == old(log) + Effects(PublishScript(cfg, old(Row()), lease, old(View()), size))
      ensures Here() == Play(old(Here()), PublishScript(cfg, old(Row()), lease, old(View()), size)) && Mine()
      ensures !live
    {
      var tmp, candidate := ArchiveTmp(lease), Archive(lease);
      PublishUnfolds(cfg, Here(), lease, View(), size);
      Rename(tmp, candidate);
      var changes := Publish(phase.status, phase.completedAt, Some(candidate), Some(size), None);
      RemoveIf(if changes == 0 then Some(candidate) else oldPath);
      Leave();
    }

    // writeZip has resolved.
    method ZipDone()
      requires live && phase.Zipping? && !phase.refused && db.cfg == cfg
      requires ArchiveTmp(lease) in disk.Files(id) && disk.Files(id)[ArchiveTmp(lease)] == phase.stream
      modifies this`live, this`log, db, disk
      ensures Did(Action.ZipDone(lease))
    {
      PublishArchive(|disk.Files(id)[ArchiveTmp(lease)]|);
    }

    method ZipFail(error: string)
      requires live && phase.Zipping? && db.cfg == cfg
      modifies this`live, this`log, storage, db, disk
      ensures Did(Action.ZipFail(lease, error))
    {
      GiveUp(phase.completedAt, error);
    }
  }

  // The beginning of a batch: claim a job, then set its dispatch up. None when
  // there is nothing to claim.
  method Begin(cfg: Config, db: Database, disk: Disk, now: Millis, lease: LeaseId, registry: set<Service>,
               order: seq<Service>)
    returns (d: Option<Dispatch>)
    requires db.cfg == cfg
    requires forall s: Service :: s in order
    requires forall i, j :: 0 <= i < j < |order| ==> order[i] != order[j]
    modifies db, disk
    ensures d.None? ==>
      && db.jobs == old(db.jobs) && disk.dirs == old(disk.dirs)
      && (forall id :: id in db.jobs ==> !Claimable(db.jobs[id], now))
    ensures d.Some? ==>
      && d.value.db == db && d.value.disk == disk && d.value.cfg == cfg && d.value.lease == lease
      && d.value.storage.cfg == cfg && 0 <= d.value.storage.usage == DiskBytes(disk.dirs)
      && IsNext(old(db.jobs), now, d.value.id)
      && var id := d.value.id;
         var before := Cell(Some(old(db.jobs)[id]), old(disk.Files(id)), map[], {});
         var claim := Claim(lease, now, registry, d.value.defs, d.value.storage.usage);
         && Enabled(cfg, before, claim)
         && d.value.log == Effects(ScriptOf(cfg, before, claim))
         && d.value.State() == Next(cfg, before, claim)
         && OthersUntouched(db, disk, id)
  {
    var claimed := db.ClaimNextJob(now, lease, cfg.leaseMs);
    if claimed.None? { return None; }
    var id := claimed.value;
    ghost var before := Cell(Some(old(db.jobs)[id]), old(disk.Files(id)), map[], {});
    var dispatch := new Dispatch(cfg, db, disk, id, lease, registry, order);
    ClaimedRow(cfg, before.job.value, lease, now, dispatch.defs, registry, before.dir);
    ClaimShape(cfg, before, lease, now, registry, dispatch.defs, dispatch.storage.usage);
    return Some(dispatch);
  }
}
