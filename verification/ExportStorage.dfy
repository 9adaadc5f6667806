// The storage budget: with one writing dispatch at a time, `usage` never falls
// below the bytes really in the export directory, so the quota holds on disk.
module ExportStorage {
  import opened Common
  import opened MapSums
  import opened ExportRows
  import opened ExportCell
  import opened ExportDurable
  import opened ExportLive
  import opened ExportSteps
  import opened ExportFlights
  import opened ExportPublish
  import opened ExportRuns
  import opened ExportTheorems
  import opened ExportOwners

  function FileSizes(dir: map<FileName, Content>): map<FileName, int> { map n | n in dir :: |dir[n]| }

  // directoryBytes, of one job's directory.
  ghost function DirBytes(dir: map<FileName, Content>): int { Sum(FileSizes(dir)) }

  // Temporary files whose bytes the budget counts through the reservations.
  predicate OwnTmp(l: LeaseId, w: Worker, n: FileName) {
    || (n.SnapshotTmp? && n.lease == l && n.service in w.flights)
    || (n == ArchiveTmp(l) && w.phase.Zipping?)
  }

  function Others(l: LeaseId, w: Worker, dir: map<FileName, Content>): map<FileName, Content> {
    map n | n in dir && !OwnTmp(l, w, n) :: dir[n]
  }

  // What the budget must cover: settled files, and everything reserved so far.
  ghost function Burden(l: LeaseId, w: Worker, dir: map<FileName, Content>): int {
    DirBytes(Others(l, w, dir)) + FlightBytes(w.flights) + Reserved(w)
  }

  // ---------------------------------------------------------------- directory sums

  predicate Shrinks(dir: map<FileName, Content>, dir': map<FileName, Content>) {
    forall n :: n in dir' ==> n in dir && dir'[n] == dir[n]
  }

  lemma ShrinkBytes(dir: map<FileName, Content>, dir': map<FileName, Content>)
    requires Shrinks(dir, dir')
    ensures 0 <= DirBytes(dir') <= DirBytes(dir)
  {
    SumNonNegative(FileSizes(dir'));
    SumMonotone(FileSizes(dir'), FileSizes(dir));
  }

  lemma DropBytes(dir: map<FileName, Content>, n: FileName)
    ensures DirBytes(dir) == DirBytes(dir - {n}) + (if n in dir then |dir[n]| else 0)
  {
    if n in dir {
      assert FileSizes(dir - {n}) == FileSizes(dir) - {n};
      SumRemove(FileSizes(dir), n);
    } else {
      assert dir - {n} == dir;
    }
  }

  lemma PutBytes(dir: map<FileName, Content>, n: FileName, data: Content)
    ensures DirBytes(dir[n := data]) == DirBytes(dir - {n}) + |data|
  {
    DropBytes(dir[n := data], n);
    assert dir[n := data] - {n} == dir - {n};
  }

  function FlightTmps(l: LeaseId, flights: map<Service, Flight>): set<FileName> {
    set s | s in flights :: SnapshotTmp(s, l)
  }

  lemma TmpsSplit(l: LeaseId, flights: map<Service, Flight>, s: Service, dir: map<FileName, Content>)
    requires s in flights
    ensures dir - {SnapshotTmp(s, l)} - FlightTmps(l, flights - {s}) == dir - FlightTmps(l, flights)
  {
  }

  lemma {:induction false} FlightsCover(l: LeaseId, flights: map<Service, Flight>, dir: map<FileName, Content>)
    requires forall s :: s in flights && SnapshotTmp(s, l) in dir ==> |dir[SnapshotTmp(s, l)]| <= flights[s].bytes
    ensures DirBytes(dir) <= DirBytes(dir - FlightTmps(l, flights)) + FlightBytes(flights)
    decreases |flights|
  {
    if flights == map[] {
      FlightNone();
      assert dir - FlightTmps(l, flights) == dir;
    } else {
      var s :| s in flights;
      var n := SnapshotTmp(s, l);
      DropBytes(dir, n);
      FlightRemove(flights, s);
      FlightsCover(l, flights - {s}, dir - {n});
      TmpsSplit(l, flights, s, dir);
    }
  }

  // The bytes on disk are within the burden.
  lemma BurdenCovers(cfg: Config, l: LeaseId, w: Worker, dir: map<FileName, Content>)
    requires FilesOk(cfg, l, w, dir)
    ensures DirBytes(dir) <= Burden(l, w, dir)
  {
    forall s | s in w.flights && SnapshotTmp(s, l) in dir ensures |dir[SnapshotTmp(s, l)]| <= w.flights[s].bytes {
      assert FlightOk(cfg, l, s, w.flights[s], dir);
    }
    FlightsCover(l, w.flights, dir);
    var rest := dir - FlightTmps(l, w.flights);
    if w.phase.Zipping? {
      DropBytes(rest, ArchiveTmp(l));
      assert Others(l, w, dir) == rest - {ArchiveTmp(l)};
    } else {
      assert Others(l, w, dir) == rest;
    }
  }

  // ---------------------------------------------------------------- one step of the writing dispatch

  // The slack of the budget never shrinks, and usage exceeds neither its old value nor the quota.
  ghost predicate Covers(cfg: Config, l: LeaseId, w: Worker, dir: map<FileName, Content>, w': Worker,
                         dir': map<FileName, Content>)
  {
    && w.usage - Burden(l, w, dir) <= w'.usage - Burden(l, w', dir')
    && w'.usage <= Max(w.usage, cfg.storageQuotaBytes)
  }

  // No settled file appears or grows.
  lemma Settles(l: LeaseId, w: Worker, dir: map<FileName, Content>, w': Worker, dir': map<FileName, Content>)
    requires forall n :: n in dir' && !OwnTmp(l, w', n) ==> n in dir && !OwnTmp(l, w, n) && dir'[n] == dir[n]
    ensures DirBytes(Others(l, w', dir')) <= DirBytes(Others(l, w, dir))
  {
    ShrinkBytes(Others(l, w, dir), Others(l, w', dir'));
  }

  lemma LaunchCovers(cfg: Config, l: LeaseId, w: Worker, id: AttemptId, dir: map<FileName, Content>)
    requires PoolOk(cfg, w) && w.phase.Fetching? && w.next < |w.defs| && w.ready > 0
    ensures Covers(cfg, l, w, dir, Launched(w, id), dir - {SnapshotTmp(w.defs[w.next], l)})
  {
    LaunchedFlights(w, id);
    Settles(l, w, dir, Launched(w, id), dir - {SnapshotTmp(w.defs[w.next], l)});
  }

  lemma FlightCovers(cfg: Config, l: LeaseId, w: Worker, s: Service, f: Flight, size: nat,
                     dir: map<FileName, Content>, dir': map<FileName, Content>)
    requires s in w.flights && w.phase.Fetching? && f.bytes == w.flights[s].bytes + size
    requires size == 0 || w.usage + size <= cfg.storageQuotaBytes
    requires forall n :: n in dir' && n != SnapshotTmp(s, l) ==> n in dir && dir'[n] == dir[n]
    ensures Covers(cfg, l, w, dir, WithFlight(w, s, f, size), dir')
  {
    FlightSet(w.flights, s, f);
    Settles(l, w, dir, WithFlight(w, s, f, size), dir');
  }

  lemma SucceedSettled(l: LeaseId, w: Worker, s: Service, dir: map<FileName, Content>, dir': map<FileName, Content>)
    requires s in w.flights && w.phase.Fetching? && SnapshotTmp(s, l) in dir
    requires dir' == (dir - {SnapshotTmp(s, l)})[Snapshot(s, l) := dir[SnapshotTmp(s, l)]]
    ensures Others(l, Landed(w, s), dir') == Others(l, w, dir)[Snapshot(s, l) := dir[SnapshotTmp(s, l)]]
  {
  }

  // The snapshot's bytes move from the reservation to the settled files.
  lemma SucceedCovers(cfg: Config, l: LeaseId, w: Worker, s: Service, dir: map<FileName, Content>,
                      dir': map<FileName, Content>)
    requires FilesOk(cfg, l, w, dir) && s in w.flights && w.phase.Fetching? && SnapshotTmp(s, l) in dir
    requires dir' == (dir - {SnapshotTmp(s, l)})[Snapshot(s, l) := dir[SnapshotTmp(s, l)]]
    ensures Covers(cfg, l, w, dir, Landed(w, s), dir')
  {
    var data := dir[SnapshotTmp(s, l)];
    assert FlightOk(cfg, l, s, w.flights[s], dir);
    FlightRemove(w.flights, s);
    var was := Others(l, w, dir);
    SucceedSettled(l, w, s, dir, dir');
    PutBytes(was, Snapshot(s, l), data);
    DropBytes(was, Snapshot(s, l));
  }

  lemma FailCovers(cfg: Config, l: LeaseId, w: Worker, s: Service, dir: map<FileName, Content>)
    requires PoolOk(cfg, w) && FilesOk(cfg, l, w, dir) && UsageOk(w) && s in w.flights && w.phase.Fetching?
    ensures Covers(cfg, l, w, dir, Crashed(w, s), dir - {SnapshotTmp(s, l)} - {Snapshot(s, l)})
  {
    var dir' := dir - {SnapshotTmp(s, l)} - {Snapshot(s, l)};
    CrashedPool(cfg, l, w, s, dir, dir');
    FlightRemove(w.flights, s);
    Settles(l, w, dir, Crashed(w, s), dir');
  }

  lemma ZipStartCovers(cfg: Config, l: LeaseId, w: Worker, st: JobStatus, now: Millis, dir: map<FileName, Content>)
    requires w.phase.Fetching?
    ensures Covers(cfg, l, w, dir, Zipper(w, st, now), dir - {ArchiveTmp(l)})
  {
    Settles(l, w, dir, Zipper(w, st, now), dir - {ArchiveTmp(l)});
  }

  lemma ZipCovers(cfg: Config, l: LeaseId, w: Worker, data: Content, created: bool, refused: bool,
                  dir: map<FileName, Content>, dir': map<FileName, Content>)
    requires w.phase.Zipping?
    requires data == [] || w.usage + |data| <= cfg.storageQuotaBytes
    requires forall n :: n in dir' && n != ArchiveTmp(l) ==> n in dir && dir'[n] == dir[n]
    ensures Covers(cfg, l, w, dir, WithZip(w, data, created, refused), dir')
  {
    Settles(l, w, dir, WithZip(w, data, created, refused), dir');
  }

  lemma SameCovers(cfg: Config, l: LeaseId, w: Worker, w': Worker, dir: map<FileName, Content>,
                   dir': map<FileName, Content>)
    requires w'.flights == w.flights && w'.phase == w.phase && w'.usage == w.usage
    requires Shrinks(dir, dir')
    ensures Covers(cfg, l, w, dir, w', dir')
  {
    Settles(l, w, dir, w', dir');
  }

  lemma {:induction false} StartCovers(cfg: Config, c: Cell, a: Action, w: Worker)
    requires CellOk(cfg, c) && Starts(c, a) && w == c.workers[a.lease]
    ensures Enabled(cfg, c, a)
    ensures Covers(cfg, a.lease, w, c.dir, Launched(w, a.attempt), Play(c, ScriptOf(cfg, c, a)).dir)
  {
    WorkerOf(cfg, c, a.lease);
    NextIsFresh(cfg, c, a.lease);
    StartsScript(cfg, c, a);
    StartSafe(cfg, c, a.lease, w.defs[w.next], a.attempt, a.now);
    LaunchCovers(cfg, a.lease, w, a.attempt, c.dir);
  }

  lemma {:induction false} TakeCovers(cfg: Config, c: Cell, a: Action, w: Worker, w': Worker,
                                      dir': map<FileName, Content>)
    requires CellOk(cfg, c) && Enabled(cfg, c, a) && a.Take? && w == c.workers[a.lease]
    requires WorkerAfter(cfg, c, a) == Some(w') && dir' == Play(c, ScriptOf(cfg, c, a)).dir
    ensures Covers(cfg, a.lease, w, c.dir, w', dir')
  {
    if Starts(c, a) {
      StartCovers(cfg, c, a, w);
    } else {
      SameCovers(cfg, a.lease, w, w', c.dir, dir');
    }
  }

  lemma {:induction false} OnePut(c: Cell, n: FileName, data: Content)
    ensures Play(c, Then(Put(n, data), End)).dir == c.dir[n := data]
  {
  }

  lemma {:induction false} OpenCovers(cfg: Config, c: Cell, a: Action, w: Worker, w': Worker,
                                      dir': map<FileName, Content>)
    requires Enabled(cfg, c, a) && (a.Open? || a.Chunk?) && w == c.workers[a.lease]
    requires WorkerAfter(cfg, c, a) == Some(w') && dir' == Play(c, ScriptOf(cfg, c, a)).dir
    ensures Covers(cfg, a.lease, w, c.dir, w', dir')
  {
    var n, sc, f := SnapshotTmp(a.service, a.lease), ScriptOf(cfg, c, a), w.flights[a.service];
    if sc.Then? { OnePut(c, n, sc.effect.data); }
    var size := if a.Chunk? && ReserveAllows(cfg, w, f, |a.data|, a.free) then |a.data| else 0;
    FlightCovers(cfg, a.lease, w, a.service, w'.flights[a.service], size, c.dir, dir');
  }

  lemma {:induction false} ZipStepCovers(cfg: Config, c: Cell, a: Action, w: Worker, w': Worker,
                                         dir': map<FileName, Content>)
    requires Enabled(cfg, c, a) && (a.ZipReserve? || a.ZipFlush?) && w == c.workers[a.lease]
    requires WorkerAfter(cfg, c, a) == Some(w') && dir' == Play(c, ScriptOf(cfg, c, a)).dir
    ensures Covers(cfg, a.lease, w, c.dir, w', dir')
  {
    var sc := ScriptOf(cfg, c, a);
    if sc.Then? { OnePut(c, ArchiveTmp(a.lease), sc.effect.data); }
    var data := if a.ZipReserve? && QuotaAllows(cfg, w.usage, |a.data|, a.free) then a.data else [];
    ZipCovers(cfg, a.lease, w, data, w'.phase.created, w'.phase.refused, c.dir, dir');
  }

  lemma {:induction false} SucceedStepCovers(cfg: Config, c: Cell, a: Action, w: Worker)
    requires CellOk(cfg, c) && Enabled(cfg, c, a) && a.Succeed? && w == c.workers[a.lease]
    ensures Covers(cfg, a.lease, w, c.dir, Landed(w, a.service), Play(c, ScriptOf(cfg, c, a)).dir)
  {
    WorkerOf(cfg, c, a.lease);
    SucceedParts(cfg, c, a);
    SucceedPlays(cfg, c, a.lease, a.service, a.now, c.dir[SnapshotTmp(a.service, a.lease)]);
    SucceedCovers(cfg, a.lease, w, a.service, c.dir, Play(c, ScriptOf(cfg, c, a)).dir);
  }

  lemma {:induction false} SucceedPlays(cfg: Config, c: Cell, l: LeaseId, s: Service, now: Millis, data: Content)
    requires CellOk(cfg, c) && InFlight(c, l, s) && SnapshotTmp(s, l) in c.dir && OwnsRow(c.job, l)
    requires data == c.dir[SnapshotTmp(s, l)]
    ensures Play(c, SucceedScript(c.job.value, l, s, c.workers[l].flights[s], now, data)).dir
         == (c.dir - {SnapshotTmp(s, l)})[Snapshot(s, l) := data]
  {
    MovePlays(c, SnapshotTmp(s, l), Snapshot(s, l),
        Some(SucceededJob(c.job.value, l, s, c.workers[l].flights[s], now, data)));
  }

  lemma {:induction false} MovePlays(c: Cell, m: FileName, n: FileName, job': Option<Job>)
    requires m in c.dir
    ensures Play(c, Then(Move(m, n), Then(Save(job'), End))).dir == (c.dir - {m})[n := c.dir[m]]
  {
    var c1 := Apply(c, Move(m, n));
    assert Play(c1, Then(Save(job'), End)) == Play(Apply(c1, Save(job')), End) == Apply(c1, Save(job'));
  }

  lemma {:induction false} FailStepCovers(cfg: Config, c: Cell, a: Action, w: Worker)
    requires CellOk(cfg, c) && Enabled(cfg, c, a) && a.Fail? && w == c.workers[a.lease]
    ensures Covers(cfg, a.lease, w, c.dir, Crashed(w, a.service), Play(c, ScriptOf(cfg, c, a)).dir)
  {
    WorkerOf(cfg, c, a.lease);
    FailParts(cfg, c, a);
    FailSafe(cfg, c, a.lease, a.service, a.now, a.error);
    FailCovers(cfg, a.lease, w, a.service, c.dir);
  }

  lemma {:induction false} FinishCovers(cfg: Config, c: Cell, a: Action, w: Worker, w': Worker,
                                        dir': map<FileName, Content>)
    requires CellOk(cfg, c) && Enabled(cfg, c, a) && a.Finish? && w == c.workers[a.lease]
    requires WorkerAfter(cfg, c, a) == Some(w') && dir' == Play(c, ScriptOf(cfg, c, a)).dir
    ensures Covers(cfg, a.lease, w, c.dir, w', dir')
  {
    var st, until := FinalStatus(c.job.value), a.now + cfg.leaseMs;
    GoParts(cfg, c, a, st, until);
    ZipStartPlays(cfg, c, a.lease, until);
    ZipStartCovers(cfg, a.lease, w, st, a.now, c.dir);
  }

  lemma {:induction false} BeatCovers(cfg: Config, c: Cell, a: Action, w: Worker, w': Worker,
                                      dir': map<FileName, Content>)
    requires Enabled(cfg, c, a) && (a.Heartbeat? || a.Return?) && w == c.workers[a.lease]
    requires WorkerAfter(cfg, c, a) == Some(w') && dir' == Play(c, ScriptOf(cfg, c, a)).dir
    ensures Covers(cfg, a.lease, w, c.dir, w', dir')
  {
    var sc := ScriptOf(cfg, c, a);
    if sc.Then? { assert Play(Apply(c, sc.effect), End) == Apply(c, sc.effect); }
    SameCovers(cfg, a.lease, w, w', c.dir, dir');
  }

  predicate Fetches(a: Action) { a.Take? || a.Open? || a.Chunk? || a.Succeed? || a.Fail? }

  lemma {:induction false} FetchCovers(cfg: Config, c: Cell, a: Action, w: Worker, w': Worker,
                                       dir': map<FileName, Content>)
    requires CellOk(cfg, c) && Enabled(cfg, c, a) && Fetches(a) && w == c.workers[a.lease]
    requires WorkerAfter(cfg, c, a) == Some(w') && dir' == Play(c, ScriptOf(cfg, c, a)).dir
    ensures Covers(cfg, a.lease, w, c.dir, w', dir')
  {
    if a.Take? { TakeCovers(cfg, c, a, w, w', dir'); }
    else if a.Succeed? { SucceedStepCovers(cfg, c, a, w); }
    else if a.Fail? { FailStepCovers(cfg, c, a, w); }
    else { OpenCovers(cfg, c, a, w, w', dir'); }
  }

  lemma {:induction false} ArchiveCovers(cfg: Config, c: Cell, a: Action, w: Worker, w': Worker,
                                         dir': map<FileName, Content>)
    requires CellOk(cfg, c) && Enabled(cfg, c, a) && HasLease(a) && !a.Claim? && !Fetches(a)
    requires w == c.workers[a.lease]
    requires WorkerAfter(cfg, c, a) == Some(w') && dir' == Play(c, ScriptOf(cfg, c, a)).dir
    ensures Covers(cfg, a.lease, w, c.dir, w', dir')
  {
    if a.Finish? { FinishCovers(cfg, c, a, w, w', dir'); }
    else if a.ZipReserve? || a.ZipFlush? { ZipStepCovers(cfg, c, a, w, w', dir'); }
    else { BeatCovers(cfg, c, a, w, w', dir'); }
  }

  lemma ActorCovers(cfg: Config, c: Cell, a: Action, w: Worker, w': Worker, dir': map<FileName, Content>)
    requires CellOk(cfg, c) && Enabled(cfg, c, a) && HasLease(a) && !a.Claim? && w == c.workers[a.lease]
    requires WorkerAfter(cfg, c, a) == Some(w') && dir' == Next(cfg, c, a).dir
    ensures Covers(cfg, a.lease, w, c.dir, w', dir')
  {
    if Fetches(a) { FetchCovers(cfg, c, a, w, w', dir'); } else { ArchiveCovers(cfg, c, a, w, w', dir'); }
  }

  // ---------------------------------------------------------------- every instant of a stretch

  predicate NoPut(s: Script)
    decreases s
  {
    s.Then? ==> !s.effect.Put? && NoPut(s.rest)
  }

  lemma MoveBytes(dir: map<FileName, Content>, m: FileName, n: FileName)
    requires m in dir
    ensures DirBytes((dir - {m})[n := dir[m]]) <= DirBytes(dir)
  {
    DropBytes(dir, m);
    PutBytes(dir - {m}, n, dir[m]);
    ShrinkBytes(dir - {m}, dir - {m} - {n});
  }

  lemma EffectBytes(c: Cell, e: Effect)
    requires !e.Put?
    ensures DirBytes(Apply(c, e).dir) <= DirBytes(c.dir)
  {
    match e
    case Move(m, n) => if m in c.dir { MoveBytes(c.dir, m, n); }
    case _ => ShrinkBytes(c.dir, Apply(c, e).dir);
  }

  lemma {:induction false} NoPutBytes(c: Cell, s: Script, k: nat, lost: set<FileName>)
    requires NoPut(s)
    ensures DirBytes(Play(c, s).dir) <= DirBytes(c.dir)
    ensures DirBytes(Torn(c, s, k, lost).dir) <= DirBytes(c.dir)
    decreases s
  {
    if s.Then? {
      EffectBytes(c, s.effect);
      NoPutBytes(Apply(c, s.effect), s.rest, if k > 0 then k - 1 else 0, lost);
      if k == 0 { ShrinkBytes(c.dir, Torn(c, s, k, lost).dir); }
    }
  }

  predicate OnePutScript(s: Script) { s.Then? && s.effect.Put? && s.rest == End }

  predicate Writes(a: Action) { a.Open? || a.Chunk? || a.ZipFlush? }

  lemma ScriptShape(cfg: Config, c: Cell, a: Action)
    requires Enabled(cfg, c, a)
    ensures NoPut(ScriptOf(cfg, c, a)) || (Writes(a) && OnePutScript(ScriptOf(cfg, c, a)))
  {
    var sc := ScriptOf(cfg, c, a);
    if sc.Then? && sc.rest.Then? && sc.rest.rest.Then? {
      assert NoPut(sc.rest.rest.rest);
      assert NoPut(sc.rest.rest);
    }
    if sc.Then? { assert NoPut(sc.rest); }
  }

  lemma CrashBytes(cfg: Config, c: Cell, a: Action, k: nat, lost: set<FileName>)
    ensures DirBytes(Crash(cfg, c, a, k, lost).dir) <= Max(DirBytes(c.dir), DirBytes(Next(cfg, c, a).dir))
  {
    if Enabled(cfg, c, a) {
      var d, sc := WithLease(c, a), ScriptOf(cfg, c, a);
      ScriptShape(cfg, c, a);
      if NoPut(sc) {
        NoPutBytes(d, sc, k, lost);
      } else if k > 0 {
        assert Torn(d, sc, k, lost) == Apply(d, sc.effect) == Play(d, sc);
      }
    }
  }

  lemma QuietBytes(cfg: Config, c: Cell, a: Action)
    requires Enabled(cfg, c, a) && !Writes(a)
    ensures DirBytes(Next(cfg, c, a).dir) <= DirBytes(c.dir)
  {
    ScriptShape(cfg, c, a);
    NoPutBytes(WithLease(c, a), ScriptOf(cfg, c, a), 0, {});
  }
}
