// The theorems about one export job over whole runs: any interleaving of
// dispatches, routes, lease losses, deaths and crashes.
module ExportRuns {
  import opened Common
  import opened MapSums
  import opened ExportRows
  import opened ExportCell
  import opened ExportDurable
  import opened ExportLive
  import opened ExportSteps
  import opened ExportFlights
  import opened ExportPublish

  // ---------------------------------------------------------------- routes and cleanup

  // A step by no dispatch, after which no dispatch owns the job unless the job is unchanged.
  lemma {:induction false} NobodyLands(cfg: Config, c: Cell, sc: Script, job': Option<Job>,
                                       dir': map<FileName, Content>)
    requires CellOk(cfg, c)
    requires Safe(cfg, c, sc) && Play(c, sc) == c.(job := job', dir := dir')
    requires DirFrame({}, c.dir, dir') && JobFrame({}, c.job, job')
    ensures Lands(cfg, c, sc, c.workers)
  {
    PlayIsDurable(cfg, c, sc);
    WorkersFrame(cfg, c, Cell(job', dir', c.workers, c.leases), {});
  }

  lemma SaveLands(cfg: Config, c: Cell, job': Option<Job>)
    requires CellOk(cfg, c) && Durable(cfg, c.(job := job')) && JobFrame({}, c.job, job')
    ensures Lands(cfg, c, Then(Save(job'), End), c.workers)
  {
    Script1(cfg, c, Save(job'), End);
    assert Play(c, Then(Save(job'), End)) == c.(job := job', dir := c.dir);
    NobodyLands(cfg, c, Then(Save(job'), End), job', c.dir);
  }

  lemma SaveWipeLands(cfg: Config, c: Cell, job': Option<Job>)
    requires CellOk(cfg, c) && Durable(cfg, c.(job := job')) && JobFrame({}, c.job, job')
    requires job'.Some? ==> !NeedsSnapshots(job'.value)
    ensures Lands(cfg, c, Then(Save(job'), Then(Wipe, End)), c.workers)
  {
    Script2(cfg, c, Save(job'), Wipe, End);
    assert Play(c, Then(Save(job'), Then(Wipe, End))) == c.(job := job', dir := map[]);
    NobodyLands(cfg, c, Then(Save(job'), Then(Wipe, End)), job', map[]);
  }

  lemma CancelLands(cfg: Config, c: Cell, now: Millis, job': Option<Job>)
    requires CellOk(cfg, c) && c.job.Some? && Active(c.job.value)
    requires job' == Some(CancelJob(c.job.value, now, cfg.artifactTtlMs))
    ensures Lands(cfg, c, Then(Save(job'), End), c.workers)
    ensures Lands(cfg, c, Then(Save(job'), Then(Wipe, End)), c.workers)
  {
    CancelDurable(cfg, c.job.value, c.dir, c.leases, now, cfg.artifactTtlMs);
    SaveLands(cfg, c, job');
    SaveWipeLands(cfg, c, job');
  }

  function CancelScript(j: Job, job': Option<Job>): Script {
    if j.status.Queued? then Then(Save(job'), Then(Wipe, End)) else Then(Save(job'), End)
  }

  lemma CancelParts(cfg: Config, c: Cell, a: Action, job': Option<Job>)
    requires Enabled(cfg, c, a) && a.Cancel? && job' == Some(CancelJob(c.job.value, a.now, cfg.artifactTtlMs))
    ensures Active(c.job.value)
    ensures ScriptOf(cfg, c, a) == CancelScript(c.job.value, job') && WorkersAfter(cfg, c, a) == c.workers
  {
  }

  lemma CancelOk(cfg: Config, c: Cell, a: Action)
    requires CellOk(cfg, c) && Enabled(cfg, c, a) && a.Cancel?
    ensures StepOk(cfg, c, a)
  {
    var job' := Some(CancelJob(c.job.value, a.now, cfg.artifactTtlMs));
    CancelParts(cfg, c, a, job');
    CancelLands(cfg, c, a.now, job');
    StepFrom(cfg, c, a, CancelScript(c.job.value, job'), c.workers);
  }

  lemma RetryOk(cfg: Config, c: Cell, a: Action)
    requires CellOk(cfg, c) && Enabled(cfg, c, a) && a.Retry?
    ensures StepOk(cfg, c, a)
  {
    var job' := Some(RetryJob(c.job.value));
    RetryLands(cfg, c, job');
    StepFrom(cfg, c, a, Then(Save(job'), End), c.workers);
  }

  lemma RetryLands(cfg: Config, c: Cell, job': Option<Job>)
    requires CellOk(cfg, c) && c.job.Some? && job' == Some(RetryJob(c.job.value))
    ensures Lands(cfg, c, Then(Save(job'), End), c.workers)
  {
    RetryDurable(cfg, c.job.value, c.dir, c.leases);
    SaveLands(cfg, c, job');
  }

  lemma ExpireLands(cfg: Config, c: Cell, now: Millis, job': Option<Job>)
    requires CellOk(cfg, c) && c.job.Some? && job' == Some(ExpireJob(c.job.value, now))
    ensures Lands(cfg, c, Then(Save(job'), End), c.workers)
  {
    ExpireDurable(cfg, c.job.value, c.dir, c.leases, now);
    SaveLands(cfg, c, job');
  }

  lemma ExpireOk(cfg: Config, c: Cell, a: Action)
    requires CellOk(cfg, c) && Enabled(cfg, c, a) && a.Expire?
    ensures StepOk(cfg, c, a)
  {
    var job' := Some(ExpireJob(c.job.value, a.now));
    ExpireLands(cfg, c, a.now, job');
    StepFrom(cfg, c, a, Then(Save(job'), End), c.workers);
  }

  lemma DropOwnerOk(cfg: Config, c: Cell, a: Action)
    requires CellOk(cfg, c) && Enabled(cfg, c, a) && a.DropOwner?
    ensures StepOk(cfg, c, a)
  {
    SaveLands(cfg, c, None);
    StepFrom(cfg, c, a, Then(Save(None), End), c.workers);
  }

  lemma SweepOk(cfg: Config, c: Cell, a: Action)
    requires CellOk(cfg, c) && Enabled(cfg, c, a) && a.Sweep?
    ensures StepOk(cfg, c, a)
  {
    Script1(cfg, c, Wipe, End);
    assert Play(c, Then(Wipe, End)) == c.(job := c.job, dir := map[]);
    NobodyLands(cfg, c, Then(Wipe, End), c.job, map[]);
    StepFrom(cfg, c, a, Then(Wipe, End), c.workers);
  }

  lemma ClaimStep(cfg: Config, c: Cell, a: Action)
    requires CellOk(cfg, c) && Enabled(cfg, c, a) && a.Claim?
    ensures StepOk(cfg, c, a)
  {
    ClaimSafe(cfg, c, a);
    ClaimOk(cfg, c, a);
  }

  // ---------------------------------------------------------------- every step

  lemma ClaimOrTake(cfg: Config, c: Cell, a: Action)
    requires CellOk(cfg, c) && Enabled(cfg, c, a) && (a.Claim? || a.Take? || a.Return?)
    ensures StepOk(cfg, c, a)
  {
    if a.Claim? {
      ClaimStep(cfg, c, a);
    } else if a.Take? {
      TakeOk(cfg, c, a);
    } else {
      ReturnOk(cfg, c, a);
    }
  }

  lemma FetchStep(cfg: Config, c: Cell, a: Action)
    requires CellOk(cfg, c) && Enabled(cfg, c, a) && (a.Open? || a.Chunk? || a.Succeed? || a.Fail?)
    ensures StepOk(cfg, c, a)
  {
    if a.Open? {
      OpenOk(cfg, c, a);
    } else if a.Chunk? {
      ChunkOk(cfg, c, a);
    } else if a.Succeed? {
      SucceedOk(cfg, c, a);
    } else {
      FailOk(cfg, c, a);
    }
  }

  lemma ZipStep(cfg: Config, c: Cell, a: Action)
    requires CellOk(cfg, c) && Enabled(cfg, c, a) && (a.ZipReserve? || a.ZipFlush? || a.ZipDone? || a.ZipFail?)
    ensures StepOk(cfg, c, a)
  {
    if a.ZipReserve? {
      ZipReserveOk(cfg, c, a);
    } else if a.ZipFlush? {
      ZipFlushOk(cfg, c, a);
    } else if a.ZipDone? {
      ZipDoneOk(cfg, c, a);
    } else {
      ZipFailOk(cfg, c, a);
    }
  }

  lemma LifeStep(cfg: Config, c: Cell, a: Action)
    requires CellOk(cfg, c) && Enabled(cfg, c, a) && (a.Finish? || a.Heartbeat? || a.Kill?)
    ensures StepOk(cfg, c, a)
  {
    if a.Finish? {
      FinishOk(cfg, c, a);
    } else if a.Heartbeat? {
      HeartbeatOk(cfg, c, a);
    } else {
      KillOk(cfg, c, a);
    }
  }

  lemma OwnerStep(cfg: Config, c: Cell, a: Action)
    requires CellOk(cfg, c) && Enabled(cfg, c, a) && (a.Cancel? || a.Retry? || a.DropOwner?)
    ensures StepOk(cfg, c, a)
  {
    if a.Cancel? {
      CancelOk(cfg, c, a);
    } else if a.Retry? {
      RetryOk(cfg, c, a);
    } else {
      DropOwnerOk(cfg, c, a);
    }
  }

  lemma CleanupStep(cfg: Config, c: Cell, a: Action)
    requires CellOk(cfg, c) && Enabled(cfg, c, a) && (a.Expire? || a.Sweep?)
    ensures StepOk(cfg, c, a)
  {
    if a.Expire? { ExpireOk(cfg, c, a); } else { SweepOk(cfg, c, a); }
  }

  lemma EveryStep(cfg: Config, c: Cell, a: Action)
    requires CellOk(cfg, c)
    ensures StepOk(cfg, c, a)
  {
    if Enabled(cfg, c, a) {
      if a.Claim? || a.Take? || a.Return? {
        ClaimOrTake(cfg, c, a);
      } else if a.Open? || a.Chunk? || a.Succeed? || a.Fail? {
        FetchStep(cfg, c, a);
      } else if a.ZipReserve? || a.ZipFlush? || a.ZipDone? || a.ZipFail? {
        ZipStep(cfg, c, a);
      } else if a.Finish? || a.Heartbeat? || a.Kill? {
        LifeStep(cfg, c, a);
      } else if a.Cancel? || a.Retry? || a.DropOwner? {
        OwnerStep(cfg, c, a);
      } else {
        CleanupStep(cfg, c, a);
      }
    }
  }

  lemma NextOk(cfg: Config, c: Cell, a: Action)
    requires CellOk(cfg, c)
    ensures CellOk(cfg, Next(cfg, c, a))
  {
    EveryStep(cfg, c, a);
  }

  lemma CrashOk(cfg: Config, c: Cell, a: Action, k: nat, lost: set<FileName>)
    requires CellOk(cfg, c)
    ensures CellOk(cfg, Crash(cfg, c, a, k, lost))
  {
    EveryStep(cfg, c, a);
    var c' := Crash(cfg, c, a, k, lost);
    if Enabled(cfg, c, a) {
      TornIsDurable(cfg, WithLease(c, a), ScriptOf(cfg, c, a), k, lost);
    }
    assert Durable(cfg, c');
  }
}
