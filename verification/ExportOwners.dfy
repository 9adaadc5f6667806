// All export jobs together: creation, the per-owner limits, and the checks that
// read other jobs' rows.
module ExportOwners {
  import opened Common
  import opened MapSums
  import opened ExportRows
  import opened ExportCell
  import opened ExportDurable
  import opened ExportLive
  import opened ExportSteps
  import opened ExportPublish
  import opened ExportRuns
  import opened ExportTheorems

  type Site = map<JobId, Cell>

  predicate OwnedBy(c: Cell, owner: UserId) { c.job.Some? && c.job.value.owner == owner }

  predicate ActiveFor(c: Cell, owner: UserId) { OwnedBy(c, owner) && Active(c.job.value) }

  // The two columns of the retained query, per job: status != 'expired'.
  function RetainedJob(c: Cell, owner: UserId): nat {
    if OwnedBy(c, owner) && !c.job.value.status.Expired? then 1 else 0
  }

  function RetainedArchive(c: Cell, owner: UserId): nat {
    if OwnedBy(c, owner) && !c.job.value.status.Expired? && c.job.value.archiveBytes.Some?
    then c.job.value.archiveBytes.value else 0
  }

  function JobCounts(s: Site, owner: UserId): map<JobId, int> { map id | id in s :: RetainedJob(s[id], owner) }

  function ArchiveSizes(s: Site, owner: UserId): map<JobId, int> { map id | id in s :: RetainedArchive(s[id], owner) }

  ghost function RetainedJobs(s: Site, owner: UserId): int { Sum(JobCounts(s, owner)) }

  ghost function RetainedBytes(s: Site, owner: UserId): int { Sum(ArchiveSizes(s, owner)) }

  // The finalizer's query: the owner's other jobs.
  ghost function OthersBytes(s: Site, owner: UserId, id: JobId): int { Sum(ArchiveSizes(s, owner) - {id}) }

  datatype SiteEvent =
    | Create(id: JobId, owner: UserId, now: Millis, services: set<Service>)
    | At(id: JobId, event: Event)

  // createOrGetActiveJob inserts a job only past all of its refusals.
  ghost predicate Creates(cfg: Config, s: Site, id: JobId, owner: UserId, now: Millis, services: set<Service>) {
    && id !in s && Schlussel in services
    && (forall k :: k in s ==> !ActiveFor(s[k], owner))
    && (forall k :: k in s && OwnedBy(s[k], owner) ==> cfg.cooldownMs <= now - s[k].job.value.createdAt)
    && RetainedJobs(s, owner) < cfg.maxRetainedJobs
    && RetainedBytes(s, owner) < cfg.maxRetainedBytes
  }

  // What the transactions read of other jobs.
  ghost predicate Allowed(s: Site, id: JobId, a: Action)
    requires id in s
  {
    && (a.Retry? && s[id].job.Some? ==> forall k :: k in s && k != id ==> !ActiveFor(s[k], s[id].job.value.owner))
    && (a.Finish? && s[id].job.Some? ==> a.retained == OthersBytes(s, s[id].job.value.owner, id))
  }

  ghost predicate Happens(cfg: Config, s: Site, g: SiteEvent)
    requires g.At? ==> g.id in s
  {
    match g
    case Create(id, owner, now, services) => Creates(cfg, s, id, owner, now, services)
    case At(id, e) => Allowed(s, id, e.action)
  }

  ghost function SiteDo(cfg: Config, s: Site, g: SiteEvent): Site {
    if g.At? && g.id !in s then s
    else if !Happens(cfg, s, g) then s
    else match g
      case Create(id, owner, now, services) => s[id := NewCell(owner, now, services)]
      case At(id, e) => s[id := Do(cfg, s[id], e)]
  }

  ghost function SiteRun(cfg: Config, gs: seq<SiteEvent>): Site {
    if gs == [] then map[] else SiteDo(cfg, SiteRun(cfg, gs[..|gs| - 1]), gs[|gs| - 1])
  }

  // ---------------------------------------------------------------- the limits

  predicate SameOwner(c: Cell, d: Cell) {
    c.job.Some? && d.job.Some? && c.job.value.owner == d.job.value.owner
  }

  predicate BothActive(c: Cell, d: Cell) {
    SameOwner(c, d) && Active(c.job.value) && Active(d.job.value)
  }

  predicate Apart(cfg: Config, c: Cell, d: Cell) {
    SameOwner(c, d) ==>
      || cfg.cooldownMs <= c.job.value.createdAt - d.job.value.createdAt
      || cfg.cooldownMs <= d.job.value.createdAt - c.job.value.createdAt
  }

  predicate OneActive(s: Site) {
    forall i, k :: i in s && k in s && i != k ==> !BothActive(s[i], s[k])
  }

  predicate Spaced(cfg: Config, s: Site) {
    forall i, k :: i in s && k in s && i != k ==> Apart(cfg, s[i], s[k])
  }

  // A dispatch that may still publish an archive of up to its bound.
  ghost predicate Roomy(cfg: Config, s: Site, id: JobId, l: LeaseId)
    requires id in s
  {
    l in s[id].workers && s[id].workers[l].phase.Zipping? && OwnsRow(s[id].job, l) ==>
      OthersBytes(s, s[id].job.value.owner, id) + s[id].workers[l].aggregate + ARCHIVE_OVERHEAD <= cfg.maxRetainedBytes
  }

  ghost predicate SiteOk(cfg: Config, s: Site) {
    && (forall id :: id in s ==> CellOk(cfg, s[id]))
    && OneActive(s)
    && Spaced(cfg, s)
    && (forall o :: RetainedJobs(s, o) <= cfg.maxRetainedJobs)
  }

  ghost predicate SiteRoomy(cfg: Config, s: Site) {
    && (forall o :: RetainedBytes(s, o) <= cfg.maxRetainedBytes)
    && (forall id, l :: id in s ==> Roomy(cfg, s, id, l))
  }

  // The assumption about the archive format: the bytes streamed to disk fit the
  // bound the dispatch checked, the snapshots plus one mebibyte.
  predicate ZipFits(c: Cell, a: Action) {
    a.ZipDone? && a.lease in c.workers && ArchiveTmp(a.lease) in c.dir ==>
      |c.dir[ArchiveTmp(a.lease)]| <= c.workers[a.lease].aggregate + ARCHIVE_OVERHEAD
  }

  predicate Fits(s: Site, g: SiteEvent) {
    g.At? && g.id in s ==> ZipFits(s[g.id], g.event.action)
  }

  // ---------------------------------------------------------------- one cell changes

  lemma BytesSplit(s: Site, owner: UserId, id: JobId)
    requires id in s
    ensures RetainedBytes(s, owner) == OthersBytes(s, owner, id) + RetainedArchive(s[id], owner)
  {
    SumRemove(ArchiveSizes(s, owner), id);
  }

  lemma BytesReplace(s: Site, owner: UserId, id: JobId, c: Cell)
    requires id in s
    ensures RetainedBytes(s[id := c], owner) ==
              RetainedBytes(s, owner) - RetainedArchive(s[id], owner) + RetainedArchive(c, owner)
    ensures OthersBytes(s[id := c], owner, id) == OthersBytes(s, owner, id)
    ensures RetainedJobs(s[id := c], owner) ==
              RetainedJobs(s, owner) - RetainedJob(s[id], owner) + RetainedJob(c, owner)
  {
    assert ArchiveSizes(s[id := c], owner) == ArchiveSizes(s, owner)[id := RetainedArchive(c, owner)];
    SumUpdate(ArchiveSizes(s, owner), id, RetainedArchive(c, owner));
    assert ArchiveSizes(s[id := c], owner) - {id} == ArchiveSizes(s, owner) - {id};
    assert JobCounts(s[id := c], owner) == JobCounts(s, owner)[id := RetainedJob(c, owner)];
    SumUpdate(JobCounts(s, owner), id, RetainedJob(c, owner));
  }

  lemma OthersReplace(s: Site, owner: UserId, id: JobId, k: JobId, c: Cell)
    requires id in s && k in s && k != id
    ensures OthersBytes(s[id := c], owner, k) ==
              OthersBytes(s, owner, k) - RetainedArchive(s[id], owner) + RetainedArchive(c, owner)
  {
    BytesSplit(s, owner, k);
    BytesSplit(s[id := c], owner, k);
    BytesReplace(s, owner, id, c);
  }

  // ---------------------------------------------------------------- what an event does to its row

  // No new activity, and no archive beyond the old one.
  predicate Modest(j: Job, job': Option<Job>) {
    job'.Some? ==>
      && (Active(job'.value) ==> Active(j))
      && (job'.value.archiveBytes.Some? ==> job'.value.archiveBytes == j.archiveBytes)
  }

  lemma GiveUpModest(cfg: Config, j: Job, l: LeaseId, w: Worker, at: Millis, error: string)
    requires Owns(j, l) ==> w.oldBytes == j.archiveBytes
    ensures Saves(GiveUpScript(cfg, Some(j), l, w, at, error), job => Modest(j, job))
  {
    var p: Option<Job> -> bool := job => Modest(j, job);
    var sc := GiveUpScript(cfg, Some(j), l, w, at, error);
    assert p(sc.rest.rest.effect.job);
    assert Saves(sc.rest.rest.rest, p);
    assert Saves(sc.rest.rest, p);
    assert Saves(sc.rest, p);
  }

  lemma EndModest(cfg: Config, c: Cell, a: Action)
    requires CellOk(cfg, c) && Enabled(cfg, c, a) && c.job.Some? && (a.Finish? || a.ZipFail?)
    ensures Saves(ScriptOf(cfg, c, a), job => Modest(c.job.value, job))
  {
    var j, l, w := c.job.value, a.lease, c.workers[a.lease];
    var p: Option<Job> -> bool := job => Modest(j, job);
    var sc := ScriptOf(cfg, c, a);
    assert c.job == Some(j);
    WorkerOf(cfg, c, l);
    if a.ZipFail? {
      GiveUpModest(cfg, j, l, w, w.phase.completedAt, a.error);
    } else if !OwnsRow(c.job, l) {
      if sc.Then? { assert Saves(sc.rest, p); }
    } else if !FinalStatus(j).Failed? && FinishError(cfg, w, a.retained, a.free).Some? {
      GiveUpModest(cfg, j, l, w, a.now, FinishError(cfg, w, a.retained, a.free).value);
    } else {
      OneSave(sc.effect.job, sc.rest, p);
    }
  }

  lemma RouteModest(cfg: Config, c: Cell, a: Action)
    requires Enabled(cfg, c, a) && c.job.Some? && (!HasLease(a) || a.Claim?) && !a.Retry?
    ensures Saves(ScriptOf(cfg, c, a), job => Modest(c.job.value, job))
  {
  }

  lemma AttemptModest(cfg: Config, c: Cell, a: Action)
    requires Enabled(cfg, c, a) && c.job.Some? && HasLease(a) && !a.Claim? && !a.Finish? && !a.ZipFail? && !a.ZipDone?
    ensures Saves(ScriptOf(cfg, c, a), job => Modest(c.job.value, job))
  {
    var p: Option<Job> -> bool := job => Modest(c.job.value, job);
    var sc := ScriptOf(cfg, c, a);
    if sc.Then? && sc.rest.Then? && sc.rest.rest.Then? {
      assert Saves(sc.rest.rest.rest, p);
      assert Saves(sc.rest.rest, p);
    }
    if sc.Then? { assert Saves(sc.rest, p); }
    assert Saves(sc, p);
  }

  // A publication may store the archive's size, and never activates.
  predicate Sized(j: Job, job': Option<Job>, size: nat) {
    job'.Some? ==>
      && (Active(job'.value) ==> Active(j))
      && (job'.value.archiveBytes.Some? ==>
          job'.value.archiveBytes == j.archiveBytes || job'.value.archiveBytes == Some(size))
  }

  lemma ArchiveSized(cfg: Config, c: Cell, a: Action)
    requires CellOk(cfg, c) && Enabled(cfg, c, a) && a.ZipDone? && c.job.Some?
    ensures Saves(ScriptOf(cfg, c, a), job => Sized(c.job.value, job, |c.dir[ArchiveTmp(a.lease)]|))
    ensures !OwnsRow(c.job, a.lease) ==> Saves(ScriptOf(cfg, c, a), job => Modest(c.job.value, job))
  {
    var p: Option<Job> -> bool := job => Sized(c.job.value, job, |c.dir[ArchiveTmp(a.lease)]|);
    var q: Option<Job> -> bool := job => Modest(c.job.value, job);
    var sc := ScriptOf(cfg, c, a);
    WorkerOf(cfg, c, a.lease);
    assert Saves(sc.rest.rest.rest, p) && Saves(sc.rest.rest.rest, q);
    assert Saves(sc.rest.rest, p) && Saves(sc.rest.rest, q);
    assert Saves(sc.rest, p);
    assert !OwnsRow(c.job, a.lease) ==> Saves(sc.rest, q);
  }

  predicate Publishing(c: Cell, a: Action) { a.ZipDone? && OwnsRow(c.job, a.lease) }

  lemma ModestScript(cfg: Config, c: Cell, a: Action)
    requires CellOk(cfg, c) && Enabled(cfg, c, a) && c.job.Some? && !a.Retry? && !Publishing(c, a)
    ensures Saves(ScriptOf(cfg, c, a), job => Modest(c.job.value, job))
  {
    if a.ZipDone? {
      ArchiveSized(cfg, c, a);
    } else if a.Finish? || a.ZipFail? {
      EndModest(cfg, c, a);
    } else if HasLease(a) && !a.Claim? {
      AttemptModest(cfg, c, a);
    } else {
      RouteModest(cfg, c, a);
    }
  }

  lemma EventDelta(cfg: Config, c: Cell, e: Event)
    requires CellOk(cfg, c)
    ensures var job' := Do(cfg, c, e).job;
            && (c.job.None? ==> job'.None?)
            && (c.job.Some? ==> KinRow(c.job.value, job'))
            && (c.job.Some? && !e.action.Retry? && !Publishing(c, e.action) ==> Modest(c.job.value, job'))
            && (c.job.Some? && e.action.Retry? && job'.Some? ==> job'.value.archiveBytes == c.job.value.archiveBytes)
            && (c.job.Some? && Publishing(c, e.action) && Enabled(cfg, c, e.action) ==>
                  Sized(c.job.value, job', |c.dir[ArchiveTmp(e.action.lease)]|))
            && (!Enabled(cfg, c, e.action) ==> job' == c.job)
  {
    if c.job.None? {
      GoneStaysGone(cfg, c, e);
    } else {
      DoKin(cfg, c, e);
      if Enabled(cfg, c, e.action) {
        if e.action.Retry? {
          assert Saves(ScriptOf(cfg, c, e.action), (job: Option<Job>) => job.Some? ==>
              job.value.archiveBytes == c.job.value.archiveBytes);
          EventSaves(cfg, c, e, (job: Option<Job>) => job.Some? ==> job.value.archiveBytes == c.job.value.archiveBytes);
        } else if Publishing(c, e.action) {
          ArchiveSized(cfg, c, e.action);
          EventSaves(cfg, c, e, job => Sized(c.job.value, job, |c.dir[ArchiveTmp(e.action.lease)]|));
        } else {
          ModestScript(cfg, c, e.action);
          EventSaves(cfg, c, e, job => Modest(c.job.value, job));
        }
      }
    }
  }

  // ---------------------------------------------------------------- the limits are inductive

  lemma AtOneActive(cfg: Config, s: Site, id: JobId, e: Event)
    requires SiteOk(cfg, s) && id in s && Allowed(s, id, e.action)
    ensures OneActive(s[id := Do(cfg, s[id], e)]) && Spaced(cfg, s[id := Do(cfg, s[id], e)])
  {
    var c' := Do(cfg, s[id], e);
    EventDelta(cfg, s[id], e);
    forall k | k in s && k != id
      ensures !BothActive(c', s[k]) && !BothActive(s[k], c') && Apart(cfg, c', s[k]) && Apart(cfg, s[k], c')
    {
      assert !BothActive(s[id], s[k]) && Apart(cfg, s[id], s[k]) && Apart(cfg, s[k], s[id]);
      if c'.job.Some? && e.action.Retry? { assert !ActiveFor(s[k], s[id].job.value.owner); }
    }
  }

  // Only a publication enlarges an owner's archives, and then within the cap.
  lemma AtArchive(cfg: Config, s: Site, id: JobId, e: Event, owner: UserId)
    requires SiteOk(cfg, s) && SiteRoomy(cfg, s) && id in s && ZipFits(s[id], e.action)
    ensures var c' := Do(cfg, s[id], e);
            || RetainedArchive(c', owner) <= RetainedArchive(s[id], owner)
            || (Publishing(s[id], e.action) && OwnedBy(s[id], owner)
                && OthersBytes(s, owner, id) + RetainedArchive(c', owner) <= cfg.maxRetainedBytes)
  {
    var c := s[id];
    EventDelta(cfg, c, e);
    if Publishing(c, e.action) && Enabled(cfg, c, e.action) {
      assert Roomy(cfg, s, id, e.action.lease);
    }
  }

  lemma AtJobs(cfg: Config, s: Site, id: JobId, e: Event, owner: UserId)
    requires SiteOk(cfg, s) && id in s
    ensures RetainedJobs(s[id := Do(cfg, s[id], e)], owner) <= cfg.maxRetainedJobs
  {
    EventDelta(cfg, s[id], e);
    BytesReplace(s, owner, id, Do(cfg, s[id], e));
  }

  lemma AtBytes(cfg: Config, s: Site, id: JobId, e: Event, owner: UserId)
    requires SiteOk(cfg, s) && SiteRoomy(cfg, s) && id in s && ZipFits(s[id], e.action)
    ensures RetainedBytes(s[id := Do(cfg, s[id], e)], owner) <= cfg.maxRetainedBytes
  {
    var c' := Do(cfg, s[id], e);
    AtArchive(cfg, s, id, e, owner);
    BytesReplace(s, owner, id, c');
    BytesSplit(s, owner, id);
  }

  // A worker is zipping only if it was so before with the same bound, or has just
  // passed the retained check.
  lemma ZippingWorker(cfg: Config, c: Cell, a: Action)
    requires Enabled(cfg, c, a) && HasLease(a)
    requires WorkerAfter(cfg, c, a).Some? && WorkerAfter(cfg, c, a).value.phase.Zipping?
    ensures a.lease in c.workers && WorkerAfter(cfg, c, a).value.aggregate == c.workers[a.lease].aggregate
    ensures c.workers[a.lease].phase.Zipping?
            || (a.Finish? && a.retained + c.workers[a.lease].aggregate + ARCHIVE_OVERHEAD <= cfg.maxRetainedBytes)
  {
  }

  predicate ZippingFor(c: Cell, l: LeaseId) { l in c.workers && c.workers[l].phase.Zipping? && OwnsRow(c.job, l) }

  lemma ZippingStep(cfg: Config, c: Cell, e: Event, l: LeaseId)
    requires CellOk(cfg, c) && ZippingFor(Do(cfg, c, e), l)
    ensures l in c.workers && OwnsRow(c.job, l) && Do(cfg, c, e).workers[l].aggregate == c.workers[l].aggregate
    ensures c.workers[l].phase.Zipping?
            || (e.action.Finish? && e.action.lease == l
                && e.action.retained + c.workers[l].aggregate + ARCHIVE_OVERHEAD <= cfg.maxRetainedBytes)
  {
    Survivor(cfg, c, e, l);
    if ByLease(e, l) && Enabled(cfg, c, e.action) { ZippingWorker(cfg, c, e.action); }
    ZippingOwner(cfg, c, e, l);
  }

  lemma ZippingOwner(cfg: Config, c: Cell, e: Event, l: LeaseId)
    requires CellOk(cfg, c) && l in c.workers && OwnsRow(Do(cfg, c, e).job, l)
    ensures OwnsRow(c.job, l)
  {
    WorkerOf(cfg, c, l);
    if !OwnsRow(c.job, l) { FencedStep(cfg, c, e, l); }
  }

  lemma AtRoomySelf(cfg: Config, s: Site, id: JobId, e: Event, l: LeaseId)
    requires SiteOk(cfg, s) && SiteRoomy(cfg, s) && id in s && Allowed(s, id, e.action)
    ensures Roomy(cfg, s[id := Do(cfg, s[id], e)], id, l)
  {
    var c' := Do(cfg, s[id], e);
    if ZippingFor(c', l) {
      ZippingStep(cfg, s[id], e, l);
      EventDelta(cfg, s[id], e);
      BytesReplace(s, c'.job.value.owner, id, c');
      assert Roomy(cfg, s, id, l);
    }
  }

  // While one job of an owner publishes, no other job of that owner is running.
  lemma AtRoomyOther(cfg: Config, s: Site, id: JobId, e: Event, k: JobId, l: LeaseId)
    requires SiteOk(cfg, s) && SiteRoomy(cfg, s) && id in s && k in s && k != id && ZipFits(s[id], e.action)
    ensures Roomy(cfg, s[id := Do(cfg, s[id], e)], k, l)
  {
    if ZippingFor(s[k], l) {
      var owner := s[k].job.value.owner;
      AtArchive(cfg, s, id, e, owner);
      OthersReplace(s, owner, id, k, Do(cfg, s[id], e));
      assert Roomy(cfg, s, k, l);
      assert !BothActive(s[id], s[k]);
    }
  }

  lemma AtOk(cfg: Config, s: Site, id: JobId, e: Event)
    requires SiteOk(cfg, s) && id in s && Allowed(s, id, e.action)
    ensures SiteOk(cfg, s[id := Do(cfg, s[id], e)])
  {
    var s' := s[id := Do(cfg, s[id], e)];
    DoOk(cfg, s[id], e);
    AtOneActive(cfg, s, id, e);
    forall o ensures RetainedJobs(s', o) <= cfg.maxRetainedJobs { AtJobs(cfg, s, id, e, o); }
  }

  lemma AtRoomy(cfg: Config, s: Site, id: JobId, e: Event)
    requires SiteOk(cfg, s) && SiteRoomy(cfg, s) && id in s && Allowed(s, id, e.action) && ZipFits(s[id], e.action)
    ensures SiteRoomy(cfg, s[id := Do(cfg, s[id], e)])
  {
    var s' := s[id := Do(cfg, s[id], e)];
    forall o ensures RetainedBytes(s', o) <= cfg.maxRetainedBytes { AtBytes(cfg, s, id, e, o); }
    forall k, l | k in s' ensures Roomy(cfg, s', k, l) {
      if k == id { AtRoomySelf(cfg, s, id, e, l); } else { AtRoomyOther(cfg, s, id, e, k, l); }
    }
  }

  // ---------------------------------------------------------------- creation

  lemma CreateSums(s: Site, id: JobId, c: Cell, owner: UserId)
    requires id !in s && RetainedArchive(c, owner) == 0
    ensures RetainedJobs(s[id := c], owner) == RetainedJobs(s, owner) + RetainedJob(c, owner)
    ensures RetainedBytes(s[id := c], owner) == RetainedBytes(s, owner)
    ensures forall k :: k in s ==> OthersBytes(s[id := c], owner, k) == OthersBytes(s, owner, k)
  {
    assert JobCounts(s[id := c], owner) == JobCounts(s, owner)[id := RetainedJob(c, owner)];
    SumInsert(JobCounts(s, owner), id, RetainedJob(c, owner));
    assert ArchiveSizes(s[id := c], owner) == ArchiveSizes(s, owner)[id := 0];
    SumInsert(ArchiveSizes(s, owner), id, 0);
    forall k | k in s ensures OthersBytes(s[id := c], owner, k) == OthersBytes(s, owner, k) {
      BytesSplit(s, owner, k);
      BytesSplit(s[id := c], owner, k);
    }
  }

  lemma CreateOk(cfg: Config, s: Site, id: JobId, owner: UserId, now: Millis, services: set<Service>)
    requires SiteOk(cfg, s) && Creates(cfg, s, id, owner, now, services)
    ensures SiteOk(cfg, s[id := NewCell(owner, now, services)])
  {
    var c := NewCell(owner, now, services);
    NewCellOk(cfg, owner, now, services);
    forall k | k in s
      ensures !BothActive(c, s[k]) && !BothActive(s[k], c) && Apart(cfg, c, s[k]) && Apart(cfg, s[k], c)
    {
      assert !ActiveFor(s[k], owner);
    }
    var s' := s[id := c];
    forall o ensures RetainedJobs(s', o) <= cfg.maxRetainedJobs { CreateSums(s, id, c, o); }
  }

  lemma CreateRoomy(cfg: Config, s: Site, id: JobId, owner: UserId, now: Millis, services: set<Service>)
    requires SiteRoomy(cfg, s) && Creates(cfg, s, id, owner, now, services)
    ensures SiteRoomy(cfg, s[id := NewCell(owner, now, services)])
  {
    var c := NewCell(owner, now, services);
    var s' := s[id := c];
    forall o ensures RetainedBytes(s', o) <= cfg.maxRetainedBytes { CreateSums(s, id, c, o); }
    forall k, l | k in s' ensures Roomy(cfg, s', k, l) {
      if k != id && ZippingFor(s[k], l) {
        assert Roomy(cfg, s, k, l);
        CreateSums(s, id, c, s[k].job.value.owner);
      }
    }
  }

  // ---------------------------------------------------------------- every run

  lemma SiteStepOk(cfg: Config, s: Site, g: SiteEvent)
    requires SiteOk(cfg, s)
    ensures SiteOk(cfg, SiteDo(cfg, s, g))
    ensures SiteRoomy(cfg, s) && Fits(s, g) ==> SiteRoomy(cfg, SiteDo(cfg, s, g))
  {
    if (g.At? ==> g.id in s) && Happens(cfg, s, g) {
      match g {
        case Create(id, owner, now, services) =>
          CreateOk(cfg, s, id, owner, now, services);
          if SiteRoomy(cfg, s) { CreateRoomy(cfg, s, id, owner, now, services); }
        case At(id, e) =>
          AtOk(cfg, s, id, e);
          if SiteRoomy(cfg, s) && Fits(s, g) { AtRoomy(cfg, s, id, e); }
      }
    }
  }

  ghost predicate AllFit(cfg: Config, gs: seq<SiteEvent>) {
    forall i :: 0 <= i < |gs| ==> Fits(SiteRun(cfg, gs[..i]), gs[i])
  }

  lemma EmptySite(cfg: Config, owner: UserId)
    ensures RetainedJobs(map[], owner) == 0 && RetainedBytes(map[], owner) == 0
  {
  }

  lemma {:induction false} SiteRunOk(cfg: Config, gs: seq<SiteEvent>)
    ensures SiteOk(cfg, SiteRun(cfg, gs))
    ensures AllFit(cfg, gs) ==> SiteRoomy(cfg, SiteRun(cfg, gs))
  {
    if gs == [] {
      forall o ensures RetainedJobs(map[], o) == 0 && RetainedBytes(map[], o) == 0 { EmptySite(cfg, o); }
    } else {
      var hs := gs[..|gs| - 1];
      SiteRunOk(cfg, hs);
      SiteStepOk(cfg, SiteRun(cfg, hs), gs[|gs| - 1]);
      if AllFit(cfg, gs) {
        forall i | 0 <= i < |hs| ensures Fits(SiteRun(cfg, hs[..i]), hs[i]) { assert hs[..i] == gs[..i]; }
      }
    }
  }

  function Distance(a: Millis, b: Millis): nat { if a <= b then b - a else a - b }

  // Any interleaving of creations, dispatches, routes, cleanup and crashes keeps
  // every owner within the limits.
  lemma {:induction false} OwnerLimits(cfg: Config, gs: seq<SiteEvent>, owner: UserId)
    ensures var s := SiteRun(cfg, gs);
            // the partial unique index on (owner) WHERE status IN ('queued', 'running')
            && (forall i, k :: i in s && k in s && ActiveFor(s[i], owner) && ActiveFor(s[k], owner) ==> i == k)
            && (forall i, k :: i in s && k in s && i != k && OwnedBy(s[i], owner) && OwnedBy(s[k], owner) ==>
                  Distance(s[i].job.value.createdAt, s[k].job.value.createdAt) >= cfg.cooldownMs)
            && RetainedJobs(s, owner) <= cfg.maxRetainedJobs
            && (AllFit(cfg, gs) ==> RetainedBytes(s, owner) <= cfg.maxRetainedBytes)
  {
    SiteRunOk(cfg, gs);
    var s := SiteRun(cfg, gs);
    forall i, k | i in s && k in s && i != k && OwnedBy(s[i], owner) && OwnedBy(s[k], owner)
      ensures !BothActive(s[i], s[k]) && Apart(cfg, s[i], s[k])
    {
    }
  }
}
