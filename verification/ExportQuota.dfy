// The export directory as a whole. The worker never starts a dispatch while one
// is active; under that discipline the quota bounds the bytes on disk in every run.
module ExportQuota {
  import opened Common
  import opened MapSums
  import opened ExportRows
  import opened ExportCell
  import opened ExportDurable
  import opened ExportLive
  import opened ExportSteps
  import opened ExportRuns
  import opened ExportTheorems
  import opened ExportOwners
  import opened ExportStorage

  ghost function JobBytes(s: Site): map<JobId, int> { map id | id in s :: DirBytes(s[id].dir) }

  // directoryBytes(exportDir)
  ghost function TotalBytes(s: Site): int { Sum(JobBytes(s)) }

  predicate Quiet(s: Site) { forall id :: id in s ==> s[id].workers == map[] }

  // At most one dispatch is alive.
  predicate Solo(s: Site) {
    forall id, k, l, m :: id in s && k in s && l in s[id].workers && m in s[k].workers ==> id == k && l == m
  }

  // The budget charges at least what the disk holds or may still come to hold.
  ghost predicate Charged(cfg: Config, s: Site, id: JobId, l: LeaseId)
    requires id in s && l in s[id].workers
  {
    var w := s[id].workers[l];
    TotalBytes(s) - DirBytes(s[id].dir) + Burden(l, w, s[id].dir) <= w.usage <= cfg.storageQuotaBytes
  }

  ghost predicate StorageOk(cfg: Config, s: Site) {
    && Solo(s)
    && TotalBytes(s) <= cfg.storageQuotaBytes
    && (forall id, l :: id in s && l in s[id].workers ==> Charged(cfg, s, id, l))
  }

  // startExportWorker's `active` guard, and the directory scan of storageBudget.
  ghost predicate StartsAlone(s: Site, id: JobId, a: Action)
    requires id in s
  {
    a.Claim? && s[id].job.Some? ==>
      && Quiet(s)
      && a.usage == TotalBytes(s) - DirBytes(s[id].dir) + DirBytes(s[id].dir - Swept(s[id].job.value, s[id].dir))
  }

  ghost function SoloDo(cfg: Config, s: Site, g: SiteEvent): Site {
    if g.At? && g.id in s && !StartsAlone(s, g.id, g.event.action) then s else SiteDo(cfg, s, g)
  }

  ghost function SoloRun(cfg: Config, s: Site, gs: seq<SiteEvent>): Site {
    if gs == [] then s else SoloDo(cfg, SoloRun(cfg, s, gs[..|gs| - 1]), gs[|gs| - 1])
  }

  // ---------------------------------------------------------------- sums

  lemma TotalReplace(s: Site, id: JobId, c: Cell)
    requires id in s
    ensures TotalBytes(s[id := c]) == TotalBytes(s) - DirBytes(s[id].dir) + DirBytes(c.dir)
  {
    assert JobBytes(s[id := c]) == JobBytes(s)[id := DirBytes(c.dir)];
    SumUpdate(JobBytes(s), id, DirBytes(c.dir));
  }

  lemma TotalInsert(s: Site, id: JobId, c: Cell)
    requires id !in s && c.dir == map[]
    ensures TotalBytes(s[id := c]) == TotalBytes(s)
  {
    assert FileSizes(map[]) == map[];
    assert JobBytes(s[id := c]) == JobBytes(s)[id := 0];
    SumInsert(JobBytes(s), id, 0);
  }

  // ---------------------------------------------------------------- one event

  lemma ClaimCharge(cfg: Config, c: Cell, a: Action)
    requires Enabled(cfg, c, a) && a.Claim?
    ensures var c' := Next(cfg, c, a);
            && c'.dir == c.dir - Swept(c.job.value, c.dir)
            && a.lease in c'.workers && c'.workers[a.lease].usage == a.usage
            && Burden(a.lease, c'.workers[a.lease], c'.dir) == DirBytes(c'.dir)
            && DirBytes(c'.dir) <= DirBytes(c.dir)
  {
    ClaimRun(cfg, c, a);
    var c' := Next(cfg, c, a);
    FlightNone();
    assert Others(a.lease, c'.workers[a.lease], c'.dir) == c'.dir;
    ShrinkBytes(c.dir, c'.dir);
  }

  // The actor's charge after its own step, in the job's own terms.
  lemma ActorCharge(cfg: Config, s: Site, id: JobId, a: Action, w': Worker)
    requires SiteOk(cfg, s) && StorageOk(cfg, s) && id in s && StartsAlone(s, id, a)
    requires Enabled(cfg, s[id], a) && HasLease(a) && WorkerAfter(cfg, s[id], a) == Some(w')
    ensures TotalBytes(s) - DirBytes(s[id].dir) + Burden(a.lease, w', Next(cfg, s[id], a).dir) <= w'.usage
    ensures w'.usage <= cfg.storageQuotaBytes
  {
    if a.Claim? {
      ClaimCharge(cfg, s[id], a);
    } else {
      assert Charged(cfg, s, id, a.lease);
      ActorCovers(cfg, s[id], a, s[id].workers[a.lease], w', Next(cfg, s[id], a).dir);
    }
  }

  predicate Removes(s: Script)
    decreases s
  {
    s.Then? ==> !s.effect.Put? && !s.effect.Move? && Removes(s.rest)
  }

  lemma {:induction false} RemovesShrinks(c: Cell, s: Script)
    requires Removes(s)
    ensures Shrinks(c.dir, Play(c, s).dir)
    decreases s
  {
    if s.Then? { RemovesShrinks(Apply(c, s.effect), s.rest); }
  }

  // Routes and cleanup only remove files.
  lemma RouteShrinks(cfg: Config, c: Cell, a: Action)
    requires Enabled(cfg, c, a) && !HasLease(a)
    ensures Shrinks(c.dir, Next(cfg, c, a).dir)
  {
    var sc := ScriptOf(cfg, c, a);
    if sc.rest.Then? { assert Removes(sc.rest.rest); }
    assert Removes(sc.rest);
    RemovesShrinks(c, sc);
  }

  lemma NextTotal(cfg: Config, s: Site, id: JobId, a: Action)
    requires SiteOk(cfg, s) && StorageOk(cfg, s) && id in s && StartsAlone(s, id, a)
    ensures TotalBytes(s) - DirBytes(s[id].dir) + DirBytes(Next(cfg, s[id], a).dir) <= cfg.storageQuotaBytes
  {
    if Enabled(cfg, s[id], a) {
      if Writes(a) {
        var w' := WorkerAfter(cfg, s[id], a).value;
        ActorCharge(cfg, s, id, a, w');
        NextOk(cfg, s[id], a);
        WorkerOf(cfg, Next(cfg, s[id], a), a.lease);
        BurdenCovers(cfg, a.lease, w', Next(cfg, s[id], a).dir);
      } else {
        QuietBytes(cfg, s[id], a);
      }
    }
  }

  lemma EventTotal(cfg: Config, s: Site, id: JobId, e: Event)
    requires SiteOk(cfg, s) && StorageOk(cfg, s) && id in s && StartsAlone(s, id, e.action)
    ensures TotalBytes(s[id := Do(cfg, s[id], e)]) <= cfg.storageQuotaBytes
  {
    TotalReplace(s, id, Do(cfg, s[id], e));
    NextTotal(cfg, s, id, e.action);
    if e.CrashIn? { CrashBytes(cfg, s[id], e.action, e.after, e.lost); }
  }

  // The only dispatch that can be alive after an event on job id.
  lemma EventCharge(cfg: Config, s: Site, id: JobId, e: Event, l: LeaseId)
    requires SiteOk(cfg, s) && StorageOk(cfg, s) && id in s && StartsAlone(s, id, e.action)
    requires l in Do(cfg, s[id], e).workers
    ensures Charged(cfg, s[id := Do(cfg, s[id], e)], id, l)
  {
    var c, c' := s[id], Do(cfg, s[id], e);
    TotalReplace(s, id, c');
    Survivor(cfg, c, e, l);
    if Enabled(cfg, c, e.action) && ByLease(e, l) {
      ActorCharge(cfg, s, id, e.action, c'.workers[l]);
    } else {
      assert Charged(cfg, s, id, l);
      if Enabled(cfg, c, e.action) {
        assert !HasLease(e.action);
        RouteShrinks(cfg, c, e.action);
      }
      SameCovers(cfg, l, c.workers[l], c'.workers[l], c.dir, c'.dir);
    }
  }

  lemma Alone(s: Site, id: JobId, k: JobId, l: LeaseId)
    requires Solo(s) && id in s && k in s && k != id && l in s[k].workers
    ensures s[id].workers == map[]
  {
  }

  // With no dispatch alive and none starting, an event can only remove files.
  lemma IdleEvent(cfg: Config, c: Cell, e: Event)
    requires c.workers == map[] && !e.action.Claim?
    ensures DirBytes(Do(cfg, c, e).dir) <= DirBytes(c.dir) && Do(cfg, c, e).workers == map[]
  {
    if Enabled(cfg, c, e.action) {
      assert !HasLease(e.action);
      QuietBytes(cfg, c, e.action);
      if e.CrashIn? { CrashBytes(cfg, c, e.action, e.after, e.lost); }
    }
  }

  // A dispatch on another job: this event can only be a route or cleanup.
  lemma OtherCharge(cfg: Config, s: Site, id: JobId, e: Event, k: JobId, l: LeaseId)
    requires SiteOk(cfg, s) && StorageOk(cfg, s) && id in s && StartsAlone(s, id, e.action)
    requires k in s && k != id && l in s[k].workers
    ensures Charged(cfg, s[id := Do(cfg, s[id], e)], k, l)
    ensures Do(cfg, s[id], e).workers == map[]
  {
    Alone(s, id, k, l);
    TotalReplace(s, id, Do(cfg, s[id], e));
    assert Charged(cfg, s, k, l);
    if !e.action.Claim? || s[id].job.Some? {
      IdleEvent(cfg, s[id], e);
    }
  }

  lemma StaysSolo(cfg: Config, s: Site, id: JobId, e: Event)
    requires SiteOk(cfg, s) && StorageOk(cfg, s) && id in s && StartsAlone(s, id, e.action)
    ensures Solo(s[id := Do(cfg, s[id], e)])
  {
    var c' := Do(cfg, s[id], e);
    forall k, l, m | k in s && l in s[k].workers && m in c'.workers ensures k == id {
      OnlyHere(cfg, s, id, e, k, l, m);
    }
    OneSurvivor(cfg, s, id, e);
    SoloAt(s, id, c');
  }

  lemma SoloAt(s: Site, id: JobId, c': Cell)
    requires Solo(s) && id in s
    requires forall k, l, m :: k in s && l in s[k].workers && m in c'.workers ==> k == id
    requires forall l, m :: l in c'.workers && m in c'.workers ==> l == m
    ensures Solo(s[id := c'])
  {
  }

  lemma OnlyHere(cfg: Config, s: Site, id: JobId, e: Event, k: JobId, l: LeaseId, m: LeaseId)
    requires SiteOk(cfg, s) && StorageOk(cfg, s) && id in s && StartsAlone(s, id, e.action)
    requires k in s && l in s[k].workers && m in Do(cfg, s[id], e).workers
    ensures k == id
  {
    if k != id { OtherCharge(cfg, s, id, e, k, l); }
  }

  lemma OneSurvivor(cfg: Config, s: Site, id: JobId, e: Event)
    requires Solo(s) && id in s && StartsAlone(s, id, e.action)
    ensures forall l, m :: l in Do(cfg, s[id], e).workers && m in Do(cfg, s[id], e).workers ==> l == m
  {
  }

  lemma AtStorage(cfg: Config, s: Site, id: JobId, e: Event)
    requires SiteOk(cfg, s) && StorageOk(cfg, s) && id in s && StartsAlone(s, id, e.action)
    ensures StorageOk(cfg, s[id := Do(cfg, s[id], e)])
  {
    var s' := s[id := Do(cfg, s[id], e)];
    EventTotal(cfg, s, id, e);
    StaysSolo(cfg, s, id, e);
    forall k, l | k in s' && l in s'[k].workers ensures Charged(cfg, s', k, l) {
      if k == id { EventCharge(cfg, s, id, e, l); } else { OtherCharge(cfg, s, id, e, k, l); }
    }
  }

  lemma CreateSolo(s: Site, id: JobId, c: Cell)
    requires Solo(s) && id !in s && c.workers == map[]
    ensures Solo(s[id := c])
  {
  }

  lemma CreateStorage(cfg: Config, s: Site, id: JobId, c: Cell)
    requires StorageOk(cfg, s) && id !in s && c.workers == map[] && c.dir == map[]
    ensures StorageOk(cfg, s[id := c])
  {
    var s' := s[id := c];
    TotalInsert(s, id, c);
    CreateSolo(s, id, c);
    forall k, l | k in s' && l in s'[k].workers ensures Charged(cfg, s', k, l) {
      assert Charged(cfg, s, k, l);
    }
  }

  lemma SoloStepOk(cfg: Config, s: Site, g: SiteEvent)
    requires SiteOk(cfg, s) && StorageOk(cfg, s)
    ensures SiteOk(cfg, SoloDo(cfg, s, g)) && StorageOk(cfg, SoloDo(cfg, s, g))
  {
    SiteStepOk(cfg, s, g);
    if (g.At? ==> g.id in s) && Happens(cfg, s, g) {
      match g {
        case Create(id, owner, now, services) => CreateStorage(cfg, s, id, NewCell(owner, now, services));
        case At(id, e) => if StartsAlone(s, id, e.action) { AtStorage(cfg, s, id, e); }
      }
    }
  }

  // A directory that starts within its quota stays within it, and no dispatch's
  // `usage` is ever below the bytes really there, in every run.
  lemma {:induction false} QuotaHolds(cfg: Config, s: Site, gs: seq<SiteEvent>)
    requires SiteOk(cfg, s) && Quiet(s) && TotalBytes(s) <= cfg.storageQuotaBytes
    ensures var s' := SoloRun(cfg, s, gs);
            && SiteOk(cfg, s') && StorageOk(cfg, s')
            && TotalBytes(s') <= cfg.storageQuotaBytes
            && (forall id, l :: id in s' && l in s'[id].workers ==> TotalBytes(s') <= s'[id].workers[l].usage)
  {
    if gs != [] {
      QuotaHolds(cfg, s, gs[..|gs| - 1]);
      SoloStepOk(cfg, SoloRun(cfg, s, gs[..|gs| - 1]), gs[|gs| - 1]);
    }
    var s' := SoloRun(cfg, s, gs);
    forall id, l | id in s' && l in s'[id].workers ensures TotalBytes(s') <= s'[id].workers[l].usage {
      WorkerOf(cfg, s'[id], l);
      BurdenCovers(cfg, l, s'[id].workers[l], s'[id].dir);
      assert Charged(cfg, s', id, l);
    }
  }

  // The releases a dispatch may make next: that of a failed attempt, that of a failed
  // archive, and that of an archive refused before it was begun, which finds no file
  // and gives back 0.
  predicate Unclamped(w: Worker, temporary: nat) {
    && (forall s :: s in w.flights ==> Max(0, w.usage - w.flights[s].bytes) == w.usage - w.flights[s].bytes)
    && Max(0, w.usage - temporary) == w.usage - temporary
    && temporary <= Reserved(w)
    && (w.phase.Fetching? ==> temporary == 0)
  }

  lemma ReleasesWithin(cfg: Config, l: LeaseId, w: Worker, dir: map<FileName, Content>)
    requires FilesOk(cfg, l, w, dir) && UsageOk(w)
    ensures Unclamped(w, TemporaryBytes(l, dir))
  {
    FlightsNonNegative(w.flights);
    forall s | s in w.flights ensures w.flights[s].bytes <= w.usage { FlightRemove(w.flights, s); }
  }

  lemma ReleasesOf(cfg: Config, c: Cell, l: LeaseId)
    requires CellOk(cfg, c) && l in c.workers
    ensures Unclamped(c.workers[l], TemporaryBytes(l, c.dir))
  {
    WorkerOf(cfg, c, l);
    ReleasesWithin(cfg, l, c.workers[l], c.dir);
  }

  lemma {:induction false} CellOfRun(cfg: Config, gs: seq<SiteEvent>, id: JobId)
    requires id in SiteRun(cfg, gs)
    ensures CellOk(cfg, SiteRun(cfg, gs)[id])
  {
    SiteRunOk(cfg, gs);
  }

  // Every release gives back at most what the dispatch has reserved and still counts,
  // so the clamp at zero never acts, in any run with any number of dispatches.
  lemma {:induction false} ClampNeverActs(cfg: Config, gs: seq<SiteEvent>, id: JobId, l: LeaseId)
    requires id in SiteRun(cfg, gs) && l in SiteRun(cfg, gs)[id].workers
    ensures var c := SiteRun(cfg, gs)[id]; Unclamped(c.workers[l], TemporaryBytes(l, c.dir))
  {
    CellOfRun(cfg, gs, id);
    ReleasesOf(cfg, SiteRun(cfg, gs)[id], l);
  }
}
