// What the retry route makes of a finished dispatch: which published jobs it
// accepts, exactly which it refuses, and that a refused job stays refused.
module ExportRetry {
  import opened Common
  import opened MapSums
  import opened ExportRows
  import opened ExportCell
  import opened ExportDurable
  import opened ExportLive
  import opened ExportSteps
  import opened ExportPublish
  import opened ExportRuns
  import opened ExportTheorems
  import opened ExportPool

  // ---------------------------------------------------------------- what a publication stores

  // The publications that store no archive error: the archive is finished, or there
  // was nothing to archive.
  predicate ArchiveFine(c: Cell, a: Action) {
    a.ZipDone? || (a.Finish? && c.job.Some? && FinalStatus(c.job.value).Failed?)
  }

  // The rows are untouched, and either an archive error or the status they deserve is stored.
  predicate PublishedFrom(j: Job, fine: bool, job': Option<Job>) {
    && job'.Some? && job'.value.rows == j.rows
    && (job'.value.lastError.None? <==> fine)
    && (fine ==> job'.value.status == FinalStatus(j))
  }

  lemma GiveUpFrom(cfg: Config, j: Job, l: LeaseId, w: Worker, at: Millis, error: string)
    requires Owns(j, l)
    ensures Saves(GiveUpScript(cfg, Some(j), l, w, at, error), job => PublishedFrom(j, false, job))
    ensures Commits(GiveUpScript(cfg, Some(j), l, w, at, error))
  {
    var p: Option<Job> -> bool := job => PublishedFrom(j, false, job);
    var sc := GiveUpScript(cfg, Some(j), l, w, at, error);
    assert sc.rest.rest.effect.Save? && p(sc.rest.rest.effect.job);
    assert Saves(sc.rest.rest.rest, p);
    assert Saves(sc.rest.rest, p) && Commits(sc.rest.rest);
    assert Saves(sc.rest, p) && Commits(sc.rest);
  }

  lemma ArchiveFrom(cfg: Config, j: Job, l: LeaseId, w: Worker, size: nat)
    requires Owns(j, l) && w.phase.Zipping? && w.phase.status == FinalStatus(j)
    ensures Saves(PublishScript(cfg, Some(j), l, w, size), job => PublishedFrom(j, true, job))
    ensures Commits(PublishScript(cfg, Some(j), l, w, size))
  {
    var p: Option<Job> -> bool := job => PublishedFrom(j, true, job);
    var sc := PublishScript(cfg, Some(j), l, w, size);
    assert sc.rest.effect.Save? && p(sc.rest.effect.job);
    assert Saves(sc.rest.rest.rest, p);
    assert Saves(sc.rest.rest, p);
    assert Saves(sc.rest, p) && Commits(sc.rest);
  }

  lemma FinishingSaves(cfg: Config, c: Cell, a: Action, l: LeaseId, j: Job, w: Worker, fine: bool)
    requires Publishes(cfg, c, a, l) && a.Finish? && c.job == Some(j) && w == c.workers[l]
    requires fine == FinalStatus(j).Failed?
    ensures Saves(ScriptOf(cfg, c, a), job => PublishedFrom(j, fine, job)) && Commits(ScriptOf(cfg, c, a))
  {
    var sc := ScriptOf(cfg, c, a);
    if fine {
      OneSave(sc.effect.job, sc.rest, job => PublishedFrom(j, true, job));
    } else {
      GiveUpFrom(cfg, j, l, w, a.now, FinishError(cfg, w, a.retained, a.free).value);
    }
  }

  lemma PublishingSaves(cfg: Config, c: Cell, a: Action, l: LeaseId, j: Job, fine: bool)
    requires CellOk(cfg, c) && Publishes(cfg, c, a, l) && c.job == Some(j) && fine == ArchiveFine(c, a)
    ensures Saves(ScriptOf(cfg, c, a), job => PublishedFrom(j, fine, job)) && Commits(ScriptOf(cfg, c, a))
  {
    var w := c.workers[l];
    WorkerOf(cfg, c, l);
    if a.ZipDone? {
      HeldPublish(cfg, c, l);
      ArchiveFrom(cfg, j, l, w, |c.dir[ArchiveTmp(l)]|);
    } else if a.ZipFail? {
      GiveUpFrom(cfg, j, l, w, w.phase.completedAt, a.error);
    } else {
      FinishingSaves(cfg, c, a, l, j, w, fine);
    }
  }

  lemma PublishedResult(cfg: Config, c: Cell, a: Action, l: LeaseId)
    requires CellOk(cfg, c) && Publishes(cfg, c, a, l)
    ensures PublishedFrom(c.job.value, ArchiveFine(c, a), Next(cfg, c, a).job)
    ensures Idle(c.workers[l])
  {
    var j, fine := c.job.value, ArchiveFine(c, a);
    PublishingSaves(cfg, c, a, l, j, fine);
    WorkerOf(cfg, c, l);
    LastSaveLoses(WithLease(c, a), ScriptOf(cfg, c, a), job => PublishedFrom(j, fine, job));
  }

  // ---------------------------------------------------------------- refused, by the state before the publication

  // A published partial or failed job is refused by retry exactly when its archive
  // step is one that stores no error and no service row has failed: both are known
  // before the publication.
  lemma StuckExactly(cfg: Config, c: Cell, a: Action, l: LeaseId)
    requires CellOk(cfg, c) && Publishes(cfg, c, a, l)
    ensures var after := Next(cfg, c, a).job;
            && after.Some?
            && (after.value.status.Partial? || after.value.status.Failed? ==>
                 (!RetryAccepts(after.value) <==> ArchiveFine(c, a) && !AnyRow(c.job.value, RowStatus.Failed)))
  {
    PublishedResult(cfg, c, a, l);
    var j, j' := c.job.value, Next(cfg, c, a).job.value;
    assert AnyRow(j', RowStatus.Failed) <==> AnyRow(j, RowStatus.Failed);
  }

  // ---------------------------------------------------------------- refused, by the claim and its run

  // The event at which a runner of the dispatch passes over service s on the signal.
  ghost predicate PassesOver(cfg: Config, c: Cell, e: Event, l: LeaseId, s: Service) {
    && e.Step? && e.action.Take? && e.action.lease == l && e.action.abort && Enabled(cfg, c, e.action)
    && var w := c.workers[l]; w.next < |w.defs| && w.defs[w.next] == s
  }

  ghost predicate PassedOverAt(cfg: Config, c: Cell, es: seq<Event>, i: nat, l: LeaseId, s: Service) {
    i < |es| && PassesOver(cfg, Run(cfg, c, es[..i]), es[i], l, s)
  }

  ghost predicate PassedOver(cfg: Config, c: Cell, es: seq<Event>, l: LeaseId, s: Service) {
    exists i: nat :: PassedOverAt(cfg, c, es, i, l, s)
  }

  lemma EventSkips(cfg: Config, c: Cell, e: Event, l: LeaseId, s: Service)
    requires l in c.leases && l in Do(cfg, c, e).workers
    ensures l in c.workers
    ensures s in Do(cfg, c, e).workers[l].skipped <==> s in c.workers[l].skipped || PassesOver(cfg, c, e, l, s)
  {
    Survivor(cfg, c, e, l);
    if Enabled(cfg, c, e.action) && ByLease(e, l) { ActorSkips(cfg, c, e.action, s); }
  }

  lemma ActorSkips(cfg: Config, c: Cell, a: Action, s: Service)
    requires Enabled(cfg, c, a) && HasLease(a) && !a.Claim? && WorkerAfter(cfg, c, a).Some?
    ensures a.lease in c.workers
    ensures s in WorkerAfter(cfg, c, a).value.skipped <==>
              s in c.workers[a.lease].skipped || PassesOver(cfg, c, Step(a), a.lease, s)
  {
  }

  lemma {:induction false} PassedOverSnoc(cfg: Config, c: Cell, es: seq<Event>, e: Event, l: LeaseId, s: Service)
    ensures PassedOver(cfg, c, es + [e], l, s) <==>
              PassedOver(cfg, c, es, l, s) || PassesOver(cfg, Run(cfg, c, es), e, l, s)
  {
    var all := es + [e];
    assert all[..|es|] == es;
    if PassedOver(cfg, c, es, l, s) {
      var i: nat :| PassedOverAt(cfg, c, es, i, l, s);
      assert all[..i] == es[..i];
      assert PassedOverAt(cfg, c, all, i, l, s);
    }
    if PassesOver(cfg, Run(cfg, c, es), e, l, s) { assert PassedOverAt(cfg, c, all, |es|, l, s); }
    if PassedOver(cfg, c, all, l, s) {
      var i: nat :| PassedOverAt(cfg, c, all, i, l, s);
      if i < |es| {
        assert all[..i] == es[..i];
        assert PassedOverAt(cfg, c, es, i, l, s);
      }
    }
  }

  // The dispatch's history is that of the run.
  lemma {:induction false} HistoryOfRun(cfg: Config, c: Cell, es: seq<Event>, l: LeaseId, s: Service)
    requires l in c.leases && l in c.workers && c.workers[l].skipped == {}
    ensures var c' := Run(cfg, c, es);
            && l in c'.leases
            && (l in c'.workers ==>
                  && c'.workers[l].defs == c.workers[l].defs && c'.workers[l].base == c.workers[l].base
                  && (s in c'.workers[l].skipped <==> PassedOver(cfg, c, es, l, s)))
  {
    if es != [] {
      var hs, e := es[..|es| - 1], es[|es| - 1];
      var prior := Run(cfg, c, hs);
      assert es == hs + [e];
      HistoryOfRun(cfg, c, hs, l, s);
      FencedLeases(cfg, prior, e);
      if l in Do(cfg, prior, e).workers {
        HistoryFixed(cfg, prior, e, l);
        EventSkips(cfg, prior, e, l, s);
        PassedOverSnoc(cfg, c, hs, e, l, s);
      }
    }
  }

  // A service the dispatch is bound to attempt: unfinished at the claim, in the
  // registry, and never passed over.
  ghost predicate Attempts(cfg: Config, c1: Cell, claim: Action, es: seq<Event>, s: Service)
    requires claim.Claim?
  {
    s in claim.registry && !PassedOver(cfg, c1, es, claim.lease, s)
  }

  // What a claimed service comes to by the time its dispatch publishes.
  ghost predicate NeverFailed(cfg: Config, c: Cell, claim: Action, es: seq<Event>, d: Cell, s: Service)
    requires claim.Claim? && c.job.Some? && s in c.job.value.rows && d.job.Some? && s in d.job.value.rows
  {
    if Attempts(cfg, Next(cfg, c, claim), claim, es, s) then d.job.value.rows[s].status.Succeeded?
    else !c.job.value.rows[s].status.Failed?
  }

  lemma ClaimHistory(cfg: Config, c: Cell, claim: Action)
    requires CellOk(cfg, c) && claim.Claim? && Enabled(cfg, c, claim)
    ensures var c1 := Next(cfg, c, claim);
            && claim.lease in c1.workers && claim.lease in c1.leases && c1.job.Some?
            && var w, j := c1.workers[claim.lease], c.job.value;
               && w.skipped == {} && w.base.Keys == j.rows.Keys && c1.job.value.rows == w.base
               && (forall s :: s in w.defs <==> s in j.rows && !j.rows[s].status.Succeeded? && s in claim.registry)
               && (forall s :: s in j.rows ==> (w.base[s].status.Failed? <==> j.rows[s].status.Failed?))
               && (forall s :: s in j.rows ==> (w.base[s].status.Succeeded? <==> j.rows[s].status.Succeeded?))
  {
    var j' := ClaimJob(c.job.value, claim.lease, claim.now, cfg.leaseMs);
    ClaimRun(cfg, c, claim);
    ClaimSettled(c.job.value, claim.lease, claim.now, cfg.leaseMs);
    assert Next(cfg, c, claim).workers[claim.lease] == NewWorker(cfg, j', claim.defs, claim.usage);
  }

  lemma ClaimSettled(j: Job, l: LeaseId, now: Millis, leaseMs: nat)
    requires JobOk(j) && Claimable(j, now)
    ensures var j' := ClaimJob(j, l, now, leaseMs);
            && j'.rows.Keys == j.rows.Keys
            && (forall s :: s in j.rows ==> (j'.rows[s].status.Failed? <==> j.rows[s].status.Failed?))
            && (forall s :: s in j.rows ==> (j'.rows[s].status.Succeeded? <==> j.rows[s].status.Succeeded?))
  {
    ClaimRows(j, l, now, leaseMs);
  }

  // What the claim and the run's history say of a drained dispatch's rows.
  lemma DrainedRow(cfg: Config, d: Cell, l: LeaseId, s: Service)
    requires cfg.Valid() && CellOk(cfg, d) && l in d.workers && OwnsRow(d.job, l) && Idle(d.workers[l])
    requires s in d.job.value.rows
    ensures var w, row := d.workers[l], d.job.value.rows[s];
            && (s in w.defs && s !in w.skipped ==> (row.status.Failed? <==> !row.status.Succeeded?))
            && (s !in w.defs || s in w.skipped ==> s in w.base && row == w.base[s])
  {
    PoolCompletes(cfg, d, l);
  }

  ghost predicate Batch(cfg: Config, c: Cell, claim: Action, es: seq<Event>, d: Cell, a: Action) {
    && cfg.Valid() && CellOk(cfg, c) && claim.Claim? && Enabled(cfg, c, claim)
    && d == Run(cfg, Next(cfg, c, claim), es) && Publishes(cfg, d, a, claim.lease)
  }

  lemma BatchFacts(cfg: Config, c: Cell, claim: Action, es: seq<Event>, d: Cell, a: Action, s: Service)
    requires Batch(cfg, c, claim, es, d, a)
    ensures CellOk(cfg, d) && claim.lease in d.workers && OwnsRow(d.job, claim.lease) && Idle(d.workers[claim.lease])
    ensures d.job.value.rows.Keys == c.job.value.rows.Keys
    ensures var c1 := Next(cfg, c, claim);
            && claim.lease in c1.workers && d.workers[claim.lease].defs == c1.workers[claim.lease].defs
            && d.workers[claim.lease].base == c1.workers[claim.lease].base
            && (s in d.workers[claim.lease].skipped <==> PassedOver(cfg, c1, es, claim.lease, s))
  {
    var c1 := Next(cfg, c, claim);
    NextOk(cfg, c, claim);
    ClaimHistory(cfg, c, claim);
    RunOk(cfg, c1, es);
    SucceededForever(cfg, c1, es);
    HistoryOfRun(cfg, c1, es, claim.lease, s);
    PublishedResult(cfg, d, a, claim.lease);
  }

  lemma KeptSucceeded(cfg: Config, c: Cell, claim: Action, es: seq<Event>, d: Cell, a: Action, s: Service)
    requires Batch(cfg, c, claim, es, d, a) && s in c.job.value.rows && c.job.value.rows[s].status.Succeeded?
    ensures s in d.job.value.rows && d.job.value.rows[s].status.Succeeded?
  {
    var c1 := Next(cfg, c, claim);
    NextOk(cfg, c, claim);
    ClaimHistory(cfg, c, claim);
    SucceededForever(cfg, c1, es);
  }

  // The rows at the publication, by what they were at the claim.
  lemma RowAtEnd(cfg: Config, c: Cell, claim: Action, es: seq<Event>, d: Cell, a: Action, s: Service)
    requires Batch(cfg, c, claim, es, d, a) && s in c.job.value.rows && !c.job.value.rows[s].status.Succeeded?
    ensures d.job.Some? && s in d.job.value.rows
    ensures d.job.value.rows[s].status.Failed? <==> !NeverFailed(cfg, c, claim, es, d, s)
  {
    BatchFacts(cfg, c, claim, es, d, a, s);
    ClaimHistory(cfg, c, claim);
    DrainedRow(cfg, d, claim.lease, s);
  }

  // So a finished batch leaves a job that retry refuses exactly when its archive step
  // stored no error, every attempt since the claim succeeded, and every unfinished
  // service that was passed over on the signal or is missing from the registry had
  // not failed before the claim.
  lemma StuckFromClaim(cfg: Config, c: Cell, claim: Action, es: seq<Event>, d: Cell, a: Action)
    requires Batch(cfg, c, claim, es, d, a)
    ensures var after := Next(cfg, d, a).job;
            && after.Some? && d.job.Some? && d.job.value.rows.Keys == c.job.value.rows.Keys
            && (after.value.status.Partial? || after.value.status.Failed? ==>
                 (!RetryAccepts(after.value) <==>
                   && ArchiveFine(d, a)
                   && forall s :: s in c.job.value.rows && !c.job.value.rows[s].status.Succeeded? ==>
                        NeverFailed(cfg, c, claim, es, d, s)))
  {
    BatchFacts(cfg, c, claim, es, d, a, Schlussel);
    StuckExactly(cfg, d, a, claim.lease);
    forall s | s in c.job.value.rows
      ensures d.job.value.rows[s].status.Failed? <==>
                !c.job.value.rows[s].status.Succeeded? && !NeverFailed(cfg, c, claim, es, d, s)
    {
      if c.job.value.rows[s].status.Succeeded? {
        KeptSucceeded(cfg, c, claim, es, d, a, s);
      } else {
        RowAtEnd(cfg, c, claim, es, d, a, s);
      }
    }
  }

  // ---------------------------------------------------------------- accepted

  // With a registry that serves every row and no service passed over, whatever is
  // published short of complete is accepted by the retry route.
  lemma RetryIsPossible(cfg: Config, c: Cell, claim: Action, es: seq<Event>, d: Cell, a: Action)
    requires Batch(cfg, c, claim, es, d, a) && c.job.value.rows.Keys <= claim.registry
    requires forall s :: !PassedOver(cfg, Next(cfg, c, claim), es, claim.lease, s)
    ensures var after := Next(cfg, d, a).job;
            after.Some? && (after.value.status.Partial? || after.value.status.Failed? ==> RetryAccepts(after.value))
  {
    StuckFromClaim(cfg, c, claim, es, d, a);
    BatchFacts(cfg, c, claim, es, d, a, Schlussel);
    PublishedResult(cfg, d, a, claim.lease);
    if !AllRows(d.job.value, RowStatus.Succeeded) {
      var s :| s in d.job.value.rows && !d.job.value.rows[s].status.Succeeded?;
      if c.job.value.rows[s].status.Succeeded? { KeptSucceeded(cfg, c, claim, es, d, a, s); }
      assert !NeverFailed(cfg, c, claim, es, d, s);
    }
  }

  // ---------------------------------------------------------------- refused stays refused

  predicate Stuck(j: Job) { (j.status.Partial? || j.status.Failed?) && !RetryAccepts(j) }

  // The very row, until it expires or its owner goes.
  predicate Remains(j: Job, job: Option<Job>) { job.Some? ==> job.value == j || job.value.status.Expired? }

  lemma StuckEvent(cfg: Config, c: Cell, e: Event)
    requires CellOk(cfg, c) && c.job.Some? && Stuck(c.job.value)
    ensures Remains(c.job.value, Do(cfg, c, e).job)
  {
    if Enabled(cfg, c, e.action) {
      if HasLease(e.action) {
        StaleScript(cfg, c, e.action);
        EventSaves(cfg, c, e, job => job == c.job);
      } else {
        RouteRemains(cfg, c, e.action);
        EventSaves(cfg, c, e, job => Remains(c.job.value, job));
      }
    }
  }

  lemma RouteRemains(cfg: Config, c: Cell, a: Action)
    requires Enabled(cfg, c, a) && !HasLease(a) && c.job.Some? && Stuck(c.job.value)
    ensures Saves(ScriptOf(cfg, c, a), job => Remains(c.job.value, job))
  {
  }

  // No continuation frees a refused job: until it expires or its owner is deleted,
  // the row stays as it is and retry goes on refusing it.
  lemma {:induction false} StuckForever(cfg: Config, c: Cell, es: seq<Event>)
    requires CellOk(cfg, c) && c.job.Some? && Stuck(c.job.value)
    ensures var job' := Run(cfg, c, es).job;
            Remains(c.job.value, job') && (job'.Some? ==> !RetryAccepts(job'.value))
  {
    if es != [] {
      var prior, e := Run(cfg, c, es[..|es| - 1]), es[|es| - 1];
      StuckForever(cfg, c, es[..|es| - 1]);
      RunOk(cfg, c, es[..|es| - 1]);
      if prior.job.None? {
        GoneStaysGone(cfg, prior, e);
      } else if prior.job.value == c.job.value {
        StuckEvent(cfg, prior, e);
      } else {
        DoKin(cfg, prior, e);
      }
    }
  }

  // ---------------------------------------------------------------- such jobs exist

  lemma NothingRun(cfg: Config, c: Cell, a: Action)
    requires Enabled(cfg, c, a) && a.Finish? && OwnsRow(c.job, a.lease) && FinalStatus(c.job.value).Failed?
    ensures var w := c.workers[a.lease];
            Next(cfg, c, a) == c.(workers := c.workers - {a.lease},
              job := Published(cfg, c.job, a.lease, JobStatus.Failed, a.now, w.oldPath, w.oldBytes, None))
  {
    var w := c.workers[a.lease];
    var job' := Published(cfg, c.job, a.lease, JobStatus.Failed, a.now, w.oldPath, w.oldBytes, None);
    assert ScriptOf(cfg, c, a) == Then(Save(job'), End);
    assert Play(c, Then(Save(job'), End)) == c.(job := job');
    assert WorkersAfter(cfg, c, a) == c.workers - {a.lease};
  }

  // Such jobs exist: a shutdown signal before the first attempt is enough.
  lemma {:induction false} StuckAfterShutdown(cfg: Config)
    requires cfg.Valid()
    ensures exists es :: var c := Run(cfg, NewCell(0, 0, {Schlussel}), es);
              && c.job.Some? && c.job.value.status.Failed? && c.workers == map[]
              && !RetryAccepts(c.job.value)
  {
    var c0 := NewCell(0, 0, {Schlussel});
    var claim := Claim(0, 0, {Schlussel}, [Schlussel], 0);
    var skip, back, finish := Take(0, 0, 0, true), Return(0), Finish(0, 0, 0, 0);
    var c1 := Next(cfg, c0, claim);
    StuckStart(cfg, c0, claim);
    StuckMiddle(cfg, c1);
    var c4 := Next(cfg, Next(cfg, Next(cfg, c1, skip), back), skip);
    NothingRun(cfg, c4, finish);
    Chain5(cfg, c0, Step(claim), Step(skip), Step(back), Step(skip), Step(finish));
  }

  lemma StuckStart(cfg: Config, c0: Cell, claim: Action)
    requires cfg.Valid() && c0 == NewCell(0, 0, {Schlussel}) && claim == Claim(0, 0, {Schlussel}, [Schlussel], 0)
    ensures var c1 := Next(cfg, c0, claim);
            && c1.job.Some? && Owns(c1.job.value, 0) && c1.job.value.rows == map[Schlussel := NEW_ROW]
            && c1.workers.Keys == {0}
            && var w := c1.workers[0];
               && w.phase.Fetching? && w.defs == [Schlussel] && w.next == 0
               && w.ready == 1 && w.returned == 0 && w.flights == map[]
  {
    ClaimRun(cfg, c0, claim);
  }

  // One runner, one service: skipped on the signal, back in the loop, out of it.
  lemma StuckMiddle(cfg: Config, c1: Cell)
    requires c1.job.Some? && Owns(c1.job.value, 0) && c1.job.value.rows == map[Schlussel := NEW_ROW]
    requires c1.workers.Keys == {0}
    requires var w := c1.workers[0];
             && w.phase.Fetching? && w.defs == [Schlussel] && w.next == 0
             && w.ready == 1 && w.returned == 0 && w.flights == map[]
    ensures var c4 := Next(cfg, Next(cfg, Next(cfg, c1, Take(0, 0, 0, true)), Return(0)), Take(0, 0, 0, true));
            && c4.job == c1.job && c4.workers.Keys == {0} && Drained(c4.workers[0])
            && FinalStatus(c4.job.value).Failed?
  {
    var c2 := Next(cfg, c1, Take(0, 0, 0, true));
    assert c2.workers[0] == Skipped(c1.workers[0], true);
    var c3 := Next(cfg, c2, Return(0));
    assert c3.workers[0] == Returned(c2.workers[0], true);
    assert Schlussel in c1.job.value.rows;
  }

  lemma {:induction false} RunSnoc(cfg: Config, c: Cell, es: seq<Event>, e: Event)
    ensures Run(cfg, c, es + [e]) == Do(cfg, Run(cfg, c, es), e)
  {
  }

  lemma {:induction false} Chain5(cfg: Config, c: Cell, e1: Event, e2: Event, e3: Event, e4: Event, e5: Event)
    ensures Run(cfg, c, [e1, e2, e3, e4, e5]) == Do(cfg, Do(cfg, Do(cfg, Do(cfg, Do(cfg, c, e1), e2), e3), e4), e5)
  {
    RunSnoc(cfg, c, [], e1);
    RunSnoc(cfg, c, [e1], e2);
    RunSnoc(cfg, c, [e1, e2], e3);
    RunSnoc(cfg, c, [e1, e2, e3], e4);
    RunSnoc(cfg, c, [e1, e2, e3, e4], e5);
    assert [] + [e1] == [e1] && [e1] + [e2] == [e1, e2] && [e1, e2] + [e3] == [e1, e2, e3];
    assert [e1, e2, e3] + [e4] == [e1, e2, e3, e4] && [e1, e2, e3, e4] + [e5] == [e1, e2, e3, e4, e5];
  }
}
