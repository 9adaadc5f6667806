// The runner pool, its byte accounting, and what a finished dispatch leaves for
// retry and download.
module ExportPool {
  import opened Common
  import opened MapSums
  import opened ExportRows
  import opened ExportCell
  import opened ExportDurable
  import opened ExportLive
  import opened ExportSteps
  import opened ExportPublish
  import opened ExportRuns
  import opened ExportTheorems

  // ---------------------------------------------------------------- bytes

  // While the lease is held, aggregateBytes counts every recorded and every
  // in-flight byte exactly once, whatever the runners' interleaving.
  lemma {:induction false} BytesConserved(cfg: Config, owner: UserId, now: Millis, services: set<Service>,
                                          es: seq<Event>, l: LeaseId)
    requires Schlussel in services
    ensures var c := Run(cfg, NewCell(owner, now, services), es);
            l in c.workers && OwnsRow(c.job, l) ==>
              var w := c.workers[l];
              && w.aggregate == SucceededBytes(c.job.value.rows) + FlightBytes(w.flights)
              && w.aggregate <= cfg.maxAggregateBytes
              && (forall s :: s in w.flights ==> w.flights[s].bytes <= cfg.maxResponseBytes)
              && (w.flights == map[] ==> w.aggregate == SucceededBytes(c.job.value.rows))
  {
    NewCellOk(cfg, owner, now, services);
    RunOk(cfg, NewCell(owner, now, services), es);
    var c := Run(cfg, NewCell(owner, now, services), es);
    if l in c.workers && OwnsRow(c.job, l) {
      WorkerOf(cfg, c, l);
      FlightNone();
      forall s | s in c.workers[l].flights ensures c.workers[l].flights[s].bytes <= cfg.maxResponseBytes {
        assert FlightOk(cfg, l, s, c.workers[l].flights[s], c.dir);
      }
    }
  }

  // At most maxConcurrency attempts are in flight, each for its own service.
  lemma {:induction false} PoolBounded(cfg: Config, owner: UserId, now: Millis, services: set<Service>, es: seq<Event>,
                                       l: LeaseId)
    requires Schlussel in services
    ensures var c := Run(cfg, NewCell(owner, now, services), es);
            l in c.workers ==> |c.workers[l].flights| <= cfg.maxConcurrency
  {
    NewCellOk(cfg, owner, now, services);
    RunOk(cfg, NewCell(owner, now, services), es);
    var c := Run(cfg, NewCell(owner, now, services), es);
    if l in c.workers { WorkerOf(cfg, c, l); }
  }

  // ---------------------------------------------------------------- progress

  // What a dispatch still has to go through, chunks and heartbeats aside.
  function Ahead(w: Worker): nat {
    if w.phase.Zipping? then 1 else 2 + 3 * Max(0, |w.defs| - w.next) + 3 * |w.flights| + 2 * w.returned + w.ready
  }

  // The steps that move a dispatch on; the others stream bytes or renew the lease.
  predicate Advances(a: Action) {
    a.Take? || a.Return? || a.Succeed? || a.Fail? || a.Finish? || a.ZipDone? || a.ZipFail?
  }

  predicate Streams(a: Action) { a.Open? || a.Chunk? || a.ZipReserve? || a.ZipFlush? || a.Heartbeat? }

  ghost predicate Moves(cfg: Config, c: Cell, a: Action, l: LeaseId) {
    Advances(a) && HasLease(a) && a.lease == l && Enabled(cfg, c, a)
  }

  lemma FlightCanFail(cfg: Config, c: Cell, l: LeaseId, s: Service)
    requires InFlight(c, l, s)
    ensures Moves(cfg, c, Fail(l, s, 0, ""), l)
  {
  }

  // Whatever happened to its lease, its files and its job, some step of its own can
  // move a dispatch on; the failure of whatever it awaits counts as one.
  lemma NeverStuck(cfg: Config, c: Cell, l: LeaseId)
    requires l in c.workers
    ensures exists a :: Moves(cfg, c, a, l)
  {
    var w := c.workers[l];
    if w.phase.Zipping? {
      assert Moves(cfg, c, ZipFail(l, ""), l);
    } else if w.ready > 0 {
      assert Moves(cfg, c, Take(l, 0, 0, false), l);
    } else if w.returned > 0 {
      assert Moves(cfg, c, Return(l), l);
    } else if w.flights != map[] {
      var s :| s in w.flights;
      FlightCanFail(cfg, c, l, s);
    } else {
      assert Moves(cfg, c, Finish(l, 0, 0, 0), l);
    }
  }

  lemma TakeAdvances(cfg: Config, c: Cell, a: Action, w: Worker, w': Worker)
    requires Enabled(cfg, c, a) && a.Take? && w == c.workers[a.lease] && PoolOk(cfg, w)
    requires WorkerAfter(cfg, c, a) == Some(w')
    ensures Ahead(w') < Ahead(w)
  {
    if w.next < |w.defs| && w' == Launched(w, a.attempt) { LaunchedFlights(w, a.attempt); }
  }

  lemma SettleAdvances(cfg: Config, c: Cell, a: Action, w: Worker, w': Worker)
    requires Enabled(cfg, c, a) && (a.Succeed? || a.Fail?) && w == c.workers[a.lease]
    requires WorkerAfter(cfg, c, a) == Some(w')
    ensures Ahead(w') < Ahead(w)
  {
    FlightRemove(w.flights, a.service);
  }

  // Every such step ends the dispatch or brings it nearer its end, so a batch takes
  // at most 3n + pool + 2 of them for n services.
  lemma StepsAdvance(cfg: Config, c: Cell, a: Action, w: Worker, after: Option<Worker>)
    requires Enabled(cfg, c, a) && Advances(a) && w == c.workers[a.lease] && PoolOk(cfg, w)
    requires WorkerAfter(cfg, c, a) == after
    ensures after.Some? ==> Ahead(after.value) < Ahead(w)
  {
    if a.Take? {
      TakeAdvances(cfg, c, a, w, after.value);
    } else if a.Succeed? || a.Fail? {
      SettleAdvances(cfg, c, a, w, after.value);
    }
  }

  lemma StreamsOnly(cfg: Config, c: Cell, a: Action, w: Worker, w': Worker)
    requires Enabled(cfg, c, a) && Streams(a) && w == c.workers[a.lease] && WorkerAfter(cfg, c, a) == Some(w')
    ensures w'.defs == w.defs && w'.next == w.next && w'.phase.Zipping? == w.phase.Zipping?
    ensures w'.ready == w.ready && w'.returned == w.returned && |w'.flights| == |w.flights|
  {
    if a.Open? || a.Chunk? { SameFlightCount(w, a.service, w'.flights[a.service]); }
  }

  lemma SameFlightCount(w: Worker, s: Service, f: Flight)
    requires s in w.flights
    ensures |w.flights[s := f]| == |w.flights|
  {
  }

  ghost predicate AdvancesAt(cfg: Config, c: Cell, e: Event, l: LeaseId) {
    e.Step? && Advances(e.action) && ByLease(e, l) && Enabled(cfg, c, e.action)
  }

  // The advancing steps the dispatch makes in a run.
  ghost function Advanced(cfg: Config, c: Cell, es: seq<Event>, l: LeaseId): nat {
    if es == [] then 0
    else
      Advanced(cfg, c, es[..|es| - 1], l)
        + if AdvancesAt(cfg, Run(cfg, c, es[..|es| - 1]), es[|es| - 1], l) then 1 else 0
  }

  ghost function AheadIn(c: Cell, l: LeaseId): nat {
    if l in c.workers then Ahead(c.workers[l]) else 0
  }

  lemma EventAdvances(cfg: Config, c: Cell, e: Event, l: LeaseId)
    requires CellOk(cfg, c) && CellOk(cfg, Do(cfg, c, e)) && l in c.leases
    ensures var c' := Do(cfg, c, e);
            && l in c'.leases
            && AheadIn(c', l) + (if AdvancesAt(cfg, c, e, l) then 1 else 0) <= AheadIn(c, l)
  {
    var c' := Do(cfg, c, e);
    FencedLeases(cfg, c, e);
    if l in c.workers { WorkerOf(cfg, c, l); }
    if l in c'.workers {
      WorkerOf(cfg, c', l);
      Survivor(cfg, c, e, l);
    }
    if Enabled(cfg, c, e.action) && ByLease(e, l) {
      if Advances(e.action) {
        StepsAdvance(cfg, c, e.action, c.workers[l], WorkerAfter(cfg, c, e.action));
      } else if Streams(e.action) && l in c'.workers {
        StreamsOnly(cfg, c, e.action, c.workers[l], c'.workers[l]);
      }
    }
  }

  // Whatever happens around it, a dispatch makes at most as many advancing steps
  // as lie ahead of it when it starts.
  lemma {:induction false} StepsBounded(cfg: Config, c: Cell, es: seq<Event>, l: LeaseId)
    requires CellOk(cfg, c) && l in c.workers
    ensures var c' := Run(cfg, c, es);
            && l in c'.leases
            && Advanced(cfg, c, es, l) + AheadIn(c', l) <= Ahead(c.workers[l])
  {
    WorkerOf(cfg, c, l);
    if es != [] {
      var prior := Run(cfg, c, es[..|es| - 1]);
      StepsBounded(cfg, c, es[..|es| - 1], l);
      RunOk(cfg, c, es[..|es| - 1]);
      RunOk(cfg, c, es);
      EventAdvances(cfg, prior, es[|es| - 1], l);
    }
  }

  // ---------------------------------------------------------------- the end is always reachable

  predicate OwnMoves(es: seq<Event>, l: LeaseId) {
    forall i :: 0 <= i < |es| ==> es[i].Step? && Advances(es[i].action) && es[i].action.lease == l
  }

  lemma MoveAdvances(cfg: Config, c: Cell, a: Action, l: LeaseId)
    requires CellOk(cfg, c) && l in c.workers && Moves(cfg, c, a, l)
    ensures CellOk(cfg, Next(cfg, c, a))
    ensures l in Next(cfg, c, a).workers ==> Ahead(Next(cfg, c, a).workers[l]) < Ahead(c.workers[l])
  {
    NextOk(cfg, c, a);
    WorkerOf(cfg, c, l);
    StepsAdvance(cfg, c, a, c.workers[l], WorkerAfter(cfg, c, a));
  }

  lemma {:induction false} RunCons(cfg: Config, c: Cell, e: Event, es: seq<Event>)
    ensures Run(cfg, c, [e] + es) == Run(cfg, Do(cfg, c, e), es)
  {
    var all := [e] + es;
    if es == [] {
      assert all == [e] && all[..0] == [];
    } else {
      RunCons(cfg, c, e, es[..|es| - 1]);
      assert all[..|all| - 1] == [e] + es[..|es| - 1];
    }
  }

  lemma {:induction false} MoveCons(cfg: Config, c: Cell, a: Action, l: LeaseId, es: seq<Event>)
    requires Moves(cfg, c, a, l) && OwnMoves(es, l)
    ensures OwnMoves([Step(a)] + es, l)
    ensures Run(cfg, c, [Step(a)] + es) == Run(cfg, Next(cfg, c, a), es)
  {
    RunCons(cfg, c, Step(a), es);
  }

  // At most n steps of its own end the dispatch.
  ghost predicate EndsWithin(cfg: Config, c: Cell, l: LeaseId, n: nat) {
    exists es :: OwnMoves(es, l) && |es| <= n && l !in Run(cfg, c, es).workers
  }

  lemma EndsLater(cfg: Config, c: Cell, a: Action, l: LeaseId, n: nat, m: nat)
    requires Moves(cfg, c, a, l) && EndsWithin(cfg, Next(cfg, c, a), l, n) && n < m
    ensures EndsWithin(cfg, c, l, m)
  {
    var es :| OwnMoves(es, l) && |es| <= n && l !in Run(cfg, Next(cfg, c, a), es).workers;
    MoveCons(cfg, c, a, l, es);
  }

  // From every state a dispatch can be alive in, its own steps alone lead it to its
  // end, and no more of them than lie ahead of it.
  lemma {:induction false} CanFinish(cfg: Config, c: Cell, l: LeaseId)
    requires CellOk(cfg, c) && l in c.workers
    ensures EndsWithin(cfg, c, l, Ahead(c.workers[l]))
    decreases Ahead(c.workers[l])
  {
    NeverStuck(cfg, c, l);
    var a :| Moves(cfg, c, a, l);
    MoveAdvances(cfg, c, a, l);
    var c' := Next(cfg, c, a);
    if l in c'.workers {
      CanFinish(cfg, c', l);
      EndsLater(cfg, c, a, l, Ahead(c'.workers[l]), Ahead(c.workers[l]));
    } else {
      assert OwnMoves([], l) && Run(cfg, c', []) == c';
      EndsLater(cfg, c, a, l, 0, Ahead(c.workers[l]));
    }
  }

  // While the lease is held, every such step keeps it or publishes.
  lemma MoveKeepsLease(cfg: Config, c: Cell, a: Action, l: LeaseId)
    requires CellOk(cfg, c) && l in c.workers && OwnsRow(c.job, l) && Moves(cfg, c, a, l)
    ensures Publishes(cfg, c, a, l) || (l in Next(cfg, c, a).workers && OwnsRow(Next(cfg, c, a).job, l))
  {
    if !Publishes(cfg, c, a, l) {
      MoveSaves(cfg, c, a, l);
      LastSaveLoses(c, ScriptOf(cfg, c, a), job => OwnsRow(job, l));
    }
  }

  lemma MoveSaves(cfg: Config, c: Cell, a: Action, l: LeaseId)
    requires OwnsRow(c.job, l) && l in c.workers && Moves(cfg, c, a, l) && !Publishes(cfg, c, a, l)
    ensures Saves(ScriptOf(cfg, c, a), job => OwnsRow(job, l)) && WorkerAfter(cfg, c, a).Some?
  {
    var p: Option<Job> -> bool := job => OwnsRow(job, l);
    var sc := ScriptOf(cfg, c, a);
    if a.Succeed? {
      assert Saves(sc.rest.rest, p);
      assert Saves(sc.rest, p);
    } else if a.Fail? {
      assert Saves(sc.rest.rest.rest, p);
      assert Saves(sc.rest.rest, p);
      assert Saves(sc.rest, p);
    } else if a.Finish? {
      assert Saves(sc.rest.rest, p);
      assert Saves(sc.rest, p);
    } else if a.Take? && sc.Then? {
      if sc.rest.Then? {
        assert Saves(sc.rest.rest.rest, p);
        assert Saves(sc.rest.rest, p);
      }
      assert Saves(sc.rest, p);
    }
  }

  // Fewer than n steps of its own lead up to its publication.
  ghost predicate PublishesWithin(cfg: Config, c: Cell, l: LeaseId, n: nat) {
    exists es, a :: OwnMoves(es, l) && |es| < n && Publishes(cfg, Run(cfg, c, es), a, l)
  }

  lemma PublishesNow(cfg: Config, c: Cell, a: Action, l: LeaseId, n: nat)
    requires Publishes(cfg, c, a, l) && 0 < n
    ensures PublishesWithin(cfg, c, l, n)
  {
    assert OwnMoves([], l) && Run(cfg, c, []) == c;
  }

  lemma PublishesLater(cfg: Config, c: Cell, a: Action, l: LeaseId, n: nat, m: nat)
    requires Moves(cfg, c, a, l) && PublishesWithin(cfg, Next(cfg, c, a), l, n) && n < m
    ensures PublishesWithin(cfg, c, l, m)
  {
    var es, b :| OwnMoves(es, l) && |es| < n && Publishes(cfg, Run(cfg, Next(cfg, c, a), es), b, l);
    MoveCons(cfg, c, a, l, es);
  }

  // And as long as nobody takes its lease away, they lead it to a publication.
  lemma {:induction false} CanPublish(cfg: Config, c: Cell, l: LeaseId)
    requires CellOk(cfg, c) && l in c.workers && OwnsRow(c.job, l)
    ensures PublishesWithin(cfg, c, l, Ahead(c.workers[l]))
    decreases Ahead(c.workers[l])
  {
    NeverStuck(cfg, c, l);
    var a :| Moves(cfg, c, a, l);
    MoveAdvances(cfg, c, a, l);
    MoveKeepsLease(cfg, c, a, l);
    var c' := Next(cfg, c, a);
    if Publishes(cfg, c, a, l) {
      PublishesNow(cfg, c, a, l, Ahead(c.workers[l]));
    } else {
      CanPublish(cfg, c', l);
      PublishesLater(cfg, c, a, l, Ahead(c'.workers[l]), Ahead(c.workers[l]));
    }
  }

  // ---------------------------------------------------------------- completeness of the pool

  // Every row that has not succeeded is on the work list.
  predicate Lists(w: Worker, j: Job) {
    forall s :: s in j.rows ==> j.rows[s].status.Succeeded? || s in w.defs
  }

  // When the pool has drained, every listed service was attempted exactly once since
  // the claim, and succeeded or failed, unless a shutdown signal made a runner pass
  // it over; whatever was passed over or not listed is as it was claimed.
  lemma PoolCompletes(cfg: Config, c: Cell, l: LeaseId)
    requires cfg.Valid() && CellOk(cfg, c) && l in c.workers && OwnsRow(c.job, l) && Idle(c.workers[l])
    ensures var w, j := c.workers[l], c.job.value;
            && (forall s :: s in w.skipped ==> s in w.defs)
            && (forall s :: s in w.defs ==> s in j.rows && s in w.base)
            && (forall s :: s in w.defs && s !in w.skipped ==>
                  && j.rows[s].attempts == w.base[s].attempts + 1
                  && (j.rows[s].status.Succeeded? || j.rows[s].status.Failed?))
            && (forall s :: s in j.rows && (s !in w.defs || s in w.skipped) ==> s in w.base && j.rows[s] == w.base[s])
  {
    WorkerOf(cfg, c, l);
    DrainedPool(cfg, c.workers[l], c.job.value);
  }

  lemma DrainedPool(cfg: Config, w: Worker, j: Job)
    requires cfg.Valid() && PoolOk(cfg, w) && Held(cfg, w, j) && Idle(w)
    ensures forall s :: s in w.skipped ==> s in w.defs
    ensures forall s :: s in w.defs ==> s in j.rows && s in w.base
    ensures forall s :: s in w.defs && s !in w.skipped ==>
              j.rows[s].attempts == w.base[s].attempts + 1 && (j.rows[s].status.Succeeded? || j.rows[s].status.Failed?)
    ensures forall s :: s in j.rows && (s !in w.defs || s in w.skipped) ==> s in w.base && j.rows[s] == w.base[s]
  {
  }

  // The work list and the rows it was drawn from are fixed at the claim.
  lemma HistoryFixed(cfg: Config, c: Cell, e: Event, l: LeaseId)
    requires l in c.leases && l in Do(cfg, c, e).workers
    ensures l in c.workers && l in Do(cfg, c, e).leases
    ensures var w, w' := c.workers[l], Do(cfg, c, e).workers[l]; w'.defs == w.defs && w'.base == w.base
  {
    FencedLeases(cfg, c, e);
  }

  lemma {:induction false} StillCovers(cfg: Config, c: Cell, es: seq<Event>, l: LeaseId)
    requires CellOk(cfg, c) && l in c.leases && c.job.Some? && l in c.workers && Lists(c.workers[l], c.job.value)
    ensures var c' := Run(cfg, c, es);
            && l in c'.leases
            && (l in c'.workers ==> c'.workers[l].defs == c.workers[l].defs)
            && (l in c'.workers && c'.job.Some? ==> Lists(c'.workers[l], c'.job.value))
  {
    SucceededForever(cfg, c, es);
    if es != [] {
      var e := es[|es| - 1];
      var prior := Run(cfg, c, es[..|es| - 1]);
      StillCovers(cfg, c, es[..|es| - 1], l);
      FencedLeases(cfg, prior, e);
      if l in Do(cfg, prior, e).workers { HistoryFixed(cfg, prior, e, l); }
    }
  }

  // ---------------------------------------------------------------- download

  datatype Download = NotFound | Gone | NotAvailable | Missing | Stream(content: Content)

  // GET /export-jobs/:id/download up to the response.
  function DownloadOf(c: Cell, owner: UserId): Download {
    if c.job.None? || c.job.value.owner != owner then NotFound
    else if c.job.value.status.Expired? then Gone
    else if c.job.value.status.Cancelled? || c.job.value.status.Failed? || c.job.value.archivePath.None? then
      NotAvailable
    else if c.job.value.archivePath.value !in c.dir then Missing
    else Stream(c.dir[c.job.value.archivePath.value])
  }

  // The route never finds the artifact missing, streams exactly the recorded
  // bytes, and serves an archive precisely when the row names one.
  lemma {:induction false} DownloadNeverMisses(cfg: Config, owner: UserId, now: Millis, services: set<Service>,
                                               es: seq<Event>, user: UserId)
    requires Schlussel in services
    ensures var c := Run(cfg, NewCell(owner, now, services), es);
            var d := DownloadOf(c, user);
            && d != Missing
            && (d.Stream? <==> c.job.Some? && user == owner && c.job.value.archivePath.Some?)
            && (d.Stream? ==> c.job.value.archiveBytes == Some(|d.content|))
  {
    FilesAgree(cfg, owner, now, services, es);
    ColumnsAgree(cfg, owner, now, services, es);
    NewCellOk(cfg, owner, now, services);
    SucceededForever(cfg, NewCell(owner, now, services), es);
  }
}
