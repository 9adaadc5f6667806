// What ends up in the files: a recorded snapshot is the concatenation of the chunks
// its attempt took, and a published archive that of the blocks its zip admitted,
// whatever else ran in between.
module ExportStreams {
  import opened Common
  import opened ExportRows
  import opened ExportCell
  import opened ExportDurable
  import opened ExportLive
  import opened ExportSteps
  import opened ExportFlights
  import opened ExportPublish
  import opened ExportRuns
  import opened ExportTheorems
  import opened ExportPool
  import opened ExportArchive
  import opened ExportEffects

  // ---------------------------------------------------------------- snapshots

  predicate IsChunk(e: Event, l: LeaseId, s: Service) {
    e.Step? && e.action.Chunk? && e.action.lease == l && e.action.service == s
  }

  // What the event adds to the attempt's file: a chunk within all four limits.
  function ChunkOf(cfg: Config, c: Cell, e: Event, l: LeaseId, s: Service): Content {
    if IsChunk(e, l, s) && InFlight(c, l, s) && !c.workers[l].flights[s].refused
       && ChunkFits(cfg, c.workers[l], c.workers[l].flights[s], |e.action.data|, e.action.free)
    then e.action.data else []
  }

  ghost function Received(cfg: Config, c: Cell, es: seq<Event>, l: LeaseId, s: Service): Content {
    if es == [] then []
    else Received(cfg, c, es[..|es| - 1], l, s) + ChunkOf(cfg, Run(cfg, c, es[..|es| - 1]), es[|es| - 1], l, s)
  }

  // While the attempt is in flight its file, if there, holds this.
  predicate Holds(c: Cell, l: LeaseId, s: Service, data: Content) {
    InFlight(c, l, s) ==>
      && (SnapshotTmp(s, l) in c.dir ==> c.workers[l].flights[s].created && c.dir[SnapshotTmp(s, l)] == data)
      && (!c.workers[l].flights[s].created ==> data == [])
  }

  predicate Writes(a: Action, l: LeaseId, s: Service) {
    (a.Open? || a.Chunk?) && a.lease == l && a.service == s
  }

  lemma {:induction false} SparesSnapshot(cfg: Config, c: Cell, a: Action, l: LeaseId, s: Service)
    requires Enabled(cfg, c, a) && !Writes(a, l, s)
    ensures Spares(ScriptOf(cfg, c, a), SnapshotTmp(s, l))
  {
    var n, sc := SnapshotTmp(s, l), ScriptOf(cfg, c, a);
    if sc.Then? && sc.rest.Then? {
      if sc.rest.rest.Then? {
        assert Spares(sc.rest.rest.rest, n);
        assert Spares(sc.rest.rest, n);
      }
      assert Spares(sc.rest, n);
    }
  }

  // The service's turn on the work list has passed.
  predicate Past(c: Cell, l: LeaseId, s: Service) {
    l in c.workers ==> forall i :: c.workers[l].next <= i < |c.workers[l].defs| ==> c.workers[l].defs[i] != s
  }

  lemma PastStep(cfg: Config, c: Cell, e: Event, l: LeaseId, s: Service)
    requires Past(c, l, s) && l in c.leases
    ensures Past(Do(cfg, c, e), l, s) && l in Do(cfg, c, e).leases
  {
    FencedLeases(cfg, c, e);
    if l in Do(cfg, c, e).workers { Survivor(cfg, c, e, l); }
  }

  // So its flight, once there, is the same one until it lands.
  lemma SameFlight(cfg: Config, c: Cell, a: Action, l: LeaseId, s: Service)
    requires Past(c, l, s) && l in c.leases && InFlight(Next(cfg, c, a), l, s)
    ensures InFlight(c, l, s)
    ensures !Writes(a, l, s) ==> Next(cfg, c, a).workers[l].flights[s] == c.workers[l].flights[s]
  {
    Survivor(cfg, c, Step(a), l);
  }

  lemma OpenPlays(cfg: Config, c: Cell, a: Action)
    requires Enabled(cfg, c, a) && a.Open?
    ensures var c', l, s := Next(cfg, c, a), a.lease, a.service;
            && InFlight(c', l, s) && c'.dir == c.dir[SnapshotTmp(s, l) := []]
            && !c.workers[l].flights[s].created && c'.workers[l].flights[s].created
  {
    var sc := ScriptOf(cfg, c, a);
    assert Play(c, sc) == Apply(c, sc.effect);
  }

  lemma HoldsStep(cfg: Config, c: Cell, a: Action, l: LeaseId, s: Service, data: Content)
    requires Past(c, l, s) && l in c.leases && Holds(c, l, s, data)
    ensures Holds(Next(cfg, c, a), l, s, data + ChunkOf(cfg, c, Step(a), l, s))
  {
    if InFlight(Next(cfg, c, a), l, s) {
      SameFlight(cfg, c, a, l, s);
      if Enabled(cfg, c, a) {
        if !Writes(a, l, s) {
          SparesSnapshot(cfg, c, a, l, s);
          SparedFile(WithLease(c, a), ScriptOf(cfg, c, a), 0, {}, SnapshotTmp(s, l));
        } else if a.Open? {
          OpenPlays(cfg, c, a);
        } else {
          ChunkDecides(cfg, c, a, c.workers[l]);
        }
      }
    }
  }

  lemma {:induction false} FileHolds(cfg: Config, c: Cell, es: seq<Event>, l: LeaseId, s: Service)
    requires Past(c, l, s) && l in c.leases && Holds(c, l, s, [])
    ensures var c' := Run(cfg, c, es);
            Past(c', l, s) && l in c'.leases && Holds(c', l, s, Received(cfg, c, es, l, s))
  {
    if es != [] {
      var prior, e := Run(cfg, c, es[..|es| - 1]), es[|es| - 1];
      FileHolds(cfg, c, es[..|es| - 1], l, s);
      PastStep(cfg, prior, e, l, s);
      if e.Step? { HoldsStep(cfg, prior, e.action, l, s, Received(cfg, c, es[..|es| - 1], l, s)); }
    }
  }

  lemma NewFlightHolds(cfg: Config, c: Cell, l: LeaseId, s: Service)
    requires CellOk(cfg, c) && InFlight(c, l, s) && !c.workers[l].flights[s].created
    ensures Past(c, l, s) && l in c.leases && Holds(c, l, s, [])
  {
    WorkerOf(cfg, c, l);
    assert FlightOk(cfg, l, s, c.workers[l].flights[s], c.dir);
  }

  // From the start of an attempt to its success, in any continuation: the snapshot
  // that is recorded, with its size and digest, is what the attempt took, in order.
  lemma {:induction false} SnapshotIsStream(cfg: Config, c: Cell, es: seq<Event>, a: Action)
    requires CellOk(cfg, c) && a.Succeed?
    requires InFlight(c, a.lease, a.service) && !c.workers[a.lease].flights[a.service].created
    requires Enabled(cfg, Run(cfg, c, es), a)
    ensures var c', l, s := Run(cfg, c, es), a.lease, a.service;
            && SuccessRecorded(c', Next(cfg, c', a), s, l, a.now)
            && c'.dir[SnapshotTmp(s, l)] == Received(cfg, c, es, l, s)
  {
    NewFlightHolds(cfg, c, a.lease, a.service);
    FileHolds(cfg, c, es, a.lease, a.service);
    RunOk(cfg, c, es);
    AttemptSucceeds(cfg, Run(cfg, c, es), a);
    SucceedParts(cfg, Run(cfg, c, es), a);
  }

  // ---------------------------------------------------------------- archives

  // What the event adds to the archive: a block within quota and reserve.
  function BlockOf(cfg: Config, c: Cell, e: Event, l: LeaseId): Content {
    if e.Step? && e.action.ZipReserve? && e.action.lease == l
       && l in c.workers && c.workers[l].phase.Zipping? && !c.workers[l].phase.refused
       && c.workers[l].usage + |e.action.data| <= cfg.storageQuotaBytes
       && cfg.minFreeBytes <= e.action.free - |e.action.data|
    then e.action.data else []
  }

  ghost function Zipped(cfg: Config, c: Cell, es: seq<Event>, l: LeaseId): Content {
    if es == [] then []
    else Zipped(cfg, c, es[..|es| - 1], l) + BlockOf(cfg, Run(cfg, c, es[..|es| - 1]), es[|es| - 1], l)
  }

  // While the dispatch zips, this has passed its limiter.
  predicate Streams(c: Cell, l: LeaseId, data: Content) {
    l in c.workers ==> c.workers[l].phase.Zipping? && c.workers[l].phase.stream == data
  }

  lemma StreamStep(cfg: Config, c: Cell, e: Event, l: LeaseId, data: Content)
    requires l in c.leases && Streams(c, l, data)
    ensures Streams(Do(cfg, c, e), l, data + BlockOf(cfg, c, e, l))
  {
    if l in Do(cfg, c, e).workers {
      Survivor(cfg, c, e, l);
      if Enabled(cfg, c, e.action) && e.action.ZipReserve? && e.action.lease == l {
        ZipBlockDecides(cfg, c, e.action, c.workers[l]);
      }
    }
  }

  lemma {:induction false} StreamHolds(cfg: Config, c: Cell, es: seq<Event>, l: LeaseId)
    requires l in c.leases && Streams(c, l, [])
    ensures l in Run(cfg, c, es).leases && Streams(Run(cfg, c, es), l, Zipped(cfg, c, es, l))
  {
    if es != [] {
      var prior, e := Run(cfg, c, es[..|es| - 1]), es[|es| - 1];
      StreamHolds(cfg, c, es[..|es| - 1], l);
      FencedLeases(cfg, prior, e);
      StreamStep(cfg, prior, e, l, Zipped(cfg, c, es[..|es| - 1], l));
    }
  }

  // From the start of the zip to its publication: the owner downloads what the zip
  // admitted, in order.
  lemma {:induction false} ArchiveIsStream(cfg: Config, c: Cell, es: seq<Event>, a: Action, l: LeaseId)
    requires CellOk(cfg, c) && l in c.workers && Streams(c, l, []) && a.ZipDone?
    requires Publishes(cfg, Run(cfg, c, es), a, l)
    ensures Serves(Next(cfg, Run(cfg, c, es), a), Archive(l), Zipped(cfg, c, es, l))
  {
    StreamHolds(cfg, c, es, l);
    RunOk(cfg, c, es);
    PublishedIsStream(cfg, Run(cfg, c, es), a, l);
  }
}
