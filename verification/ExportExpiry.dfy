// How long a result is kept: from its publication or its cancel to its time to
// live, and not a millisecond less or more; and what a cancelled job leaves behind.
module ExportExpiry {
  import opened Common
  import opened ExportRows
  import opened ExportCell
  import opened ExportDurable
  import opened ExportLive
  import opened ExportSteps
  import opened ExportPublish
  import opened ExportRuns
  import opened ExportTheorems
  import opened ExportPool
  import opened ExportArchive

  // A finished job that cleanup may expire from x on.
  predicate KeptUntil(job: Option<Job>, x: Millis) {
    job.Some? && job.value.expiresAt == Some(x) && !job.value.status.Expired?
  }

  // Nobody retries the job or deletes its owner, and every cleanup is before x.
  predicate Within(e: Event, x: Millis) {
    !e.action.Retry? && !e.action.DropOwner? && (e.action.Expire? ==> e.action.now < x)
  }

  lemma KeptScript(cfg: Config, c: Cell, a: Action, x: Millis)
    requires CellOk(cfg, c) && KeptUntil(c.job, x) && Within(Step(a), x) && Enabled(cfg, c, a)
    ensures Saves(ScriptOf(cfg, c, a), job => job == c.job) && !Retires(cfg, c, Step(a))
  {
    assert !Active(c.job.value);
    StaleScript(cfg, c, a);
  }

  lemma KeptStep(cfg: Config, c: Cell, e: Event, x: Millis)
    requires CellOk(cfg, c) && KeptUntil(c.job, x) && Within(e, x)
    ensures Do(cfg, c, e).job == c.job && !Retires(cfg, c, e)
  {
    if Enabled(cfg, c, e.action) { KeptScript(cfg, c, e.action, x); }
    EventSaves(cfg, c, e, job => job == c.job);
  }

  // Until then the row stays as it is, and the archive it names is served, byte by byte.
  lemma {:induction false} KeptTill(cfg: Config, c: Cell, es: seq<Event>, x: Millis, n: FileName, content: Content)
    requires CellOk(cfg, c) && KeptUntil(c.job, x) && forall i :: 0 <= i < |es| ==> Within(es[i], x)
    ensures Run(cfg, c, es).job == c.job
    ensures Serves(c, n, content) ==> Serves(Run(cfg, c, es), n, content)
  {
    if es != [] {
      var prior := Run(cfg, c, es[..|es| - 1]);
      KeptTill(cfg, c, es[..|es| - 1], x, n, content);
      RunOk(cfg, c, es[..|es| - 1]);
      KeptStep(cfg, prior, es[|es| - 1], x);
      if Serves(c, n, content) { ArchiveStays(cfg, prior, es[|es| - 1], n, content); }
    }
  }

  // An expired job has nothing to download.
  predicate ExpiredBy(j: Job, job: Option<Job>) {
    && job.Some? && job.value.status.Expired? && job.value.archivePath.None? && job.value.archiveBytes.None?
    && job.value.rows == j.rows && job.value.owner == j.owner
  }

  lemma ExpireParts(cfg: Config, c: Cell, a: Action, x: Millis)
    requires KeptUntil(c.job, x) && a.Expire?
    ensures Enabled(cfg, c, a) <==> x <= a.now
    ensures Enabled(cfg, c, a) ==> Next(cfg, c, a).job == Some(ExpireJob(c.job.value, a.now))
    ensures a.now < x ==> Next(cfg, c, a) == c
  {
    if Enabled(cfg, c, a) {
      LastSaveLoses(c, ScriptOf(cfg, c, a), job => job == Some(ExpireJob(c.job.value, a.now)));
    }
  }

  // From then on any cleanup expires it, and none did before.
  lemma ExpiresFrom(cfg: Config, c: Cell, a: Action, x: Millis)
    requires KeptUntil(c.job, x) && a.Expire?
    ensures x <= a.now ==>
              && ExpiredBy(c.job.value, Next(cfg, c, a).job)
              && DownloadOf(Next(cfg, c, a), c.job.value.owner) == Gone
    ensures a.now < x ==> Next(cfg, c, a) == c
  {
    ExpireParts(cfg, c, a, x);
  }

  // ---------------------------------------------------------------- from publication on

  // The row stays, and so does whatever archive is served.
  ghost predicate Unmoved(c: Cell, c': Cell) {
    c'.job == c.job && forall n, content :: Serves(c, n, content) ==> Serves(c', n, content)
  }

  lemma {:induction false} KeptUnmoved(cfg: Config, c: Cell, es: seq<Event>, x: Millis)
    requires CellOk(cfg, c) && KeptUntil(c.job, x) && forall i :: 0 <= i < |es| ==> Within(es[i], x)
    ensures Unmoved(c, Run(cfg, c, es))
  {
    KeptTill(cfg, c, es, x, Archive(0), []);
    forall n, content | Serves(c, n, content) ensures Serves(Run(cfg, c, es), n, content) {
      KeptTill(cfg, c, es, x, n, content);
    }
  }

  lemma StoredKept(j: Job, job: Option<Job>, l: LeaseId, at: Millis, ttl: nat, stream: Content, x: Millis)
    requires StoredBy(j, job, l, at, ttl, stream) && x == at + ttl
    ensures KeptUntil(job, x)
  {
  }

  lemma PublicationKept(cfg: Config, c: Cell, a: Action, l: LeaseId, x: Millis)
    requires CellOk(cfg, c) && Publishes(cfg, c, a, l) && x == DoneAt(c.workers[l], a) + cfg.artifactTtlMs
    ensures KeptUntil(Next(cfg, c, a).job, x)
  {
    PublicationStores(cfg, c, a, l);
    StoredKept(c.job.value, Next(cfg, c, a).job, l, DoneAt(c.workers[l], a), cfg.artifactTtlMs,
               StreamOf(c.workers[l]), x);
  }

  // A publication at t is kept until t plus the time to live: the row, and the
  // archive if there is one.
  lemma {:induction false} PublishedIsKept(cfg: Config, c: Cell, a: Action, l: LeaseId, es: seq<Event>, x: Millis)
    requires CellOk(cfg, c) && Publishes(cfg, c, a, l) && x == DoneAt(c.workers[l], a) + cfg.artifactTtlMs
    requires forall i :: 0 <= i < |es| ==> Within(es[i], x)
    ensures Unmoved(Next(cfg, c, a), Run(cfg, Next(cfg, c, a), es))
    ensures KeptUntil(Run(cfg, Next(cfg, c, a), es).job, x)
  {
    NextOk(cfg, c, a);
    PublicationKept(cfg, c, a, l, x);
    KeptUnmoved(cfg, Next(cfg, c, a), es, x);
  }

  // ---------------------------------------------------------------- a cancelled job

  // Open services are cancelled with their running attempt; the others stay.
  predicate RowStopped(row: ServiceRow, row': ServiceRow, now: Millis) {
    && (row.status.Pending? || row.status.Running? ==> row'.status.Cancelled? && row'.completedAt == Some(now))
    && (!row.status.Pending? && !row.status.Running? ==> row'.status == row.status && row'.snapshot == row.snapshot)
    && |row'.ledger| == |row.ledger|
    && (forall i :: 0 <= i < |row.ledger| ==>
          if row.ledger[i].status.Running?
          then row'.ledger[i].status.Cancelled? && row'.ledger[i].completedAt == Some(now)
          else row'.ledger[i] == row.ledger[i])
  }

  predicate Stopped(j: Job, j': Job, now: Millis, ttl: nat) {
    && j'.status.Cancelled? && j'.completedAt == Some(now) && j'.expiresAt == Some(now + ttl)
    && j'.leaseId.None? && j'.leaseUntil.None? && j'.archivePath.None? && j'.archiveBytes.None?
    && j'.owner == j.owner && j'.createdAt == j.createdAt && j'.startedAt == j.startedAt
    && j'.rows.Keys == j.rows.Keys
    && (forall s :: s in j.rows ==> RowStopped(j.rows[s], j'.rows[s], now))
  }

  lemma CancelStopsJob(j: Job, now: Millis, ttl: nat)
    requires j.status.Queued? || j.status.Running?
    ensures Stopped(j, CancelJob(j, now, ttl), now, ttl)
  {
  }

  lemma {:induction false} CancelPlays(c: Cell, j: Job, job': Option<Job>)
    ensures Play(c, CancelScript(j, job')) == c.(job := job', dir := if j.status.Queued? then map[] else c.dir)
  {
    assert Play(c, Then(Save(job'), Then(Wipe, End))) == c.(job := job', dir := map[]);
  }

  // A cancel is possible exactly while the job is queued or running; it stops the
  // whole job, and a queued one loses its files at once.
  lemma CancelStops(cfg: Config, c: Cell, a: Action)
    requires c.job.Some? && a.Cancel?
    ensures Enabled(cfg, c, a) <==> c.job.value.status.Queued? || c.job.value.status.Running?
    ensures Enabled(cfg, c, a) ==>
              var c' := Next(cfg, c, a);
              && c'.job.Some? && Stopped(c.job.value, c'.job.value, a.now, cfg.artifactTtlMs)
              && c'.dir == if c.job.value.status.Queued? then map[] else c.dir
  {
    if Enabled(cfg, c, a) {
      CancelStopsJob(c.job.value, a.now, cfg.artifactTtlMs);
      var job' := Some(CancelJob(c.job.value, a.now, cfg.artifactTtlMs));
      CancelParts(cfg, c, a, job');
      CancelPlays(c, c.job.value, job');
    }
  }

  lemma CancelKept(cfg: Config, c: Cell, a: Action, x: Millis)
    requires Enabled(cfg, c, a) && a.Cancel? && x == a.now + cfg.artifactTtlMs
    ensures KeptUntil(Next(cfg, c, a).job, x)
  {
    CancelStops(cfg, c, a);
  }

  // Like a publication, a cancel is kept for the time to live.
  lemma {:induction false} CancelledIsKept(cfg: Config, c: Cell, a: Action, es: seq<Event>, x: Millis)
    requires CellOk(cfg, c) && Enabled(cfg, c, a) && a.Cancel? && x == a.now + cfg.artifactTtlMs
    requires forall i :: 0 <= i < |es| ==> Within(es[i], x)
    ensures Unmoved(Next(cfg, c, a), Run(cfg, Next(cfg, c, a), es))
    ensures KeptUntil(Run(cfg, Next(cfg, c, a), es).job, x)
  {
    NextOk(cfg, c, a);
    CancelKept(cfg, c, a, x);
    KeptUnmoved(cfg, Next(cfg, c, a), es, x);
  }

  // ---------------------------------------------------------------- the cancelled job's files

  // A dispatch of a cancelled job that returns empties the directory.
  predicate Leaves(a: Action) { a.Finish? || a.ZipDone? || a.ZipFail? }

  predicate Wipes(s: Script)
    decreases s
  {
    s.Then? && ((s.effect.Wipe? && s.rest == End) || Wipes(s.rest))
  }

  lemma {:induction false} WipedDir(c: Cell, s: Script)
    requires Wipes(s)
    ensures Play(c, s).dir == map[]
    decreases s
  {
    if s.rest == End {
      assert Play(c, s) == Apply(c, s.effect);
    } else {
      WipedDir(Apply(c, s.effect), s.rest);
    }
  }

  lemma LeaverWipes(cfg: Config, c: Cell, a: Action)
    requires Enabled(cfg, c, a) && Leaves(a) && c.job.Some? && c.job.value.status.Cancelled?
    ensures Wipes(ScriptOf(cfg, c, a)) && WorkersAfter(cfg, c, a) == c.workers - {a.lease}
  {
    var sc := ScriptOf(cfg, c, a);
    if !a.Finish? {
      assert Wipes(sc.rest.rest.rest);
      assert Wipes(sc.rest.rest);
      assert Wipes(sc.rest);
    }
  }

  lemma CancelledWiped(cfg: Config, c: Cell, a: Action)
    requires Enabled(cfg, c, a) && Leaves(a) && c.job.Some? && c.job.value.status.Cancelled?
    ensures Next(cfg, c, a).dir == map[] && Next(cfg, c, a).workers == c.workers - {a.lease}
  {
    LeaverWipes(cfg, c, a);
    WipedDir(WithLease(c, a), ScriptOf(cfg, c, a));
  }

  predicate Over(job: Option<Job>) { job.Some? ==> job.value.status.Cancelled? || job.value.status.Expired? }

  // A cancelled or expired job without files and without dispatches.
  predicate Bare(c: Cell) { c.dir == map[] && c.workers == map[] && Over(c.job) }

  lemma {:induction false} BareScript(cfg: Config, c: Cell, a: Action, n: FileName)
    requires Bare(c) && Enabled(cfg, c, a)
    ensures Saves(ScriptOf(cfg, c, a), Over) && Spares(ScriptOf(cfg, c, a), n) && !HasLease(a)
  {
  }

  lemma BareStep(cfg: Config, c: Cell, e: Event)
    requires Bare(c)
    ensures Bare(Do(cfg, c, e))
  {
    var c' := Do(cfg, c, e);
    if Enabled(cfg, c, e.action) {
      BareScript(cfg, c, e.action, Archive(0));
      forall n ensures n !in c'.dir {
        BareScript(cfg, c, e.action, n);
        SparedFile(WithLease(c, e.action), ScriptOf(cfg, c, e.action), if e.CrashIn? then e.after else 0,
                   if e.CrashIn? then e.lost else {}, n);
      }
      assert c'.dir == map[];
    }
    EventSaves(cfg, c, e, Over);
  }

  // Once the last dispatch of a cancelled job has returned, no file is left, and none
  // comes back in any continuation.
  lemma {:induction false} BareForever(cfg: Config, c: Cell, es: seq<Event>)
    requires Bare(c)
    ensures Bare(Run(cfg, c, es))
  {
    if es != [] {
      BareForever(cfg, c, es[..|es| - 1]);
      BareStep(cfg, Run(cfg, c, es[..|es| - 1]), es[|es| - 1]);
    }
  }
}
