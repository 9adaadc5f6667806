// What holds of one export job in every run: any interleaving of dispatches,
// routes and cleanup, with lease losses, deaths and crashes anywhere.
module ExportTheorems {
  import opened Common
  import opened MapSums
  import opened ExportRows
  import opened ExportCell
  import opened ExportDurable
  import opened ExportLive
  import opened ExportSteps
  import opened ExportRuns

  datatype Event =
    | Step(action: Action)
    | CrashIn(action: Action, after: nat, lost: set<FileName>)

  ghost function Do(cfg: Config, c: Cell, e: Event): Cell {
    match e
    case Step(a) => Next(cfg, c, a)
    case CrashIn(a, k, lost) => Crash(cfg, c, a, k, lost)
  }

  ghost function Run(cfg: Config, c: Cell, es: seq<Event>): Cell {
    if es == [] then c else Do(cfg, Run(cfg, c, es[..|es| - 1]), es[|es| - 1])
  }

  function NewCell(owner: UserId, now: Millis, services: set<Service>): Cell {
    Cell(Some(NewJob(owner, now, services)), map[], map[], {})
  }

  lemma NewCellOk(cfg: Config, owner: UserId, now: Millis, services: set<Service>)
    requires Schlussel in services
    ensures CellOk(cfg, NewCell(owner, now, services))
  {
    var j := NewJob(owner, now, services);
    NewJobOk(owner, now, services);
    SumZero(map s | s in j.rows :: RowBytes(j.rows[s]) as int);
    assert (map s | s in j.rows :: RowBytes(j.rows[s]) as int) == (map s | s in j.rows :: RowBytes(j.rows[s]));
  }

  lemma DoOk(cfg: Config, c: Cell, e: Event)
    requires CellOk(cfg, c)
    ensures CellOk(cfg, Do(cfg, c, e))
  {
    match e
    case Step(a) => NextOk(cfg, c, a);
    case CrashIn(a, k, lost) => CrashOk(cfg, c, a, k, lost);
  }

  lemma {:induction false} RunOk(cfg: Config, c: Cell, es: seq<Event>)
    requires CellOk(cfg, c)
    ensures CellOk(cfg, Run(cfg, c, es))
  {
    if es != [] {
      RunOk(cfg, c, es[..|es| - 1]);
      DoOk(cfg, Run(cfg, c, es[..|es| - 1]), es[|es| - 1]);
    }
  }

  // ---------------------------------------------------------------- files and rows agree

  lemma {:induction false} FilesAgree(cfg: Config, owner: UserId, now: Millis, services: set<Service>, es: seq<Event>)
    requires Schlussel in services
    ensures var c := Run(cfg, NewCell(owner, now, services), es);
            c.job.Some? ==>
              var j := c.job.value;
              && (j.archivePath.Some? ==>
                    && j.archivePath.value in c.dir
                    && j.archiveBytes == Some(|c.dir[j.archivePath.value]|))
              && (!j.status.Cancelled? && !j.status.Expired? ==>
                    forall s :: s in j.rows && j.rows[s].status.Succeeded? ==>
                      && j.rows[s].snapshot.Some?
                      && j.rows[s].snapshot.value in c.dir
                      && j.rows[s].bytes == Some(|c.dir[j.rows[s].snapshot.value]|)
                      && j.rows[s].sha == Some(Sha256Of(c.dir[j.rows[s].snapshot.value])))
  {
    NewCellOk(cfg, owner, now, services);
    RunOk(cfg, NewCell(owner, now, services), es);
    var c := Run(cfg, NewCell(owner, now, services), es);
    if c.job.Some? && NeedsSnapshots(c.job.value) {
      forall s | s in c.job.value.rows ensures SnapshotOk(c.job.value.rows[s], c.dir) { }
    }
  }

  // ---------------------------------------------------------------- the rows' own promises

  // Attempts are numbered 1..n, the newest alone may be running and does so exactly
  // when the service is, and a success is the newest attempt's.
  predicate LedgerClear(row: ServiceRow) {
    && row.attempts == |row.ledger|
    && (forall i :: 0 <= i < |row.ledger| ==> row.ledger[i].number == i + 1 && AttemptOk(row.ledger[i]))
    && (forall i :: 0 <= i < |row.ledger| && row.ledger[i].status.Running? ==> i == |row.ledger| - 1)
    && (row.status.Running? <==> exists i :: 0 <= i < |row.ledger| && row.ledger[i].status.Running?)
    && (row.status.Succeeded? ==>
          && |row.ledger| > 0 && Newest(row).status.Succeeded?
          && Newest(row).bytes == row.bytes && Newest(row).sha == row.sha)
  }

  lemma {:induction false} LedgerAgrees(cfg: Config, owner: UserId, now: Millis, services: set<Service>, es: seq<Event>,
                                        s: Service)
    requires Schlussel in services
    ensures var c := Run(cfg, NewCell(owner, now, services), es);
            c.job.Some? && s in c.job.value.rows ==>
              LedgerClear(c.job.value.rows[s])
  {
    NewCellOk(cfg, owner, now, services);
    RunOk(cfg, NewCell(owner, now, services), es);
    var c := Run(cfg, NewCell(owner, now, services), es);
    if c.job.Some? && s in c.job.value.rows {
      assert RowOk(c.job.value.rows[s], c.job.value.status);
      LedgerMeans(c.job.value.rows[s]);
    }
  }

  lemma LedgerMeans(row: ServiceRow)
    requires LedgerOk(row)
    ensures LedgerClear(row)
  {
  }

  lemma {:induction false} ColumnsAgree(cfg: Config, owner: UserId, now: Millis, services: set<Service>, es: seq<Event>)
    requires Schlussel in services
    ensures var c := Run(cfg, NewCell(owner, now, services), es);
            c.job.Some? ==>
              var j := c.job.value;
              && (j.status.Queued? || j.status.Running? <==> j.expiresAt.None?)
              && (j.status.Running? <==> j.leaseId.Some?)
              && (j.status.Completed? ==> AllRows(j, RowStatus.Succeeded) && j.archivePath.Some?)
              && (j.status.Partial? ==> AnyRow(j, RowStatus.Succeeded) && j.archivePath.Some?)
              && (j.status.Failed? || j.status.Cancelled? || j.status.Expired? ==> j.archivePath.None?)
              // Hence cleanup leaves a queued or running job alone at any time.
              && (j.status.Queued? || j.status.Running? ==> forall at :: ExpireJob(j, at) == j)
  {
    NewCellOk(cfg, owner, now, services);
    RunOk(cfg, NewCell(owner, now, services), es);
  }

  // ---------------------------------------------------------------- transactions of a stretch

  // Every row the script commits satisfies p.
  ghost predicate Saves(s: Script, p: Option<Job> -> bool)
    decreases s
  {
    match s
    case End => true
    case Then(e, rest) => (e.Save? ==> p(e.job)) && Saves(rest, p)
  }

  lemma {:induction false} SavesReach(c: Cell, s: Script, k: nat, lost: set<FileName>, p: Option<Job> -> bool)
    requires Saves(s, p) && p(c.job)
    ensures p(Play(c, s).job) && p(Torn(c, s, k, lost).job)
    decreases s
  {
    if s.Then? {
      SavesReach(Apply(c, s.effect), s.rest, if k > 0 then k - 1 else 0, lost, p);
    }
  }

  lemma EventSaves(cfg: Config, c: Cell, e: Event, p: Option<Job> -> bool)
    requires p(c.job)
    requires Enabled(cfg, c, e.action) ==> Saves(ScriptOf(cfg, c, e.action), p)
    ensures p(Do(cfg, c, e).job)
  {
    if Enabled(cfg, c, e.action) {
      var k := if e.CrashIn? then e.after else 0;
      var lost: set<FileName> := if e.CrashIn? then e.lost else {};
      SavesReach(WithLease(c, e.action), ScriptOf(cfg, c, e.action), k, lost, p);
    }
  }

  // ---------------------------------------------------------------- lease fencing

  // The dispatch that drew lease l no longer owns the job.
  predicate Fenced(c: Cell, l: LeaseId) { l in c.leases && !OwnsRow(c.job, l) }

  predicate ByLease(e: Event, l: LeaseId) { HasLease(e.action) && e.action.lease == l }

  lemma StaleScript(cfg: Config, c: Cell, a: Action)
    requires Enabled(cfg, c, a) && HasLease(a) && !a.Claim? && !OwnsRow(c.job, a.lease)
    ensures Saves(ScriptOf(cfg, c, a), job => job == c.job)
  {
    var p: Option<Job> -> bool := job => job == c.job;
    var sc := ScriptOf(cfg, c, a);
    if sc.Then? && sc.rest.Then? && sc.rest.rest.Then? {
      assert Saves(sc.rest.rest.rest, p);
      assert Saves(sc.rest.rest, p);
      assert Saves(sc.rest, p);
    }
    assert Saves(sc, p);
  }

  lemma OthersScript(cfg: Config, c: Cell, a: Action, l: LeaseId)
    requires Enabled(cfg, c, a) && Fenced(c, l)
    requires HasLease(a) ==> a.lease != l
    ensures Saves(ScriptOf(cfg, c, a), job => !OwnsRow(job, l))
  {
    var p: Option<Job> -> bool := job => !OwnsRow(job, l);
    var sc := ScriptOf(cfg, c, a);
    if sc.Then? && sc.rest.Then? && sc.rest.rest.Then? {
      assert Saves(sc.rest.rest.rest, p);
      assert Saves(sc.rest.rest, p);
      assert Saves(sc.rest, p);
    }
    assert Saves(sc, p);
  }

  // Whatever a fenced dispatch still does, no row changes; and it stays fenced.
  lemma FencedStep(cfg: Config, c: Cell, e: Event, l: LeaseId)
    requires Fenced(c, l)
    ensures Fenced(Do(cfg, c, e), l)
    ensures ByLease(e, l) ==> Do(cfg, c, e).job == c.job
  {
    FencedLeases(cfg, c, e);
    if Enabled(cfg, c, e.action) {
      if ByLease(e, l) {
        StaleScript(cfg, c, e.action);
        EventSaves(cfg, c, e, job => job == c.job);
      } else {
        OthersScript(cfg, c, e.action, l);
        EventSaves(cfg, c, e, job => !OwnsRow(job, l));
      }
    }
  }

  lemma {:induction false} SameLeases(c: Cell, s: Script, k: nat, lost: set<FileName>)
    ensures Play(c, s).leases == c.leases && Torn(c, s, k, lost).leases == c.leases
    decreases s
  {
    if s.Then? {
      SameLeases(Apply(c, s.effect), s.rest, if k > 0 then k - 1 else 0, lost);
    }
  }

  lemma FencedLeases(cfg: Config, c: Cell, e: Event)
    ensures c.leases <= Do(cfg, c, e).leases
  {
    if Enabled(cfg, c, e.action) {
      var k := if e.CrashIn? then e.after else 0;
      var lost: set<FileName> := if e.CrashIn? then e.lost else {};
      SameLeases(WithLease(c, e.action), ScriptOf(cfg, c, e.action), k, lost);
    }
  }

  lemma {:induction false} FencedForever(cfg: Config, c: Cell, es: seq<Event>, l: LeaseId)
    requires Fenced(c, l)
    ensures Fenced(Run(cfg, c, es), l)
  {
    if es != [] {
      FencedForever(cfg, c, es[..|es| - 1], l);
      FencedStep(cfg, Run(cfg, c, es[..|es| - 1]), es[|es| - 1], l);
    }
  }

  // Once a lease is lost, no later step of its dispatch changes any row, in any run.
  lemma {:induction false} StaleDispatchIsInert(cfg: Config, c: Cell, es: seq<Event>, e: Event, l: LeaseId)
    requires Fenced(c, l) && ByLease(e, l)
    ensures Run(cfg, c, es + [e]).job == Run(cfg, c, es).job
  {
    FencedForever(cfg, c, es, l);
    FencedStep(cfg, Run(cfg, c, es), e, l);
    assert (es + [e])[..|es + [e]| - 1] == es;
  }

  // A dispatch alive after an event is the actor, or untouched by it.
  lemma Survivor(cfg: Config, c: Cell, e: Event, l: LeaseId)
    requires l in Do(cfg, c, e).workers
    ensures e.Step?
    ensures var a, w' := e.action, Do(cfg, c, e).workers[l];
            if Enabled(cfg, c, a) && ByLease(e, l) then WorkerAfter(cfg, c, a) == Some(w')
            else l in c.workers && c.workers[l] == w'
  {
  }

  // Another claim, a cancel, a retry, an expiry or the owner's deletion takes the
  // job away from every earlier lease.
  predicate TakesOver(a: Action) { a.Claim? || a.Cancel? || a.Retry? || a.Expire? || a.DropOwner? }

  // The dispatch's final, fenced transaction finds the row still its own.
  ghost predicate Publishes(cfg: Config, c: Cell, a: Action, l: LeaseId) {
    && Enabled(cfg, c, a) && HasLease(a) && a.lease == l && OwnsRow(c.job, l)
    && (a.Finish? || a.ZipDone? || a.ZipFail?) && WorkerAfter(cfg, c, a).None?
  }

  predicate Commits(s: Script)
    decreases s
  {
    match s
    case End => false
    case Then(e, rest) => e.Save? || Commits(rest)
  }

  lemma {:induction false} LastSaveLoses(c: Cell, s: Script, p: Option<Job> -> bool)
    requires Saves(s, p) && (p(c.job) || Commits(s))
    ensures p(Play(c, s).job)
    decreases s
  {
    if s.Then? {
      LastSaveLoses(Apply(c, s.effect), s.rest, p);
    }
  }

  lemma TakeoverScript(cfg: Config, c: Cell, a: Action, l: LeaseId)
    requires CellOk(cfg, c) && Enabled(cfg, c, a) && l in c.leases && TakesOver(a)
    ensures Saves(ScriptOf(cfg, c, a), job => !OwnsRow(job, l)) && Commits(ScriptOf(cfg, c, a))
  {
    var p: Option<Job> -> bool := job => !OwnsRow(job, l);
    var sc := ScriptOf(cfg, c, a);
    if sc.rest.Then? { assert Saves(sc.rest.rest, p); }
    assert Saves(sc.rest, p);
    assert Saves(sc, p);
  }

  lemma PublishingScript(cfg: Config, c: Cell, a: Action, l: LeaseId)
    requires Publishes(cfg, c, a, l)
    ensures Saves(ScriptOf(cfg, c, a), job => !OwnsRow(job, l)) && Commits(ScriptOf(cfg, c, a))
  {
    var p: Option<Job> -> bool := job => !OwnsRow(job, l);
    var sc := ScriptOf(cfg, c, a);
    if sc.rest.Then? {
      assert Saves(sc.rest.rest.rest, p);
      assert Saves(sc.rest.rest, p);
      assert sc.rest.rest.effect.Save? ==> Commits(sc.rest.rest);
      assert Commits(sc.rest);
    }
    assert Saves(sc.rest, p);
    assert Saves(sc, p);
  }

  lemma LeaseIsLost(cfg: Config, c: Cell, a: Action, l: LeaseId)
    requires CellOk(cfg, c) && Enabled(cfg, c, a) && l in c.leases
    requires TakesOver(a) || Publishes(cfg, c, a, l)
    ensures Fenced(Next(cfg, c, a), l)
  {
    FencedLeases(cfg, c, Step(a));
    if TakesOver(a) { TakeoverScript(cfg, c, a, l); } else { PublishingScript(cfg, c, a, l); }
    LastSaveLoses(WithLease(c, a), ScriptOf(cfg, c, a), job => !OwnsRow(job, l));
  }

  // No claim publishes twice, in any run.
  lemma {:induction false} PublishesOnce(cfg: Config, c: Cell, a: Action, es: seq<Event>, b: Action, l: LeaseId)
    requires CellOk(cfg, c) && l in c.leases && Publishes(cfg, c, a, l)
    ensures !Publishes(cfg, Run(cfg, Next(cfg, c, a), es), b, l)
  {
    LeaseIsLost(cfg, c, a, l);
    FencedForever(cfg, Next(cfg, c, a), es, l);
  }

  // ---------------------------------------------------------------- what never changes

  // Attempts are only added; each keeps its identity and start, and once closed it
  // never changes.
  predicate LedgerGrows(ledger: seq<Attempt>, ledger': seq<Attempt>) {
    && |ledger| <= |ledger'|
    && (forall i :: 0 <= i < |ledger| ==>
          && ledger'[i].id == ledger[i].id && ledger'[i].number == ledger[i].number
          && ledger'[i].startedAt == ledger[i].startedAt
          && (!ledger[i].status.Running? ==> ledger'[i] == ledger[i]))
  }

  // A later row of the same job: same owner and services, started once, ledgers only
  // grown, nothing that succeeded touched, and an expired job still expired.
  ghost predicate Kin(j: Job, j': Job) {
    && j'.owner == j.owner && j'.createdAt == j.createdAt && j'.rows.Keys == j.rows.Keys
    && (j.startedAt.Some? ==> j'.startedAt == j.startedAt)
    && (forall s :: s in j.rows ==> LedgerGrows(j.rows[s].ledger, j'.rows[s].ledger))
    && (forall s :: s in j.rows && j.rows[s].status.Succeeded? ==> j'.rows[s] == j.rows[s])
    && (j.status.Expired? ==> j'.status.Expired?)
  }

  ghost predicate KinRow(j: Job, job': Option<Job>) { job'.Some? ==> Kin(j, job'.value) }

  lemma ClaimKin(j: Job, l: LeaseId, now: Millis, leaseMs: nat)
    requires JobOk(j) && Claimable(j, now)
    ensures Kin(j, ClaimJob(j, l, now, leaseMs))
  {
    ClaimRows(j, l, now, leaseMs);
    forall s | s in j.rows ensures LedgerGrows(j.rows[s].ledger, ClaimJob(j, l, now, leaseMs).rows[s].ledger) {
      ClosingGrows(j.rows[s].ledger, AttemptStatus.Failed, now, INTERRUPTED);
    }
  }

  lemma ClosingGrows(ledger: seq<Attempt>, status: AttemptStatus, now: Millis, error: string)
    ensures LedgerGrows(ledger, CloseAttempts(ledger, status, now, error)) && LedgerGrows(ledger, ledger)
  {
  }

  lemma StartKin(j: Job, l: LeaseId, until: Millis, s: Service, id: AttemptId, now: Millis)
    ensures Kin(j, Renew(j, l, until)) && Kin(j, StartAttempt(Renew(j, l, until), l, s, id, now))
  {
  }

  lemma FinishKin(j: Job, l: LeaseId, s: Service, id: AttemptId, now: Millis, o: Outcome)
    requires Owns(j, l) && s in j.rows ==> j.rows[s].status.Running?
    ensures Kin(j, FinishAttempt(j, l, s, id, now, o))
  {
  }

  lemma CancelKin(j: Job, now: Millis, ttl: nat)
    requires JobOk(j)
    ensures Kin(j, CancelJob(j, now, ttl))
  {
    var j' := CancelJob(j, now, ttl);
    if Active(j) {
      forall s | s in j.rows && j.rows[s].status.Succeeded? ensures j'.rows[s] == j.rows[s] {
        CloseAttemptsShape(j.rows[s], AttemptStatus.Cancelled, now, CANCELLED);
      }
      forall s | s in j.rows ensures LedgerGrows(j.rows[s].ledger, j'.rows[s].ledger) {
        ClosingGrows(j.rows[s].ledger, AttemptStatus.Cancelled, now, CANCELLED);
      }
    }
  }

  lemma {:induction false} OneSave(job': Option<Job>, rest: Script, p: Option<Job> -> bool)
    requires p(job')
    requires rest == End || rest == Then(Wipe, End) || (rest.Then? && rest.effect.Unlink? && rest.rest == End)
    ensures Saves(Then(Save(job'), rest), p)
  {
  }

  lemma RouteKin(cfg: Config, c: Cell, a: Action)
    requires CellOk(cfg, c) && Enabled(cfg, c, a) && c.job.Some? && (!HasLease(a) || a.Claim?)
    ensures Saves(ScriptOf(cfg, c, a), job => KinRow(c.job.value, job))
  {
    var j := c.job.value;
    var p: Option<Job> -> bool := job => KinRow(j, job);
    var sc := ScriptOf(cfg, c, a);
    if a.Sweep? {
      assert Saves(sc.rest, p);
    } else {
      RouteRowKin(cfg, j, a);
      OneSave(sc.effect.job, sc.rest, p);
    }
  }

  lemma RouteRowKin(cfg: Config, j: Job, a: Action)
    requires JobOk(j)
    ensures a.Claim? && Claimable(j, a.now) ==> Kin(j, ClaimJob(j, a.lease, a.now, cfg.leaseMs))
    ensures a.Cancel? ==> Kin(j, CancelJob(j, a.now, cfg.artifactTtlMs))
    ensures a.Retry? ==> Kin(j, RetryJob(j))
    ensures a.Expire? ==> Kin(j, ExpireJob(j, a.now))
  {
    match a {
      case Claim(l, now, _, _, _) => if Claimable(j, now) { ClaimKin(j, l, now, cfg.leaseMs); }
      case Cancel(now) => CancelKin(j, now, cfg.artifactTtlMs);
      case Retry => RetryRows(j);
      case _ =>
    }
  }

  lemma TakeKin(cfg: Config, c: Cell, a: Action)
    requires Enabled(cfg, c, a) && c.job.Some? && a.Take?
    ensures Saves(ScriptOf(cfg, c, a), job => KinRow(c.job.value, job))
  {
    var j, l, w := c.job.value, a.lease, c.workers[a.lease];
    var p: Option<Job> -> bool := job => KinRow(j, job);
    var sc := ScriptOf(cfg, c, a);
    if w.next < |w.defs| { StartKin(j, l, a.now + cfg.leaseMs, w.defs[w.next], a.attempt, a.now); }
    if sc.Then? && sc.rest.Then? {
      assert Saves(sc.rest.rest.rest, p);
      assert Saves(sc.rest.rest, p);
    }
    if sc.Then? { assert Saves(sc.rest, p); }
  }

  lemma SettleKin(cfg: Config, c: Cell, a: Action)
    requires CellOk(cfg, c) && Enabled(cfg, c, a) && c.job.Some? && (a.Succeed? || a.Fail?)
    ensures Saves(ScriptOf(cfg, c, a), job => KinRow(c.job.value, job))
  {
    var j, l, s := c.job.value, a.lease, a.service;
    var f := c.workers[l].flights[s];
    var p: Option<Job> -> bool := job => KinRow(j, job);
    var sc := ScriptOf(cfg, c, a);
    WorkerOf(cfg, c, l);
    assert Owns(j, l) ==> Flying(s, f, j);
    if a.Succeed? {
      FinishKin(j, l, s, f.attempt, a.now, Recorded(s, l, f, c.dir[SnapshotTmp(s, l)]));
    } else {
      FinishKin(j, l, s, f.attempt, a.now, Failure(a.error));
      assert Saves(sc.rest.rest.rest, p);
    }
    assert Saves(sc.rest.rest, p);
    assert Saves(sc.rest, p);
  }

  lemma GiveUpKin(cfg: Config, j: Job, l: LeaseId, w: Worker, at: Millis, error: string)
    ensures Saves(GiveUpScript(cfg, Some(j), l, w, at, error), job => KinRow(j, job))
  {
    var p: Option<Job> -> bool := job => KinRow(j, job);
    var sc := GiveUpScript(cfg, Some(j), l, w, at, error);
    assert Saves(sc.rest.rest.rest, p);
    assert Saves(sc.rest.rest, p);
    assert Saves(sc.rest, p);
  }

  lemma ArchiveKin(cfg: Config, j: Job, l: LeaseId, w: Worker, size: nat)
    requires w.phase.Zipping?
    ensures Saves(PublishScript(cfg, Some(j), l, w, size), job => KinRow(j, job))
  {
    var p: Option<Job> -> bool := job => KinRow(j, job);
    var sc := PublishScript(cfg, Some(j), l, w, size);
    assert Saves(sc.rest.rest.rest, p);
    assert Saves(sc.rest.rest, p);
    assert Saves(sc.rest, p);
  }

  lemma FinishStretchKin(cfg: Config, c: Cell, a: Action, j: Job, w: Worker)
    requires Enabled(cfg, c, a) && a.Finish? && c.job == Some(j) && w == c.workers[a.lease]
    ensures Saves(ScriptOf(cfg, c, a), job => KinRow(j, job))
  {
    var l, p: Option<Job> -> bool := a.lease, job => KinRow(j, job);
    var sc := ScriptOf(cfg, c, a);
    if !OwnsRow(c.job, l) {
      if sc.Then? { assert Saves(sc.rest, p); }
    } else if FinalStatus(j).Failed? {
      OneSave(sc.effect.job, sc.rest, p);
    } else if FinishError(cfg, w, a.retained, a.free).Some? {
      GiveUpKin(cfg, j, l, w, a.now, FinishError(cfg, w, a.retained, a.free).value);
    } else {
      OneSave(sc.effect.job, sc.rest, p);
    }
  }

  lemma EndKin(cfg: Config, c: Cell, a: Action)
    requires Enabled(cfg, c, a) && c.job.Some? && (a.Finish? || a.ZipDone? || a.ZipFail?)
    ensures Saves(ScriptOf(cfg, c, a), job => KinRow(c.job.value, job))
  {
    var j, l, w := c.job.value, a.lease, c.workers[a.lease];
    assert c.job == Some(j);
    if a.ZipDone? {
      ArchiveKin(cfg, j, l, w, |c.dir[ArchiveTmp(l)]|);
    } else if a.ZipFail? {
      GiveUpKin(cfg, j, l, w, w.phase.completedAt, a.error);
    } else {
      FinishStretchKin(cfg, c, a, j, w);
    }
  }

  lemma QuietKin(cfg: Config, c: Cell, a: Action)
    requires Enabled(cfg, c, a) && c.job.Some? && HasLease(a)
    requires a.Return? || a.Open? || a.Chunk? || a.ZipReserve? || a.ZipFlush? || a.Heartbeat? || a.Kill?
    ensures Saves(ScriptOf(cfg, c, a), job => KinRow(c.job.value, job))
  {
  }

  lemma DoKin(cfg: Config, c: Cell, e: Event)
    requires CellOk(cfg, c) && c.job.Some?
    ensures KinRow(c.job.value, Do(cfg, c, e).job)
  {
    if Enabled(cfg, c, e.action) {
      if !HasLease(e.action) || e.action.Claim? {
        RouteKin(cfg, c, e.action);
      } else if e.action.Take? {
        TakeKin(cfg, c, e.action);
      } else if e.action.Succeed? || e.action.Fail? {
        SettleKin(cfg, c, e.action);
      } else if e.action.Finish? || e.action.ZipDone? || e.action.ZipFail? {
        EndKin(cfg, c, e.action);
      } else {
        QuietKin(cfg, c, e.action);
      }
    }
    EventSaves(cfg, c, e, job => KinRow(c.job.value, job));
  }

  lemma GoneStaysGone(cfg: Config, c: Cell, e: Event)
    requires c.job.None?
    ensures Do(cfg, c, e).job.None?
  {
    if Enabled(cfg, c, e.action) {
      var p: Option<Job> -> bool := (job: Option<Job>) => job.None?;
      var sc := ScriptOf(cfg, c, e.action);
      if sc.Then? && sc.rest.Then? && sc.rest.rest.Then? {
        assert Saves(sc.rest.rest.rest, p);
        assert Saves(sc.rest.rest, p);
      }
      if sc.Then? { assert Saves(sc.rest, p); }
      assert Saves(sc, p);
      EventSaves(cfg, c, e, p);
    }
  }

  // What succeeded is never fetched, changed or lost again; expired is final.
  lemma {:induction false} SucceededForever(cfg: Config, c: Cell, es: seq<Event>)
    requires CellOk(cfg, c) && c.job.Some?
    ensures KinRow(c.job.value, Run(cfg, c, es).job)
  {
    if es != [] {
      var prior := Run(cfg, c, es[..|es| - 1]);
      SucceededForever(cfg, c, es[..|es| - 1]);
      RunOk(cfg, c, es[..|es| - 1]);
      if prior.job.Some? {
        DoKin(cfg, prior, es[|es| - 1]);
      } else {
        GoneStaysGone(cfg, prior, es[|es| - 1]);
      }
    }
  }
}
