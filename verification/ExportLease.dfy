// How long a claim keeps the job: until the time its last renewal set, to the
// millisecond, in every run.
module ExportLease {
  import opened Common
  import opened ExportRows
  import opened ExportCell
  import opened ExportDurable
  import opened ExportLive
  import opened ExportSteps
  import opened ExportRuns
  import opened ExportTheorems

  // The time to which the event renews l's lease, if it does. A crash before the
  // stretch's first transaction renews nothing.
  ghost function RenewalOf(cfg: Config, c: Cell, e: Event, l: LeaseId): Option<Millis> {
    var a := e.action;
    if !Enabled(cfg, c, a) || !ByLease(e, l) || (e.CrashIn? && e.after == 0) then None
    else if a.Take? && !a.abort && c.workers[l].next < |c.workers[l].defs| then Some(a.now + cfg.leaseMs)
    else if a.Heartbeat? then Some(a.until)
    else if a.Finish? && WorkerAfter(cfg, c, a).Some? then Some(a.now + cfg.leaseMs)
    else None
  }

  // The end of a lease that ran to t, after the events.
  ghost function LeaseEnd(cfg: Config, c: Cell, es: seq<Event>, l: LeaseId, t: Millis): Millis {
    if es == [] then t
    else
      var renewal := RenewalOf(cfg, Run(cfg, c, es[..|es| - 1]), es[|es| - 1], l);
      if renewal.Some? then renewal.value else LeaseEnd(cfg, c, es[..|es| - 1], l, t)
  }

  // Whoever owns the row owns it until this time.
  predicate Until(job: Option<Job>, l: LeaseId, t: Option<Millis>) { OwnsRow(job, l) ==> job.value.leaseUntil == t }

  lemma {:induction false} FirstSaves(c: Cell, s: Script, k: nat, lost: set<FileName>, p: Option<Job> -> bool)
    requires s.Then? && s.effect.Save? && Saves(s, p) && 0 < k
    ensures p(Play(c, s).job) && p(Torn(c, s, k, lost).job)
  {
    SavesReach(Apply(c, s.effect), s.rest, k - 1, lost, p);
  }

  lemma RenewingScript(cfg: Config, c: Cell, e: Event, l: LeaseId)
    requires RenewalOf(cfg, c, e, l).Some? && OwnsRow(c.job, l)
    ensures var sc := ScriptOf(cfg, c, e.action);
            sc.Then? && sc.effect.Save? && Saves(sc, job => Until(job, l, RenewalOf(cfg, c, e, l)))
  {
    var t := RenewalOf(cfg, c, e, l);
    var p: Option<Job> -> bool := job => Until(job, l, t);
    var sc := ScriptOf(cfg, c, e.action);
    if sc.rest.Then? {
      if sc.rest.rest.Then? { assert Saves(sc.rest.rest.rest, p); }
      assert Saves(sc.rest.rest, p);
    }
    assert Saves(sc.rest, p);
  }

  // A step of the holder that renews nothing.
  lemma HoldingScript(cfg: Config, c: Cell, e: Event, a: Action, l: LeaseId)
    requires a == e.action && RenewalOf(cfg, c, e, l).None? && Enabled(cfg, c, a) && OwnsRow(c.job, l)
    requires HasLease(a) && a.lease == l && !a.Claim? && (e.CrashIn? ==> 0 < e.after)
    ensures Saves(ScriptOf(cfg, c, a), job => Until(job, l, c.job.value.leaseUntil))
  {
    var p: Option<Job> -> bool := job => Until(job, l, c.job.value.leaseUntil);
    var sc := ScriptOf(cfg, c, a);
    if sc.Then? {
      if sc.rest.Then? {
        if sc.rest.rest.Then? {
          assert Saves(sc.rest.rest.rest, p);
          assert Saves(sc.rest.rest, p);
        }
        assert Saves(sc.rest, p);
      }
    }
  }

  lemma OthersKeepLease(cfg: Config, c: Cell, a: Action, l: LeaseId)
    requires CellOk(cfg, c) && Enabled(cfg, c, a) && OwnsRow(c.job, l) && (!HasLease(a) || a.Claim? || a.lease != l)
    ensures Saves(ScriptOf(cfg, c, a), job => Until(job, l, c.job.value.leaseUntil))
  {
    var p: Option<Job> -> bool := job => Until(job, l, c.job.value.leaseUntil);
    if TakesOver(a) {
      TakeoverScript(cfg, c, a, l);
      SavesMore(ScriptOf(cfg, c, a), job => !OwnsRow(job, l), p);
    } else if HasLease(a) {
      StaleScript(cfg, c, a);
      SavesMore(ScriptOf(cfg, c, a), job => job == c.job, p);
    }
  }

  lemma {:induction false} SavesMore(s: Script, p: Option<Job> -> bool, q: Option<Job> -> bool)
    requires Saves(s, p) && forall job :: p(job) ==> q(job)
    ensures Saves(s, q)
    decreases s
  {
    if s.Then? { SavesMore(s.rest, p, q); }
  }

  lemma QuietLease(cfg: Config, c: Cell, e: Event, l: LeaseId)
    requires CellOk(cfg, c) && OwnsRow(c.job, l) && RenewalOf(cfg, c, e, l).None? && Enabled(cfg, c, e.action)
    ensures Until(Do(cfg, c, e).job, l, c.job.value.leaseUntil)
  {
    var a := e.action;
    if !HasLease(a) || a.Claim? || a.lease != l {
      OthersKeepLease(cfg, c, a, l);
      EventSaves(cfg, c, e, job => Until(job, l, c.job.value.leaseUntil));
    } else if e.CrashIn? && e.after == 0 {
      CrashAtOnce(cfg, c, e);
    } else {
      HoldingScript(cfg, c, e, a, l);
      EventSaves(cfg, c, e, job => Until(job, l, c.job.value.leaseUntil));
    }
  }

  lemma CrashAtOnce(cfg: Config, c: Cell, e: Event)
    requires e.CrashIn? && e.after == 0
    ensures Do(cfg, c, e).job == c.job
  {
  }

  // Only a renewal of its own moves the end of a lease that is still held.
  lemma LeaseStep(cfg: Config, c: Cell, e: Event, l: LeaseId)
    requires CellOk(cfg, c) && OwnsRow(c.job, l)
    ensures var renewal := RenewalOf(cfg, c, e, l);
            Until(Do(cfg, c, e).job, l, if renewal.Some? then renewal else c.job.value.leaseUntil)
  {
    var a, renewal := e.action, RenewalOf(cfg, c, e, l);
    if renewal.Some? {
      RenewingScript(cfg, c, e, l);
      FirstSaves(WithLease(c, a), ScriptOf(cfg, c, a), if e.CrashIn? then e.after else 1,
                 if e.CrashIn? then e.lost else {}, job => Until(job, l, renewal));
    } else if Enabled(cfg, c, a) {
      QuietLease(cfg, c, e, l);
    }
  }

  // A running job is claimed exactly from the end of its lease on, and a queued job
  // at any time.
  lemma ClaimEnabled(cfg: Config, c: Cell, a: Action)
    requires CellOk(cfg, c) && c.job.Some? && a.Claim? && a.lease !in c.leases
    requires IsWorkList(a.defs, c.job.value.rows, a.registry)
    ensures var j := c.job.value;
            Enabled(cfg, c, a) <==>
              j.status.Queued? || (j.status.Running? && j.leaseUntil.Some? && j.leaseUntil.value <= a.now)
  {
  }

  lemma {:induction false} OwnedAllAlong(cfg: Config, c: Cell, es: seq<Event>, l: LeaseId)
    requires CellOk(cfg, c) && OwnsRow(c.job, l) && es != [] && OwnsRow(Run(cfg, c, es).job, l)
    ensures OwnsRow(Run(cfg, c, es[..|es| - 1]).job, l)
  {
    var prior := Run(cfg, c, es[..|es| - 1]);
    LeasesGrow(cfg, c, es[..|es| - 1]);
    if !OwnsRow(prior.job, l) { FencedStep(cfg, prior, es[|es| - 1], l); }
  }

  lemma {:induction false} LeasesGrow(cfg: Config, c: Cell, es: seq<Event>)
    ensures c.leases <= Run(cfg, c, es).leases
  {
    if es != [] {
      LeasesGrow(cfg, c, es[..|es| - 1]);
      FencedLeases(cfg, Run(cfg, c, es[..|es| - 1]), es[|es| - 1]);
    }
  }

  // While the holder still owns the job, its lease ends where its last renewal put it.
  lemma {:induction false} LeaseHolds(cfg: Config, c: Cell, es: seq<Event>, l: LeaseId, t: Millis)
    requires CellOk(cfg, c) && OwnsRow(c.job, l) && c.job.value.leaseUntil == Some(t)
    requires OwnsRow(Run(cfg, c, es).job, l)
    ensures Run(cfg, c, es).job.value.leaseUntil == Some(LeaseEnd(cfg, c, es, l, t))
  {
    if es != [] {
      var prior := Run(cfg, c, es[..|es| - 1]);
      OwnedAllAlong(cfg, c, es, l);
      LeaseHolds(cfg, c, es[..|es| - 1], l, t);
      RunOk(cfg, c, es[..|es| - 1]);
      LeaseStep(cfg, prior, es[|es| - 1], l);
    }
  }

  lemma ClaimLeases(cfg: Config, c: Cell, a: Action, t: Millis)
    requires Enabled(cfg, c, a) && a.Claim? && t == a.now + cfg.leaseMs
    ensures OwnsRow(Next(cfg, c, a).job, a.lease) && Next(cfg, c, a).job.value.leaseUntil == Some(t)
  {
    var p: Option<Job> -> bool := (job: Option<Job>) => OwnsRow(job, a.lease) && job.value.leaseUntil == Some(t);
    var sc := ScriptOf(cfg, c, a);
    assert Saves(sc.rest.rest, p);
    assert Saves(sc.rest, p);
    LastSaveLoses(WithLease(c, a), sc, p);
  }

  // From a claim on, for as long as the claimer still owns the job, no other dispatch
  // can claim it before the end of the lease, and from then on any can.
  lemma {:induction false} LeaseExcludes(cfg: Config, c: Cell, a: Action, es: seq<Event>, b: Action, t: Millis)
    requires CellOk(cfg, c) && Enabled(cfg, c, a) && a.Claim? && t == a.now + cfg.leaseMs
    requires var c' := Run(cfg, Next(cfg, c, a), es);
             && OwnsRow(c'.job, a.lease)
             && b.Claim? && b.lease !in c'.leases && IsWorkList(b.defs, c'.job.value.rows, b.registry)
    ensures Enabled(cfg, Run(cfg, Next(cfg, c, a), es), b) <==>
              LeaseEnd(cfg, Next(cfg, c, a), es, a.lease, t) <= b.now
  {
    NextOk(cfg, c, a);
    ClaimLeases(cfg, c, a, t);
    HolderExcludes(cfg, Next(cfg, c, a), es, a.lease, t, b);
  }

  lemma {:induction false} HolderExcludes(cfg: Config, c: Cell, es: seq<Event>, l: LeaseId, t: Millis, b: Action)
    requires CellOk(cfg, c) && OwnsRow(c.job, l) && c.job.value.leaseUntil == Some(t)
    requires var c' := Run(cfg, c, es);
             && OwnsRow(c'.job, l)
             && b.Claim? && b.lease !in c'.leases && IsWorkList(b.defs, c'.job.value.rows, b.registry)
    ensures Enabled(cfg, Run(cfg, c, es), b) <==> LeaseEnd(cfg, c, es, l, t) <= b.now
  {
    LeaseHolds(cfg, c, es, l, t);
    RunOk(cfg, c, es);
    ClaimEnabled(cfg, Run(cfg, c, es), b);
  }

  // Every renewal among the events is to t at least.
  predicate RenewsPast(cfg: Config, es: seq<Event>, l: LeaseId, t: Millis) {
    forall i :: 0 <= i < |es| && ByLease(es[i], l) ==>
      && (es[i].action.Take? || es[i].action.Finish? ==> t <= es[i].action.now + cfg.leaseMs)
      && (es[i].action.Heartbeat? ==> t <= es[i].action.until)
  }

  lemma {:induction false} LeaseLasts(cfg: Config, c: Cell, es: seq<Event>, l: LeaseId, t: Millis, end: Millis)
    requires RenewsPast(cfg, es, l, t) && t <= end
    ensures t <= LeaseEnd(cfg, c, es, l, end)
  {
    if es != [] { LeaseLasts(cfg, c, es[..|es| - 1], l, t, end); }
  }

  // In particular a lease that was taken or renewed to t, and is only ever renewed to
  // t or later, keeps every other dispatch off the job until t.
  lemma {:induction false} NobodyElseClaims(cfg: Config, c: Cell, es: seq<Event>, l: LeaseId, t: Millis, b: Action)
    requires CellOk(cfg, c) && OwnsRow(c.job, l) && c.job.value.leaseUntil.Some? && t <= c.job.value.leaseUntil.value
    requires RenewsPast(cfg, es, l, t) && OwnsRow(Run(cfg, c, es).job, l)
    requires b.Claim? && b.now < t
    ensures !Enabled(cfg, Run(cfg, c, es), b)
  {
    LeaseHolds(cfg, c, es, l, c.job.value.leaseUntil.value);
    LeaseLasts(cfg, c, es, l, t, c.job.value.leaseUntil.value);
  }
}
