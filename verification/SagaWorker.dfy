// The deletion worker as code: the saga's transactions on its two tables, one
// dispatch, and the loop that drains everything eligible.
module SagaWorker {
  import opened Common
  import opened MapSums
  import opened LeasedQueue
  import opened QueueTable
  import opened DeletionSaga

  // Text order of the service column.
  function ServiceOrder(s: Service): nat {
    match s
    case Glocke => 0
    case Herold => 1
    case Kuvert => 2
    case Schrank => 3
    case Tafel => 4
    case Zettel => 5
  }

  // ORDER BY next_attempt_at, job_id, service; SQLite sorts NULL first.
  function SagaRank(k: Target, it: Item): Rank {
    if it.nextAttemptAt.None? then Rank(0, 0, k.job, ServiceOrder(k.service))
    else Rank(1, it.nextAttemptAt.value, k.job, ServiceOrder(k.service))
  }

  // The first letter of the column's value; no two services share one.
  function Letter(s: Service): char {
    match s
    case Kuvert => 'k'
    case Tafel => 't'
    case Zettel => 'z'
    case Glocke => 'g'
    case Schrank => 's'
    case Herold => 'h'
  }

  // No due time before any due time, then the earlier one, the smaller job and the
  // service that comes first in the alphabet.
  predicate Precedes(a: Target, x: Item, b: Target, y: Item) {
    || (x.nextAttemptAt.None? && y.nextAttemptAt.Some?)
    || (x.nextAttemptAt.Some? && y.nextAttemptAt.Some? && x.nextAttemptAt.value < y.nextAttemptAt.value)
    || (x.nextAttemptAt == y.nextAttemptAt
        && (a.job < b.job || (a.job == b.job && Letter(a.service) < Letter(b.service))))
  }

  // The target the worker claims precedes every other eligible one.
  lemma FirstPrecedes(items: map<Target, Item>, now: Millis, key: Target, other: Target)
    requires IsFirst(items, now, SagaRank, key) && other in items && other != key
    requires || (items[other].status.Pending?
                 && (items[other].nextAttemptAt.None? || items[other].nextAttemptAt.value <= now))
             || (items[other].status.Inflight?
                 && (items[other].leaseUntil.None? || items[other].leaseUntil.value <= now))
    ensures Precedes(key, items[key], other, items[other])
  {
    assert Eligible(items[other], now);
    if key.service != other.service { assert ServiceOrder(key.service) != ServiceOrder(other.service); }
  }

  predicate TablesOk(t: Tables, maxAttempts: nat) {
    && (forall k :: k in t.targets ==> ItemOk(t.targets[k], maxAttempts) && k.job in t.jobs)
    && (forall j :: j in t.jobs ==> FoldOk(t.targets, j, t.jobs[j]))
  }

  // ---------------------------------------------------------------- one dispatch on the tables

  // Claim and settle with nobody in between.
  function DispatchIn(t: Tables, cfg: Config, key: Target, lease: LeaseId, now: Millis, a: Answer, random: real,
                      doneAt: Millis): Tables
    requires key in t.targets && key.job in t.jobs
  {
    Turn(t, cfg, key, lease, now, VerdictOf(cfg, key.service, a, t.targets[key].attempts + 1, doneAt, random), doneAt)
  }

  // The tables after a dispatch took `key`, the first eligible target.
  ghost predicate Dispatched(t: Tables, cfg: Config, key: Target, lease: LeaseId, now: Millis,
                             a: Answer, random: real, doneAt: Millis, t': Tables)
  {
    && IsFirst(t.targets, now, SagaRank, key) && key.job in t.jobs
    && t' == DispatchIn(t, cfg, key, lease, now, a, random, doneAt)
  }

  function Turn(t: Tables, cfg: Config, key: Target, lease: LeaseId, now: Millis, v: Verdict, doneAt: Millis): Tables
    requires key in t.targets && key.job in t.jobs
  {
    SettleIn(ClaimIn(t, key, lease, now, cfg.leaseMs), Holder(key, t.targets[key].attempts), lease, v, doneAt,
        cfg.maxAttempts)
  }

  // That is the step model's claim followed by its settle.
  lemma DispatchIsTwoEvents(s: Saga, cfg: Config, key: Target, lease: LeaseId, now: Millis, a: Answer, random: real,
                            doneAt: Millis)
    requires lease !in s.queue.leases && key in s.queue.items && key.job in s.jobs && Eligible(s.queue.items[key], now)
    ensures var v := VerdictOf(cfg, key.service, a, s.queue.items[key].attempts + 1, doneAt, random);
            var s' := SagaDo(SagaDo(s, Work(Claim(lease, key, now, cfg.leaseMs)), cfg.maxAttempts),
                             Work(Settle(lease, v, doneAt)), cfg.maxAttempts);
            Tables(s'.queue.items, s'.jobs) ==
                DispatchIn(Tables(s.queue.items, s.jobs), cfg, key, lease, now, a, random, doneAt)
  {
    var s1 := SagaDo(s, Work(Claim(lease, key, now, cfg.leaseMs)), cfg.maxAttempts);
    assert s1.queue.holders[lease] == Holder(key, s.queue.items[key].attempts);
    assert Tables(s1.queue.items, s1.jobs) == ClaimIn(Tables(s.queue.items, s.jobs), key, lease, now, cfg.leaseMs);
  }

  // The attempts an item has left.
  function Left(it: Item, maxAttempts: nat): int { if Terminal(it) then 0 else maxAttempts - it.attempts }

  function LeftColumn(targets: map<Target, Item>, maxAttempts: nat): map<Target, int> {
    map k | k in targets :: Left(targets[k], maxAttempts)
  }

  ghost function Budget(targets: map<Target, Item>, maxAttempts: nat): int { Sum(LeftColumn(targets, maxAttempts)) }

  lemma ClaimTablesOk(t: Tables, key: Target, lease: LeaseId, now: Millis, leaseMs: nat, maxAttempts: nat)
    requires TablesOk(t, maxAttempts) && key in t.targets && Eligible(t.targets[key], now)
    ensures TablesOk(ClaimIn(t, key, lease, now, leaseMs), maxAttempts)
  {
    var t' := ClaimIn(t, key, lease, now, leaseMs);
    forall j | j in t'.jobs ensures FoldOk(t'.targets, j, t'.jobs[j]) {
      if j != key.job { FoldFrame(t.targets, t'.targets, j); } else { assert t'.targets[key].status.Inflight?; }
    }
  }

  lemma SettleTablesOk(t: Tables, h: Holder<Target>, lease: LeaseId, v: Verdict, now: Millis, maxAttempts: nat)
    requires TablesOk(t, maxAttempts) && h.key in t.targets && 0 < maxAttempts
    requires Held(t.targets[h.key], lease) ==> h.attempts == t.targets[h.key].attempts
    ensures TablesOk(SettleIn(t, h, lease, v, now, maxAttempts), maxAttempts)
  {
    var t' := SettleIn(t, h, lease, v, now, maxAttempts);
    SettledFold(t.targets, t.jobs[h.key.job], h, lease, v, now, maxAttempts);
    forall j | j in t'.jobs ensures FoldOk(t'.targets, j, t'.jobs[j]) {
      if j != h.key.job { FoldFrame(t.targets, t'.targets, j); }
    }
  }

  // A settle that finds its lease spends at least one attempt; a late one spends none.
  lemma SettleSpends(t: Tables, h: Holder<Target>, lease: LeaseId, v: Verdict, now: Millis, maxAttempts: nat)
    requires TablesOk(t, maxAttempts) && h.key in t.targets && 0 < maxAttempts
    requires Held(t.targets[h.key], lease) ==> h.attempts == t.targets[h.key].attempts
    ensures var t' := SettleIn(t, h, lease, v, now, maxAttempts);
            var spent := Budget(t.targets, maxAttempts) - Budget(t'.targets, maxAttempts);
            if Held(t.targets[h.key], lease) then 1 <= spent else spent == 0
  {
    var targets' := SettleIn(t, h, lease, v, now, maxAttempts).targets;
    assert LeftColumn(targets', maxAttempts) ==
        LeftColumn(t.targets, maxAttempts)[h.key := Left(targets'[h.key], maxAttempts)];
    SumUpdate(LeftColumn(t.targets, maxAttempts), h.key, Left(targets'[h.key], maxAttempts));
  }

  lemma BudgetNonNegative(t: Tables, maxAttempts: nat)
    requires TablesOk(t, maxAttempts)
    ensures 0 <= Budget(t.targets, maxAttempts)
  {
    SumNonNegative(LeftColumn(t.targets, maxAttempts));
  }

  lemma ClaimBudget(targets: map<Target, Item>, key: Target, it: Item, maxAttempts: nat)
    requires key in targets && Left(it, maxAttempts) == Left(targets[key], maxAttempts)
    ensures Budget(targets[key := it], maxAttempts) == Budget(targets, maxAttempts)
  {
    assert LeftColumn(targets[key := it], maxAttempts) == LeftColumn(targets, maxAttempts);
  }

  lemma ClaimSpendsNothing(t: Tables, key: Target, lease: LeaseId, now: Millis, leaseMs: nat, maxAttempts: nat)
    requires TablesOk(t, maxAttempts) && key in t.targets && Eligible(t.targets[key], now)
    ensures var mid := ClaimIn(t, key, lease, now, leaseMs);
            && TablesOk(mid, maxAttempts) && key in mid.targets
            && Held(mid.targets[key], lease) && mid.targets[key].attempts == t.targets[key].attempts
            && Budget(mid.targets, maxAttempts) == Budget(t.targets, maxAttempts)
  {
    ClaimTablesOk(t, key, lease, now, leaseMs, maxAttempts);
    ClaimBudget(t.targets, key, ClaimItem(t.targets[key], lease, now + leaseMs), maxAttempts);
  }

  lemma HeldSpends(mid: Tables, h: Holder<Target>, lease: LeaseId, v: Verdict, now: Millis, maxAttempts: nat)
    requires TablesOk(mid, maxAttempts) && h.key in mid.targets && 0 < maxAttempts
    requires Held(mid.targets[h.key], lease) && h.attempts == mid.targets[h.key].attempts
    ensures var t' := SettleIn(mid, h, lease, v, now, maxAttempts);
            TablesOk(t', maxAttempts) && 0 <= Budget(t'.targets, maxAttempts) < Budget(mid.targets, maxAttempts)
  {
    SettleTablesOk(mid, h, lease, v, now, maxAttempts);
    SettleSpends(mid, h, lease, v, now, maxAttempts);
    BudgetNonNegative(SettleIn(mid, h, lease, v, now, maxAttempts), maxAttempts);
  }

  // Every dispatch that finds work spends budget, whatever it is answered.
  lemma TurnSpends(t: Tables, cfg: Config, key: Target, lease: LeaseId, now: Millis, v: Verdict, doneAt: Millis,
                   t': Tables)
    requires TablesOk(t, cfg.maxAttempts) && cfg.Valid() && key in t.targets && Eligible(t.targets[key], now)
    requires t' == Turn(t, cfg, key, lease, now, v, doneAt)
    ensures TablesOk(t', cfg.maxAttempts)
    ensures 0 <= Budget(t'.targets, cfg.maxAttempts) < Budget(t.targets, cfg.maxAttempts)
  {
    ClaimSpendsNothing(t, key, lease, now, cfg.leaseMs, cfg.maxAttempts);
    HeldSpends(ClaimIn(t, key, lease, now, cfg.leaseMs), Holder(key, t.targets[key].attempts), lease, v, doneAt,
        cfg.maxAttempts);
  }

  lemma DispatchSpends(t: Tables, cfg: Config, lease: LeaseId, now: Millis, a: Answer, random: real, doneAt: Millis,
                       t': Tables)
    requires TablesOk(t, cfg.maxAttempts) && cfg.Valid()
    requires exists key :: Dispatched(t, cfg, key, lease, now, a, random, doneAt, t')
    ensures TablesOk(t', cfg.maxAttempts)
    ensures 0 <= Budget(t'.targets, cfg.maxAttempts) < Budget(t.targets, cfg.maxAttempts)
  {
    var key :| Dispatched(t, cfg, key, lease, now, a, random, doneAt, t');
    TurnSpends(t, cfg, key, lease, now, VerdictOf(cfg, key.service, a, t.targets[key].attempts + 1, doneAt, random),
        doneAt, t');
  }

  function Listed(services: seq<Service>): set<Service> { set s | s in services }

  lemma OneMoreTarget(items: map<Target, Item>, job: JobId, services: seq<Service>, s: Service, now: Millis)
    ensures (items + NewTargets(job, Listed(services), now))[Target(job, s) := NewItem(Some(now))]
         == items + NewTargets(job, Listed(services + [s]), now)
  {
  }

  // ---------------------------------------------------------------- the worker

  class Worker {
    const cfg: Config
    const targets: Table<Target>
    var jobs: map<JobId, Job>

    constructor (cfg: Config)
      ensures this.cfg == cfg && fresh(targets) && View() == Tables(map[], map[])
    {
      this.cfg := cfg;
      targets := new Table();
      jobs := map[];
    }

    function View(): Tables
      reads this, targets
    {
      Tables(targets.items, jobs)
    }

    method InsertTargets(job: JobId, services: seq<Service>, now: Millis)
      modifies targets
      ensures targets.items == old(targets.items) + NewTargets(job, Listed(services), now)
    {
      for i := 0 to |services|
        invariant targets.items == old(targets.items) + NewTargets(job, Listed(services[..i]), now)
      {
        OneMoreTarget(old(targets.items), job, services[..i], services[i], now);
        targets.Insert(Target(job, services[i]), Some(now));
        assert services[..i + 1] == services[..i] + [services[i]];
      }
      assert services[..|services|] == services;
    }

    method EnqueueDeletionJob(job: JobId, user: UserId, initiator: Initiator, now: Millis, services: seq<Service>)
      requires job !in jobs
      modifies this`jobs, targets
      ensures View() == EnqueueIn(old(View()), job, user, initiator, now, Listed(services))
    {
      jobs := jobs[job := Job(user, initiator, JobStatus.Pending, now, None, None)];
      if |services| > 0 {
        assert services[0] in Listed(services);
        InsertTargets(job, services, now);
      } else {
        jobs := jobs[job :=
            jobs[job].(status := JobStatus.Completed, startedAt := Some(now), completedAt := Some(now))];
        assert old(targets.items) + NewTargets(job, {}, now) == old(targets.items);
      }
    }

    method Claim(now: Millis, lease: LeaseId) returns (claimed: Option<Holder<Target>>)
      requires forall k :: k in targets.items ==> k.job in jobs
      modifies this`jobs, targets
      ensures claimed.None? ==>
                View() == old(View()) && forall k :: k in targets.items ==> !Eligible(targets.items[k], now)
      ensures claimed.Some? ==>
        && IsFirst(old(targets.items), now, SagaRank, claimed.value.key)
        && claimed.value.attempts == old(targets.items)[claimed.value.key].attempts
        && View() == ClaimIn(old(View()), claimed.value.key, lease, now, cfg.leaseMs)
    {
      claimed := targets.Claim(now, lease, cfg.leaseMs, SagaRank);
      if claimed.None? { return; }
      var j := jobs[claimed.value.key.job];
      jobs := jobs[claimed.value.key.job :=
        j.(status := JobStatus.Running, startedAt := if j.startedAt.Some? then j.startedAt else Some(now))];
    }

    // Read the job's targets and close the job when all of them are closed.
    method UpdateJob(job: JobId, now: Millis)
      requires job in jobs
      modifies this`jobs
      ensures jobs == old(jobs)[job := UpdatedJob(old(jobs)[job], targets.items, job, now)]
    {
      var delivered, terminal := true, true;
      var rest := targets.items.Keys;
      while rest != {}
        invariant rest <= targets.items.Keys && jobs == old(jobs)
        invariant delivered <==> forall k :: k in targets.items && k !in rest && k.job == job ==>
                    targets.items[k].status.Delivered?
        invariant terminal <==> forall k :: k in targets.items && k !in rest && k.job == job ==>
                    Terminal(targets.items[k])
        decreases |rest|
      {
        var k :| k in rest;
        rest := rest - {k};
        if k.job == job {
          delivered := delivered && targets.items[k].status.Delivered?;
          terminal := terminal && Terminal(targets.items[k]);
        }
      }
      if delivered {
        jobs := jobs[job := jobs[job].(status := JobStatus.Completed, completedAt := Some(now))];
      } else if terminal {
        jobs := jobs[job := jobs[job].(status := JobStatus.Failed, completedAt := Some(now))];
      }
      assert jobs == old(jobs)[job := jobs[job]];
    }

    method Settle(h: Holder<Target>, lease: LeaseId, verdict: Verdict, now: Millis)
      requires h.key in targets.items && h.key.job in jobs
      modifies this`jobs, targets
      ensures View() == SettleIn(old(View()), h, lease, verdict, now, cfg.maxAttempts)
    {
      targets.SettleAttempt(h, lease, verdict, now, cfg.maxAttempts);
      UpdateJob(h.key.job, now);
    }

    // One dispatch: claim, attempt, settle by the answer.
    method DispatchDeletionTarget(now: Millis, lease: LeaseId, a: Answer, random: real, doneAt: Millis) returns (n: nat)
      requires forall k :: k in targets.items ==> k.job in jobs
      modifies this`jobs, targets
      ensures n == 0 ==> View() == old(View()) && forall k :: k in targets.items ==> !Eligible(targets.items[k], now)
      ensures n != 0 ==> exists key :: Dispatched(old(View()), cfg, key, lease, now, a, random, doneAt, View())
    {
      var claimed := Claim(now, lease);
      if claimed.None? { return 0; }
      var h := claimed.value;
      var attempts := h.attempts + 1;
      var verdict: Verdict;
      if h.key.service !in cfg.urls {
        verdict := Refused;
      } else {
        match a {
          case Http(status) =>
            if 200 <= status < 300 {
              verdict := Success;
            } else if !Retryable(status) {
              verdict := Refused;
            } else {
              verdict := Retry(doneAt + Delay(attempts, cfg.baseDelayMs, cfg.maxDelayMs, random));
            }
          case Broken =>
            verdict := Retry(doneAt + Delay(attempts, cfg.baseDelayMs, cfg.maxDelayMs, random));
        }
      }
      Settle(h, lease, verdict, doneAt);
      assert Dispatched(old(View()), cfg, h.key, lease, now, a, random, doneAt, View());
      return 1;
    }

    // The loop of startDeletionWorker at a fixed clock, whatever is answered: it ends,
    // and nothing is eligible when it does.
    method Drain(now: Millis, answers: nat -> Answer, randoms: nat -> real, firstLease: LeaseId)
      returns (dispatched: nat)
      requires cfg.Valid() && TablesOk(View(), cfg.maxAttempts)
      modifies this`jobs, targets
      ensures TablesOk(View(), cfg.maxAttempts)
      ensures forall k :: k in targets.items ==> !Eligible(targets.items[k], now)
      ensures dispatched <= old(Budget(targets.items, cfg.maxAttempts)) - Budget(targets.items, cfg.maxAttempts)
    {
      BudgetNonNegative(View(), cfg.maxAttempts);
      dispatched := 0;
      var n := 1;
      while n != 0
        invariant TablesOk(View(), cfg.maxAttempts)
        invariant 0 <= Budget(targets.items, cfg.maxAttempts)
        invariant dispatched <= old(Budget(targets.items, cfg.maxAttempts)) - Budget(targets.items, cfg.maxAttempts)
        invariant n == 0 ==> forall k :: k in targets.items ==> !Eligible(targets.items[k], now)
        decreases Budget(targets.items, cfg.maxAttempts), n
      {
        ghost var before := View();
        var lease, a, random := firstLease + dispatched, answers(dispatched), randoms(dispatched);
        n := DispatchDeletionTarget(now, lease, a, random, now);
        if n != 0 {
          DispatchSpends(before, cfg, lease, now, a, random, now, View());
          dispatched := dispatched + 1;
        }
      }
    }
  }
}
