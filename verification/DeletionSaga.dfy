// The deletion saga: one job per removed user, one leased target per enabled
// service, and a job status that folds its targets.
module DeletionSaga {
  import opened Common
  import opened MapSums
  import opened LeasedQueue

  type JobId = nat
  type UserId = nat

  datatype Service = Kuvert | Tafel | Zettel | Glocke | Schrank | Herold
  datatype Target = Target(job: JobId, service: Service)
  datatype Initiator = Self | Admin
  datatype JobStatus = Pending | Running | Completed | Failed

  datatype Job = Job(
    user: UserId,
    initiator: Initiator,
    status: JobStatus,
    createdAt: Millis,
    startedAt: Option<Millis>,
    completedAt: Option<Millis>)

  datatype Tables = Tables(targets: map<Target, Item>, jobs: map<JobId, Job>)

  datatype Config = Config(urls: set<Service>, leaseMs: nat, maxAttempts: nat, baseDelayMs: nat, maxDelayMs: nat) {
    predicate Valid() { 0 < leaseMs && 0 < maxAttempts && 0 < baseDelayMs <= maxDelayMs }
  }

  // ---------------------------------------------------------------- transactions

  function TargetsFor(job: JobId, services: set<Service>, now: Millis): map<Target, Option<Millis>> {
    map s | s in services :: Target(job, s) := Some(now)
  }

  function NewTargets(job: JobId, services: set<Service>, now: Millis): map<Target, Item> {
    map s | s in services :: Target(job, s) := NewItem(Some(now))
  }

  function NewJob(user: UserId, initiator: Initiator, now: Millis, services: set<Service>): Job {
    if services == {} then Job(user, initiator, JobStatus.Completed, now, Some(now), Some(now))
    else Job(user, initiator, JobStatus.Pending, now, None, None)
  }

  function EnqueueIn(t: Tables, job: JobId, user: UserId, initiator: Initiator, now: Millis,
                     services: set<Service>): Tables
  {
    Tables(t.targets + NewTargets(job, services, now), t.jobs[job := NewJob(user, initiator, now, services)])
  }

  function ClaimIn(t: Tables, key: Target, lease: LeaseId, now: Millis, leaseMs: nat): Tables
    requires key in t.targets && key.job in t.jobs
  {
    var j := t.jobs[key.job];
    Tables(t.targets[key := ClaimItem(t.targets[key], lease, now + leaseMs)],
           t.jobs[key.job :=
             j.(status := JobStatus.Running, startedAt := if j.startedAt.Some? then j.startedAt else Some(now))])
  }

  predicate AllDelivered(targets: map<Target, Item>, job: JobId) {
    forall k :: k in targets && k.job == job ==> targets[k].status.Delivered?
  }

  predicate AllTerminal(targets: map<Target, Item>, job: JobId) {
    forall k :: k in targets && k.job == job ==> Terminal(targets[k])
  }

  predicate AllUntouched(targets: map<Target, Item>, job: JobId) {
    forall k :: k in targets && k.job == job ==> Untouched(targets[k])
  }

  // updateJob
  function UpdatedJob(j: Job, targets: map<Target, Item>, job: JobId, now: Millis): Job {
    if AllDelivered(targets, job) then j.(status := JobStatus.Completed, completedAt := Some(now))
    else if AllTerminal(targets, job) then j.(status := JobStatus.Failed, completedAt := Some(now))
    else j
  }

  function SettleIn(t: Tables, h: Holder<Target>, lease: LeaseId, verdict: Verdict, now: Millis,
                    maxAttempts: nat): Tables
    requires h.key in t.targets && h.key.job in t.jobs
  {
    var targets := t.targets[h.key := SettleItem(t.targets[h.key], lease, h.attempts, verdict, now, maxAttempts)];
    Tables(targets, t.jobs[h.key.job := UpdatedJob(t.jobs[h.key.job], targets, h.key.job, now)])
  }

  // ---------------------------------------------------------------- answers and delays

  datatype Answer = Http(status: int) | Broken

  predicate Retryable(status: int) { status == 408 || status == 429 || status >= 500 }

  function Pow2(n: nat): (p: nat)
    ensures 1 <= p
  {
    if n == 0 then 1 else 2 * Pow2(n - 1)
  }

  function Doubled(base: nat, n: nat): nat { base * Pow2(n) }

  // The cap of the jitter: the base doubled for every earlier attempt, up to the maximum.
  function Cap(attempt: nat, base: nat, maximum: nat): nat { Min(maximum, Doubled(base, Max(0, attempt - 1))) }

  // Math.floor(random() * cap)
  function Jitter(random: real, cap: nat): int { (random * cap as real).Floor }

  function Delay(attempt: nat, base: nat, maximum: nat, random: real): int {
    Jitter(random, Cap(attempt, base, maximum))
  }

  lemma Scaled(r: real, x: real)
    requires 0.0 <= r < 1.0 && 0.0 <= x
    ensures 0.0 <= r * x <= x
    ensures 0.0 < x ==> r * x < x
  {
    var rest := 1.0 - r;
    assert 0.0 <= rest * x && (0.0 < x ==> 0.0 < rest * x);
    assert rest * x == x - r * x;
  }

  lemma FloorBounds(y: real, cap: nat)
    requires 0.0 <= y <= cap as real
    ensures 0 <= y.Floor <= cap
    ensures y < cap as real ==> y.Floor < cap
  {
  }

  lemma JitterBounds(random: real, cap: nat)
    requires 0.0 <= random < 1.0
    ensures 0 <= Jitter(random, cap) <= cap
    ensures 0 < cap ==> Jitter(random, cap) < cap
  {
    Scaled(random, cap as real);
    FloorBounds(random * cap as real, cap);
  }

  // Full jitter under an exponential cap: at most the base doubled per earlier
  // attempt, and strictly below the maximum.
  lemma DelayBounds(attempt: nat, base: nat, maximum: nat, random: real)
    requires 0.0 <= random < 1.0
    ensures 0 <= Delay(attempt, base, maximum, random) <= maximum
    ensures 1 <= attempt ==> Delay(attempt, base, maximum, random) <= Doubled(base, attempt - 1)
    ensures 0 < maximum && 0 < base ==> Delay(attempt, base, maximum, random) < maximum
  {
    JitterBounds(random, Cap(attempt, base, maximum));
  }

  // What the dispatch does with an answer; `attempts` counts this attempt.
  function VerdictOf(cfg: Config, s: Service, a: Answer, attempts: nat, completedAt: Millis, random: real): Verdict {
    if s !in cfg.urls then Refused
    else match a
      case Http(status) =>
        if 200 <= status < 300 then Success
        else if !Retryable(status) then Refused
        else Retry(completedAt + Delay(attempts, cfg.baseDelayMs, cfg.maxDelayMs, random))
      case Broken => Retry(completedAt + Delay(attempts, cfg.baseDelayMs, cfg.maxDelayMs, random))
  }

  // The cap starts at the base and doubles with every further attempt, up to the maximum.
  lemma CapDoubles(attempt: nat, base: nat, maximum: nat)
    requires 1 <= attempt
    ensures Cap(1, base, maximum) == Min(maximum, base)
    ensures Cap(attempt + 1, base, maximum) == Min(maximum, 2 * Cap(attempt, base, maximum))
  {
    DoubledTwice(base, attempt - 1);
  }

  lemma DoubledTwice(base: nat, n: nat)
    ensures Doubled(base, n + 1) == 2 * Doubled(base, n)
  {
    assert Pow2(n + 1) == 2 * Pow2(n);
  }

  // The delay is the drawn fraction of the cap, rounded down.
  lemma DelayIsFraction(attempt: nat, base: nat, maximum: nat, random: real)
    ensures var d, share := Delay(attempt, base, maximum, random), random * Cap(attempt, base, maximum) as real;
            d as real <= share < d as real + 1.0
  {
  }

  // Success is reported only for a 2xx answer of a configured service, and every
  // retry falls due between its completion and the maximum delay after it.
  lemma VerdictMeans(cfg: Config, s: Service, a: Answer, attempts: nat, completedAt: Millis, random: real)
    requires 0.0 <= random < 1.0
    ensures var v := VerdictOf(cfg, s, a, attempts, completedAt, random);
            && (v.Success? <==> s in cfg.urls && a.Http? && 200 <= a.status < 300)
            && (v.Retry? ==> completedAt <= v.at <= completedAt + cfg.maxDelayMs)
            && (v.Retry? <==> s in cfg.urls && (a.Broken? || a.status == 408 || a.status == 429 || 500 <= a.status))
            && (v.Retry? ==> v.at - completedAt == Delay(attempts, cfg.baseDelayMs, cfg.maxDelayMs, random))
  {
    DelayBounds(attempts, cfg.baseDelayMs, cfg.maxDelayMs, random);
  }

  // ---------------------------------------------------------------- runs

  datatype Saga = Saga(queue: Queue<Target>, jobs: map<JobId, Job>)

  datatype SagaEvent =
    | EnqueueJob(job: JobId, user: UserId, initiator: Initiator, now: Millis, services: set<Service>)
    | Work(event: Event<Target>)

  // The saga's effect on its queue.
  function QueueEvent(s: Saga, g: SagaEvent): Event<Target> {
    match g
    case EnqueueJob(job, _, _, now, services) =>
      if job in s.jobs then Enqueue(map[]) else Enqueue(TargetsFor(job, services, now))
    case Work(e) => if e.Enqueue? then Enqueue(map[]) else e
  }

  function SagaDo(s: Saga, g: SagaEvent, maxAttempts: nat): Saga {
    var queue := Do(s.queue, QueueEvent(s, g), maxAttempts);
    match g
    case EnqueueJob(job, user, initiator, now, services) =>
      if job in s.jobs then s else Saga(queue, s.jobs[job := NewJob(user, initiator, now, services)])
    case Work(e) =>
      if e.Claim? && Possible(s.queue, e) && e.key.job in s.jobs then
        Saga(queue, ClaimIn(Tables(s.queue.items, s.jobs), e.key, e.lease, e.now, e.leaseMs).jobs)
      else if e.Settle? && Possible(s.queue, e) && s.queue.holders[e.lease].key.job in s.jobs then
        var h := s.queue.holders[e.lease];
        Saga(queue, SettleIn(Tables(s.queue.items, s.jobs), h, e.lease, e.verdict, e.now, maxAttempts).jobs)
      else
        s.(queue := queue)
  }

  function SagaRun(gs: seq<SagaEvent>, maxAttempts: nat): Saga {
    if gs == [] then Saga(Queue(map[], map[], {}), map[])
    else SagaDo(SagaRun(gs[..|gs| - 1], maxAttempts), gs[|gs| - 1], maxAttempts)
  }

  function QueueEvents(gs: seq<SagaEvent>, maxAttempts: nat): seq<Event<Target>> {
    if gs == [] then []
    else QueueEvents(gs[..|gs| - 1], maxAttempts) + [QueueEvent(SagaRun(gs[..|gs| - 1], maxAttempts), gs[|gs| - 1])]
  }

  ghost predicate SagaOk(s: Saga, maxAttempts: nat) {
    && QueueOk(s.queue, maxAttempts)
    && (forall k :: k in s.queue.items ==> k.job in s.jobs)
    && (forall j :: j in s.jobs ==> FoldOk(s.queue.items, j, s.jobs[j]))
  }

  predicate FoldOk(targets: map<Target, Item>, job: JobId, j: Job) {
    j.status == Fold(targets, job)
  }

  // The status the targets deserve.
  function Fold(targets: map<Target, Item>, job: JobId): JobStatus {
    if AllDelivered(targets, job) then JobStatus.Completed
    else if AllTerminal(targets, job) then JobStatus.Failed
    else if AllUntouched(targets, job) then JobStatus.Pending
    else JobStatus.Running
  }

  lemma FoldFrame(targets: map<Target, Item>, targets': map<Target, Item>, job: JobId)
    requires forall k: Target :: k.job == job ==>
               (k in targets <==> k in targets') && (k in targets ==> targets'[k] == targets[k])
    ensures Fold(targets', job) == Fold(targets, job)
  {
  }

  lemma EnqueueFold(s: Saga, g: SagaEvent, maxAttempts: nat)
    requires SagaOk(s, maxAttempts) && 0 < maxAttempts && g.EnqueueJob?
    ensures SagaOk(SagaDo(s, g, maxAttempts), maxAttempts)
  {
    if g.job !in s.jobs {
      var s' := SagaDo(s, g, maxAttempts);
      var due := TargetsFor(g.job, g.services, g.now);
      assert due.Keys !! s.queue.items.Keys;
      EnqueuedQueue(s.queue, due, maxAttempts);
      forall j | j in s'.jobs ensures FoldOk(s'.queue.items, j, s'.jobs[j]) {
        if j != g.job {
          FoldFrame(s.queue.items, s'.queue.items, j);
        } else {
          FreshFold(s'.queue.items, g.job, g.services, g.now);
        }
      }
    }
  }

  lemma EnqueuedQueue(q: Queue<Target>, due: map<Target, Option<Millis>>, maxAttempts: nat)
    requires QueueOk(q, maxAttempts) && 0 < maxAttempts && due.Keys !! q.items.Keys
    ensures QueueOk(Do(q, Enqueue(due), maxAttempts), maxAttempts)
  {
  }

  lemma FreshFold(targets: map<Target, Item>, job: JobId, services: set<Service>, now: Millis)
    requires forall k: Target :: k.job == job ==> (k in targets <==> k.service in services)
    requires forall s :: s in services ==> targets[Target(job, s)] == NewItem(Some(now))
    ensures Fold(targets, job) == NewJob(0, Self, now, services).status
  {
  }

  lemma ClaimFold(s: Saga, e: Event<Target>, maxAttempts: nat)
    requires SagaOk(s, maxAttempts) && 0 < maxAttempts && e.Claim? && Possible(s.queue, e)
    ensures SagaOk(SagaDo(s, Work(e), maxAttempts), maxAttempts)
  {
    var s' := SagaDo(s, Work(e), maxAttempts);
    DoOk(s.queue, e, maxAttempts);
    forall j | j in s'.jobs ensures FoldOk(s'.queue.items, j, s'.jobs[j]) {
      if j != e.key.job {
        FoldFrame(s.queue.items, s'.queue.items, j);
      } else {
        assert s'.queue.items[e.key].status.Inflight?;
      }
    }
  }

  lemma SettledFold(targets: map<Target, Item>, j: Job, h: Holder<Target>, lease: LeaseId, verdict: Verdict,
                    now: Millis, maxAttempts: nat)
    requires h.key in targets && FoldOk(targets, h.key.job, j)
    ensures var targets' := targets[h.key := SettleItem(targets[h.key], lease, h.attempts, verdict, now, maxAttempts)];
            FoldOk(targets', h.key.job, UpdatedJob(j, targets', h.key.job, now))
  {
  }

  // A settle, early or late, leaves the job on the fold of its targets.
  lemma SettleFold(s: Saga, e: Event<Target>, maxAttempts: nat)
    requires SagaOk(s, maxAttempts) && 0 < maxAttempts && e.Settle? && Possible(s.queue, e)
    ensures SagaOk(SagaDo(s, Work(e), maxAttempts), maxAttempts)
  {
    var h := s.queue.holders[e.lease];
    var s' := SagaDo(s, Work(e), maxAttempts);
    DoOk(s.queue, e, maxAttempts);
    assert s'.queue.items ==
        s.queue.items[h.key := SettleItem(s.queue.items[h.key], e.lease, h.attempts, e.verdict, e.now, maxAttempts)];
    SettledFold(s.queue.items, s.jobs[h.key.job], h, e.lease, e.verdict, e.now, maxAttempts);
    forall j | j in s'.jobs ensures FoldOk(s'.queue.items, j, s'.jobs[j]) {
      if j != h.key.job { FoldFrame(s.queue.items, s'.queue.items, j); }
    }
  }

  lemma SagaDoOk(s: Saga, g: SagaEvent, maxAttempts: nat)
    requires SagaOk(s, maxAttempts) && 0 < maxAttempts
    ensures SagaOk(SagaDo(s, g, maxAttempts), maxAttempts)
  {
    match g
    case EnqueueJob(_, _, _, _, _) => EnqueueFold(s, g, maxAttempts);
    case Work(e) =>
      if e.Claim? && Possible(s.queue, e) {
        ClaimFold(s, e, maxAttempts);
      } else if e.Settle? && Possible(s.queue, e) {
        SettleFold(s, e, maxAttempts);
      } else {
        DoOk(s.queue, QueueEvent(s, g), maxAttempts);
        assert Do(s.queue, QueueEvent(s, g), maxAttempts).items == s.queue.items;
      }
  }

  lemma {:induction false} SagaRunOk(gs: seq<SagaEvent>, maxAttempts: nat)
    requires 0 < maxAttempts
    ensures SagaOk(SagaRun(gs, maxAttempts), maxAttempts)
  {
    if gs != [] {
      SagaRunOk(gs[..|gs| - 1], maxAttempts);
      SagaDoOk(SagaRun(gs[..|gs| - 1], maxAttempts), gs[|gs| - 1], maxAttempts);
    }
  }

  lemma QueueStep(s: Saga, g: SagaEvent, maxAttempts: nat)
    ensures SagaDo(s, g, maxAttempts).queue == Do(s.queue, QueueEvent(s, g), maxAttempts)
  {
    assert s.queue.items + map[] == s.queue.items;
  }

  // The saga's targets are a leased queue: every theorem about queues holds of them.
  lemma {:induction false} SagaIsQueue(gs: seq<SagaEvent>, maxAttempts: nat)
    ensures SagaRun(gs, maxAttempts).queue == Run(QueueEvents(gs, maxAttempts), maxAttempts)
    ensures |QueueEvents(gs, maxAttempts)| == |gs|
  {
    if gs != [] {
      var prior, g := SagaRun(gs[..|gs| - 1], maxAttempts), gs[|gs| - 1];
      var es := QueueEvents(gs[..|gs| - 1], maxAttempts);
      SagaIsQueue(gs[..|gs| - 1], maxAttempts);
      QueueStep(prior, g, maxAttempts);
      assert (es + [QueueEvent(prior, g)])[..|es|] == es;
    }
  }

  predicate AnyPermanent(targets: map<Target, Item>, job: JobId) {
    exists k :: k in targets && k.job == job && targets[k].status.Permanent?
  }

  predicate AnyTarget(targets: map<Target, Item>, job: JobId) { exists k :: k in targets && k.job == job }

  predicate NeverClaimed(gs: seq<SagaEvent>, maxAttempts: nat, targets: map<Target, Item>, job: JobId) {
    forall k :: k in targets && k.job == job ==> ClaimCount(QueueEvents(gs, maxAttempts), k, maxAttempts) == 0
  }

  // A job's status is the fold of its targets in every run: with any number of
  // workers, lost leases, deaths and late settles.
  lemma {:induction false} StatusIsFold(gs: seq<SagaEvent>, maxAttempts: nat, job: JobId)
    requires 0 < maxAttempts && job in SagaRun(gs, maxAttempts).jobs
    ensures var s := SagaRun(gs, maxAttempts);
            var targets, status := s.queue.items, s.jobs[job].status;
            && (status.Completed? <==> AllDelivered(targets, job))
            && (status.Failed? <==> AllTerminal(targets, job) && AnyPermanent(targets, job))
            && (status.Pending? <==> AnyTarget(targets, job) && NeverClaimed(gs, maxAttempts, targets, job))
  {
    var s := SagaRun(gs, maxAttempts);
    SagaRunOk(gs, maxAttempts);
    SagaIsQueue(gs, maxAttempts);
    assert FoldOk(s.queue.items, job, s.jobs[job]);
    forall k | k in s.queue.items && k.job == job
      ensures Untouched(s.queue.items[k]) <==> ClaimCount(QueueEvents(gs, maxAttempts), k, maxAttempts) == 0
    {
      UntouchedExactly(QueueEvents(gs, maxAttempts), k, maxAttempts);
    }
    if AllTerminal(s.queue.items, job) && !AllDelivered(s.queue.items, job) {
      var k :| k in s.queue.items && k.job == job && !s.queue.items[k].status.Delivered?;
      assert Terminal(s.queue.items[k]);
    }
  }

  // Each of its targets is due at once.
  lemma EnqueuedAreDue(s: Saga, g: SagaEvent, maxAttempts: nat, service: Service)
    requires SagaOk(s, maxAttempts) && g.EnqueueJob? && g.job !in s.jobs && service in g.services
    ensures var q, k := SagaDo(s, g, maxAttempts).queue, Target(g.job, service);
            && k in q.items
            && (forall l, now, ms :: l !in q.leases ==> (Possible(q, Claim(l, k, now, ms)) <==> g.now <= now))
  {
    assert TargetsFor(g.job, g.services, g.now).Keys !! s.queue.items.Keys;
    assert Target(g.job, service) in TargetsFor(g.job, g.services, g.now);
  }

  // The job is the user's and has exactly one target per service.
  ghost predicate Covered(s: Saga, job: JobId, user: UserId, services: set<Service>) {
    && job in s.jobs && s.jobs[job].user == user
    && (forall k: Target :: k.job == job ==> (k in s.queue.items <==> k.service in services))
  }

  lemma EnqueueStep(s: Saga, g: SagaEvent, maxAttempts: nat)
    requires SagaOk(s, maxAttempts) && g.EnqueueJob? && g.job !in s.jobs
    ensures Covered(SagaDo(s, g, maxAttempts), g.job, g.user, g.services)
  {
  }

  lemma CoverStep(s: Saga, g: SagaEvent, maxAttempts: nat, job: JobId, user: UserId, services: set<Service>)
    requires Covered(s, job, user, services)
    ensures Covered(SagaDo(s, g, maxAttempts), job, user, services)
  {
  }

  lemma {:induction false} CoverKept(gs: seq<SagaEvent>, more: seq<SagaEvent>, maxAttempts: nat,
                                     job: JobId, user: UserId, services: set<Service>)
    requires Covered(SagaRun(gs, maxAttempts), job, user, services)
    ensures Covered(SagaRun(gs + more, maxAttempts), job, user, services)
  {
    if more == [] {
      assert gs + more == gs;
    } else {
      var all := gs + more;
      CoverKept(gs, more[..|more| - 1], maxAttempts, job, user, services);
      assert all[..|all| - 1] == gs + more[..|more| - 1] && all[|all| - 1] == more[|more| - 1];
      CoverStep(SagaRun(gs + more[..|more| - 1], maxAttempts), more[|more| - 1], maxAttempts, job, user, services);
    }
  }

  // A removed user's job has exactly one target per enabled service, from its
  // transaction on.
  lemma {:induction false} EnqueueCovers(gs: seq<SagaEvent>, more: seq<SagaEvent>, maxAttempts: nat, job: JobId,
                                         user: UserId, initiator: Initiator, now: Millis, services: set<Service>)
    requires 0 < maxAttempts && job !in SagaRun(gs, maxAttempts).jobs
    ensures Covered(SagaRun(gs + [EnqueueJob(job, user, initiator, now, services)] + more, maxAttempts),
                    job, user, services)
  {
    var g := EnqueueJob(job, user, initiator, now, services);
    var hs := gs + [g];
    assert hs[..|hs| - 1] == gs && hs[|hs| - 1] == g;
    SagaRunOk(gs, maxAttempts);
    EnqueueStep(SagaRun(gs, maxAttempts), g, maxAttempts);
    CoverKept(hs, more, maxAttempts, job, user, services);
  }

  // ---------------------------------------------------------------- what delivered rests on

  // What a settle's worker had: its configuration, the service's answer, and the draw
  // of its jitter.
  datatype Reply = Reply(cfg: Config, answer: Answer, random: real)

  predicate AnsweredAt(s: Saga, g: SagaEvent, r: Reply) {
    g.Work? && g.event.Settle? && Possible(s.queue, g.event) ==>
      var h := s.queue.holders[g.event.lease];
      g.event.verdict == VerdictOf(r.cfg, h.key.service, r.answer, h.attempts + 1, g.event.now, r.random)
  }

  // Every settle of the run decides by the answer its own attempt got.
  ghost predicate Answered(gs: seq<SagaEvent>, replies: seq<Reply>, maxAttempts: nat) {
    && |replies| == |gs|
    && (forall i :: 0 <= i < |gs| ==> AnsweredAt(SagaRun(gs[..i], maxAttempts), gs[i], replies[i]))
  }

  // The service was configured and answered 2xx to the attempt that delivered its target.
  ghost predicate AcceptedAt(gs: seq<SagaEvent>, replies: seq<Reply>, i: nat, k: Target, maxAttempts: nat)
    requires |replies| == |gs|
  {
    && i < |gs| && DeliveryAt(QueueEvents(gs, maxAttempts), i, k, maxAttempts)
    && k.service in replies[i].cfg.urls && replies[i].answer.Http? && 200 <= replies[i].answer.status < 300
  }

  lemma {:induction false} QueueEventsAt(gs: seq<SagaEvent>, i: nat, maxAttempts: nat)
    requires i < |gs|
    ensures |QueueEvents(gs, maxAttempts)| == |gs|
    ensures QueueEvents(gs, maxAttempts)[..i] == QueueEvents(gs[..i], maxAttempts)
    ensures QueueEvents(gs, maxAttempts)[i] == QueueEvent(SagaRun(gs[..i], maxAttempts), gs[i])
  {
    var n := |gs| - 1;
    SagaIsQueue(gs[..n], maxAttempts);
    if i < n {
      QueueEventsAt(gs[..n], i, maxAttempts);
      assert gs[..n][..i] == gs[..i];
    }
  }

  lemma {:induction false} DeliverySeen(gs: seq<SagaEvent>, i: nat, k: Target, maxAttempts: nat)
    requires DeliveryAt(QueueEvents(gs, maxAttempts), i, k, maxAttempts)
    ensures i < |gs| && gs[i].Work? && Delivers(SagaRun(gs[..i], maxAttempts).queue, gs[i].event, k)
  {
    SagaIsQueue(gs, maxAttempts);
    QueueEventsAt(gs, i, maxAttempts);
    SagaIsQueue(gs[..i], maxAttempts);
  }

  // A delivered target was accepted by its service in the run.
  lemma {:induction false} DeliveredByAnswer(gs: seq<SagaEvent>, replies: seq<Reply>, k: Target, maxAttempts: nat)
    requires Answered(gs, replies, maxAttempts)
    requires k in SagaRun(gs, maxAttempts).queue.items
    requires SagaRun(gs, maxAttempts).queue.items[k].status.Delivered?
    ensures exists i: nat :: AcceptedAt(gs, replies, i, k, maxAttempts)
  {
    var es := QueueEvents(gs, maxAttempts);
    SagaIsQueue(gs, maxAttempts);
    DeliveredBySuccess(es, k, maxAttempts);
    var i: nat :| DeliveryAt(es, i, k, maxAttempts);
    DeliverySeen(gs, i, k, maxAttempts);
    assert AnsweredAt(SagaRun(gs[..i], maxAttempts), gs[i], replies[i]);
    assert AcceptedAt(gs, replies, i, k, maxAttempts);
  }

  // ---------------------------------------------------------------- what giving up rests on

  // The attempt whose settle closed the target for good: nothing was configured, the
  // answer was neither a success nor worth a retry, or it was the last attempt.
  ghost predicate GivenUpAt(gs: seq<SagaEvent>, replies: seq<Reply>, i: nat, k: Target, maxAttempts: nat)
    requires |replies| == |gs|
  {
    && i < |gs| && ClosedAt(QueueEvents(gs, maxAttempts), i, k, maxAttempts)
    && gs[i].Work? && gs[i].event.Settle?
    && var a, holders := replies[i].answer, SagaRun(gs[..i], maxAttempts).queue.holders;
       && gs[i].event.lease in holders
       && (|| k.service !in replies[i].cfg.urls
           || (a.Http? && !(200 <= a.status < 300) && a.status != 408 && a.status != 429 && a.status < 500)
           || maxAttempts <= holders[gs[i].event.lease].attempts + 1)
  }

  lemma {:induction false} ClosingSeen(gs: seq<SagaEvent>, i: nat, k: Target, maxAttempts: nat)
    requires ClosedAt(QueueEvents(gs, maxAttempts), i, k, maxAttempts)
    ensures i < |gs| && gs[i].Work? && Closes(SagaRun(gs[..i], maxAttempts).queue, gs[i].event, k, maxAttempts)
  {
    SagaIsQueue(gs, maxAttempts);
    QueueEventsAt(gs, i, maxAttempts);
    SagaIsQueue(gs[..i], maxAttempts);
  }

  // No target is given up while its service might still accept: a permanent one was
  // closed by such an attempt of the run.
  lemma {:induction false} GivenUpByAnswer(gs: seq<SagaEvent>, replies: seq<Reply>, k: Target, maxAttempts: nat)
    requires Answered(gs, replies, maxAttempts)
    requires k in SagaRun(gs, maxAttempts).queue.items
    requires SagaRun(gs, maxAttempts).queue.items[k].status.Permanent?
    ensures exists i: nat :: GivenUpAt(gs, replies, i, k, maxAttempts)
  {
    var es := QueueEvents(gs, maxAttempts);
    SagaIsQueue(gs, maxAttempts);
    PermanentBecause(es, k, maxAttempts);
    var i: nat :| ClosedAt(es, i, k, maxAttempts);
    ClosingSeen(gs, i, k, maxAttempts);
    assert AnsweredAt(SagaRun(gs[..i], maxAttempts), gs[i], replies[i]);
    assert GivenUpAt(gs, replies, i, k, maxAttempts);
  }

  // ---------------------------------------------------------------- the job's times

  predicate Started(s: Saga, job: JobId, at: Millis) { job in s.jobs && s.jobs[job].startedAt == Some(at) }

  lemma StartedStep(s: Saga, g: SagaEvent, maxAttempts: nat, job: JobId, at: Millis)
    requires Started(s, job, at)
    ensures Started(SagaDo(s, g, maxAttempts), job, at)
  {
  }

  // A job is started once, and no later claim or settle moves that time.
  lemma {:induction false} StartedOnce(gs: seq<SagaEvent>, more: seq<SagaEvent>, maxAttempts: nat, job: JobId,
                                       at: Millis)
    requires Started(SagaRun(gs, maxAttempts), job, at)
    ensures Started(SagaRun(gs + more, maxAttempts), job, at)
  {
    if more == [] {
      assert gs + more == gs;
    } else {
      var all := gs + more;
      StartedOnce(gs, more[..|more| - 1], maxAttempts, job, at);
      assert all[..|all| - 1] == gs + more[..|more| - 1] && all[|all| - 1] == more[|more| - 1];
      StartedStep(SagaRun(gs + more[..|more| - 1], maxAttempts), more[|more| - 1], maxAttempts, job, at);
    }
  }

  // Its first claim starts it.
  lemma FirstClaimStarts(s: Saga, e: Event<Target>, maxAttempts: nat)
    requires e.Claim? && Possible(s.queue, e) && e.key.job in s.jobs
    ensures var j, j' := s.jobs[e.key.job], SagaDo(s, Work(e), maxAttempts).jobs[e.key.job];
            j'.startedAt == if j.startedAt.None? then Some(e.now) else j.startedAt
  {
  }

  // The settle that closes the last open target ends the job at its time.
  lemma LastSettleEnds(s: Saga, e: Event<Target>, maxAttempts: nat)
    requires SagaOk(s, maxAttempts) && 0 < maxAttempts && e.Settle? && Possible(s.queue, e)
    ensures var job := s.queue.holders[e.lease].key.job;
            var s' := SagaDo(s, Work(e), maxAttempts);
            && job in s.jobs && job in s'.jobs
            && ((forall k :: k in s'.queue.items && k.job == job ==>
                   s'.queue.items[k].status.Delivered? || s'.queue.items[k].status.Permanent?) ==>
                 s'.jobs[job].completedAt == Some(e.now))
  {
    assert HolderOk(s.queue, e.lease);
    var job := s.queue.holders[e.lease].key.job;
    var s' := SagaDo(s, Work(e), maxAttempts);
    if forall k :: k in s'.queue.items && k.job == job ==>
         s'.queue.items[k].status.Delivered? || s'.queue.items[k].status.Permanent? {
      assert AllTerminal(s'.queue.items, job);
    }
  }
}
