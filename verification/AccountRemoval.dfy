// Account removal end to end: the transaction that removes a user also inserts the
// deletion job whose targets the saga's workers then take. A run interleaves the
// handlers' stretches with the workers' claims and settles.
module AccountRemoval {
  import opened Common
  import Auth = Sessions
  import opened DeletionSaga
  import Queues = LeasedQueue

  datatype Site = Site(auth: Auth.State, saga: Saga)

  datatype Event =
    | Handle(step: Auth.Step, now: Millis)
    | Dispatch(work: Queues.Event<Target>)

  // A removal that commits.
  predicate Commits(s: Auth.State, e: Event) { e.Handle? && Auth.Removes(e.step) && Auth.Enabled(s, e.step) }

  // What the event does to the saga's tables; the handlers touch them in removals only.
  function SagaEventOf(s: Auth.State, e: Event): SagaEvent {
    if Commits(s, e) then
      EnqueueJob(e.step.job, e.step.user, if e.step.DeleteSelf? then Self else Initiator.Admin, e.now, e.step.services)
    else
      Work(if e.Dispatch? then e.work else Queues.Enqueue(map[]))
  }

  function SiteDo(s: Site, e: Event, maxAttempts: nat): Site {
    Site(if e.Handle? then Auth.Do(s.auth, e.step) else s.auth,
         SagaDo(s.saga, SagaEventOf(s.auth, e), maxAttempts))
  }

  function SiteRun(js: seq<Event>, maxAttempts: nat): Site {
    if js == [] then Site(Auth.Run([]), SagaRun([], maxAttempts))
    else SiteDo(SiteRun(js[..|js| - 1], maxAttempts), js[|js| - 1], maxAttempts)
  }

  // ---------------------------------------------------------------- both halves are runs of their own

  function Steps(js: seq<Event>): seq<Auth.Step> {
    if js == [] then []
    else Steps(js[..|js| - 1]) + if js[|js| - 1].Handle? then [js[|js| - 1].step] else []
  }

  function SagaEvents(js: seq<Event>, maxAttempts: nat): seq<SagaEvent> {
    if js == [] then []
    else SagaEvents(js[..|js| - 1], maxAttempts)
         + [SagaEventOf(SiteRun(js[..|js| - 1], maxAttempts).auth, js[|js| - 1])]
  }

  lemma {:induction false} HandlersRun(js: seq<Event>, maxAttempts: nat)
    ensures SiteRun(js, maxAttempts).auth == Auth.Run(Steps(js))
  {
    if js != [] {
      var last := js[|js| - 1];
      HandlersRun(js[..|js| - 1], maxAttempts);
      if last.Handle? {
        Auth.RunSnoc(Steps(js[..|js| - 1]), last.step);
      } else {
        assert Steps(js) == Steps(js[..|js| - 1]);
      }
    }
  }

  lemma {:induction false} WorkersRun(js: seq<Event>, maxAttempts: nat)
    ensures SiteRun(js, maxAttempts).saga == SagaRun(SagaEvents(js, maxAttempts), maxAttempts)
  {
    if js != [] {
      var gs := SagaEvents(js[..|js| - 1], maxAttempts);
      var g := SagaEventOf(SiteRun(js[..|js| - 1], maxAttempts).auth, js[|js| - 1]);
      WorkersRun(js[..|js| - 1], maxAttempts);
      assert (gs + [g])[..|gs + [g]| - 1] == gs;
    }
  }

  // ---------------------------------------------------------------- the two halves agree

  ghost predicate JobAgrees(s: Site, job: JobId)
    requires job in s.auth.t.jobs
  {
    Covered(s.saga, job, s.auth.t.jobs[job].user, s.auth.t.jobs[job].services)
  }

  ghost predicate JobsAgree(s: Site) {
    && s.auth.t.jobs.Keys == s.saga.jobs.Keys
    && (forall j :: j in s.auth.t.jobs ==> JobAgrees(s, j))
  }

  lemma HandlerJobs(a: Auth.State, step: Auth.Step)
    ensures Auth.Do(a, step).t.jobs ==
              if Auth.Removes(step) && Auth.Enabled(a, step)
              then a.t.jobs[step.job := Auth.Removal(step.user, step.services)] else a.t.jobs
    ensures Auth.Removes(step) && Auth.Enabled(a, step) ==> step.job !in a.t.jobs
  {
  }

  lemma AgreeStep(s: Site, e: Event, maxAttempts: nat)
    requires JobsAgree(s) && SagaOk(s.saga, maxAttempts)
    ensures JobsAgree(SiteDo(s, e, maxAttempts))
  {
    var s' := SiteDo(s, e, maxAttempts);
    var g := SagaEventOf(s.auth, e);
    if e.Handle? { HandlerJobs(s.auth, e.step); }
    assert s'.auth.t.jobs == if g.EnqueueJob? then s.auth.t.jobs[g.job := Auth.Removal(g.user, g.services)]
                             else s.auth.t.jobs;
    forall j | j in s'.auth.t.jobs ensures JobAgrees(s', j) {
      if j in s.auth.t.jobs {
        assert JobAgrees(s, j);
        CoverStep(s.saga, g, maxAttempts, j, s.auth.t.jobs[j].user, s.auth.t.jobs[j].services);
      } else {
        EnqueueStep(s.saga, g, maxAttempts);
      }
    }
  }

  lemma {:induction false} Agrees(js: seq<Event>, maxAttempts: nat)
    requires 0 < maxAttempts
    ensures JobsAgree(SiteRun(js, maxAttempts))
  {
    if js != [] {
      Agrees(js[..|js| - 1], maxAttempts);
      WorkersRun(js[..|js| - 1], maxAttempts);
      SagaRunOk(SagaEvents(js[..|js| - 1], maxAttempts), maxAttempts);
      AgreeStep(SiteRun(js[..|js| - 1], maxAttempts), js[|js| - 1], maxAttempts);
    }
  }

  // ---------------------------------------------------------------- theorems

  // The event at `i` removed the user.
  predicate RemovedAt(js: seq<Event>, i: nat, maxAttempts: nat, user: UserId) {
    i < |js| && Commits(SiteRun(js[..i], maxAttempts).auth, js[i]) && js[i].step.user == user
  }

  // The job of that removal has exactly one target per service enabled at that moment.
  ghost predicate FollowedUp(s: Site, e: Event)
    requires e.Handle? && Auth.Removes(e.step)
  {
    Covered(s.saga, e.step.job, e.step.user, e.step.services)
  }

  lemma RemovalCovers(s: Site, e: Event, maxAttempts: nat)
    requires JobsAgree(s) && SagaOk(s.saga, maxAttempts) && Commits(s.auth, e)
    ensures FollowedUp(SiteDo(s, e, maxAttempts), e)
  {
    HandlerJobs(s.auth, e.step);
    EnqueueStep(s.saga, SagaEventOf(s.auth, e), maxAttempts);
  }

  // From a removal on, whatever the workers and the handlers do and however the set
  // of enabled services changes, its job has its targets.
  lemma {:induction false} RemovalKeepsTargets(js: seq<Event>, i: nat, maxAttempts: nat, user: UserId)
    requires 0 < maxAttempts && RemovedAt(js, i, maxAttempts, user)
    ensures FollowedUp(SiteRun(js, maxAttempts), js[i])
  {
    var n := |js| - 1;
    var s := SiteRun(js[..n], maxAttempts);
    if i == n {
      Agrees(js[..n], maxAttempts);
      WorkersRun(js[..n], maxAttempts);
      SagaRunOk(SagaEvents(js[..n], maxAttempts), maxAttempts);
      RemovalCovers(s, js[n], maxAttempts);
    } else {
      assert js[..n][..i] == js[..i];
      RemovalKeepsTargets(js[..n], i, maxAttempts, user);
      CoverStep(s.saga, SagaEventOf(s.auth, js[n]), maxAttempts, js[i].step.job, user, js[i].step.services);
    }
  }

  // Everybody who ever registered is still there, or some event removed them and its
  // job has exactly one target per service enabled then.
  lemma {:induction false} EveryRemovalFollowed(js: seq<Event>, maxAttempts: nat, user: UserId)
    requires 0 < maxAttempts && user in SiteRun(js, maxAttempts).auth.registered
    ensures var s := SiteRun(js, maxAttempts);
            || user in s.auth.t.users
            || exists i: nat :: RemovedAt(js, i, maxAttempts, user) && FollowedUp(s, js[i])
  {
    if user !in SiteRun(js, maxAttempts).auth.t.users {
      RemovedSomewhere(js, maxAttempts, user);
      var i: nat :| RemovedAt(js, i, maxAttempts, user);
      RemovalKeepsTargets(js, i, maxAttempts, user);
    }
  }

  lemma {:induction false} RemovedSomewhere(js: seq<Event>, maxAttempts: nat, user: UserId)
    requires var a := SiteRun(js, maxAttempts).auth; user in a.registered && user !in a.t.users
    ensures exists i: nat :: RemovedAt(js, i, maxAttempts, user)
  {
    var n := |js| - 1;
    var a := SiteRun(js[..n], maxAttempts).auth;
    if user in a.registered && user !in a.t.users {
      RemovedSomewhere(js[..n], maxAttempts, user);
      var i: nat :| RemovedAt(js[..n], i, maxAttempts, user);
      assert js[..n][..i] == js[..i];
      assert RemovedAt(js, i, maxAttempts, user);
    } else {
      if js[n].Handle? { Auth.VanishesByRemoval(a, js[n].step, user); }
      assert RemovedAt(js, n, maxAttempts, user);
    }
  }

  predicate Finished(s: Saga, job: JobId) { job in s.jobs && s.jobs[job].status.Completed? }

  // When a removed user's job is completed, every service that was enabled at the
  // removal has answered 2xx to a deletion request for that job.
  lemma {:induction false} CompletedByAnswers(js: seq<Event>, replies: seq<Reply>, i: nat, maxAttempts: nat,
                                              user: UserId, service: Service)
    requires 0 < maxAttempts && RemovedAt(js, i, maxAttempts, user)
    requires Answered(SagaEvents(js, maxAttempts), replies, maxAttempts)
    requires Finished(SiteRun(js, maxAttempts).saga, js[i].step.job)
    requires service in js[i].step.services
    ensures exists n: nat ::
              AcceptedAt(SagaEvents(js, maxAttempts), replies, n, Target(js[i].step.job, service), maxAttempts)
  {
    var gs := SagaEvents(js, maxAttempts);
    var job := js[i].step.job;
    WorkersRun(js, maxAttempts);
    RemovalKeepsTargets(js, i, maxAttempts, user);
    StatusIsFold(gs, maxAttempts, job);
    assert Target(job, service) in SagaRun(gs, maxAttempts).queue.items;
    DeliveredByAnswer(gs, replies, Target(job, service), maxAttempts);
  }
}
