// The notification outbox: events written by the auth transactions, delivered to
// Glocke by leased dispatches. Signing, the envelope schema and the response
// classifier belong to a library that is not part of this model; they appear as
// an arbitrary validity flag, an arbitrary class, an arbitrary Retry-After and an
// arbitrary backoff within the maximum delay it is given.
module Outbox {
  import opened Common
  import opened LeasedQueue
  import opened QueueTable

  type EventId = nat

  const MAX_SAFE_INTEGER: int := 0x1F_FFFF_FFFF_FFFF

  // The last instant a Date can hold.
  const MAX_TIME: Millis := 8_640_000_000_000_000
  const MAX_TIMER_VALUE: int := 0x7FFF_FFFF

  predicate PositiveInteger(n: int) { 0 < n <= MAX_TIMER_VALUE }

  datatype Config = Config(leaseMs: int, fetchTimeoutMs: int, maxAttempts: int, baseDelayMs: int, maxDelayMs: int) {
    // What a dispatch refuses to start without.
    predicate Valid() {
      && PositiveInteger(leaseMs) && PositiveInteger(fetchTimeoutMs) && PositiveInteger(maxAttempts)
      && PositiveInteger(baseDelayMs) && PositiveInteger(maxDelayMs)
      && fetchTimeoutMs < leaseMs
    }
  }

  datatype Class = Delivered2xx | Rejected | Transient
  datatype Reply = Response(kind: Class, retryAfter: Option<nat>) | Threw

  // Due time after a response, kept representable.
  function DueAfter(completedAt: Millis, delay: nat): Millis {
    completedAt + Min(delay, MAX_SAFE_INTEGER - completedAt)
  }

  function OutboxVerdict(valid: bool, reply: Reply, backoff: nat, completedAt: Millis): Verdict {
    if !valid then Refused
    else match reply
      case Response(Delivered2xx, _) => Success
      case Response(Rejected, _) => Refused
      case Response(Transient, retryAfter) =>
        Retry(DueAfter(completedAt, if retryAfter.Some? then retryAfter.value else backoff))
      case Threw => Retry(completedAt + backoff)
  }

  // What the worker of a settle had in hand; the configuration may differ by dispatch.
  datatype Attempt = Attempt(cfg: Config, valid: bool, reply: Reply, backoff: nat)

  predicate Bounded(a: Attempt) { a.cfg.Valid() && a.backoff <= a.cfg.maxDelayMs }

  function VerdictOf(a: Attempt, completedAt: Millis): Verdict {
    OutboxVerdict(a.valid, a.reply, a.backoff, completedAt)
  }

  // Delivered exactly on success of a valid event, retried exactly after a transient
  // answer or a thrown request. A retry is never early and always at a representable
  // time; without a Retry-After it is due within the maximum delay, and with one
  // exactly then or at the last representable time.
  lemma OutboxVerdictMeans(a: Attempt, completedAt: Millis)
    requires Bounded(a) && completedAt <= MAX_TIME
    ensures var v := VerdictOf(a, completedAt);
            && (v.Success? <==> a.valid && a.reply.Response? && a.reply.kind.Delivered2xx?)
            && (v.Retry? <==> a.valid && (a.reply.Threw? || a.reply.kind.Transient?))
            && (v.Retry? ==> completedAt <= v.at <= MAX_SAFE_INTEGER)
            && (v.Retry? && (a.reply.Threw? || a.reply.retryAfter.None?) ==> v.at <= completedAt + a.cfg.maxDelayMs)
            && (v.Retry? && a.reply.Response? && a.reply.retryAfter.Some? ==>
                  v.at == Min(completedAt + a.reply.retryAfter.value, MAX_SAFE_INTEGER))
  {
  }

  // ---------------------------------------------------------------- runs of the outbox

  predicate DecidesBy(q: Queue<EventId>, e: LeasedQueue.Event<EventId>, a: Attempt) {
    e.Settle? && Possible(q, e) ==> e.verdict == VerdictOf(a, e.now)
  }

  // Every settle of the run decides by its own attempt.
  ghost predicate Decided(es: seq<LeasedQueue.Event<EventId>>, attempts: seq<Attempt>, maxAttempts: nat) {
    && |attempts| == |es|
    && (forall i :: 0 <= i < |es| ==> DecidesBy(Run(es[..i], maxAttempts), es[i], attempts[i]))
  }

  // Clock readings are Dates, leases are valid timer values, and producers store the
  // time of their transaction.
  predicate Clocked(e: LeasedQueue.Event<EventId>) {
    match e
    case Enqueue(due) => forall k :: k in due && due[k].Some? ==> due[k].value <= MAX_TIME
    case Claim(_, _, now, leaseMs) => now <= MAX_TIME && leaseMs <= MAX_TIMER_VALUE
    case Settle(_, _, now) => now <= MAX_TIME
    case Vanish(_) => true
  }

  predicate Fits(at: Option<Millis>) { at.Some? ==> at.value <= MAX_SAFE_INTEGER }

  predicate TimesFit(it: Item) { Fits(it.nextAttemptAt) && Fits(it.leaseUntil) && Fits(it.deliveredAt) }

  lemma TimesFitStep(q: Queue<EventId>, e: LeasedQueue.Event<EventId>, a: Attempt, maxAttempts: nat)
    requires forall k :: k in q.items ==> TimesFit(q.items[k])
    requires Clocked(e) && DecidesBy(q, e, a) && Bounded(a)
    ensures forall k :: k in Do(q, e, maxAttempts).items ==> TimesFit(Do(q, e, maxAttempts).items[k])
  {
    if e.Settle? { OutboxVerdictMeans(a, e.now); }
  }

  // In every run, whatever is answered or thrown, every time stored in the outbox is
  // a safe integer, so `next_attempt_at <= now` compares what was meant.
  lemma {:induction false} TimesAlwaysFit(es: seq<LeasedQueue.Event<EventId>>, attempts: seq<Attempt>,
                                          maxAttempts: nat, k: EventId)
    requires Decided(es, attempts, maxAttempts)
    requires forall i :: 0 <= i < |es| ==> Clocked(es[i]) && Bounded(attempts[i])
    ensures k in Run(es, maxAttempts).items ==> TimesFit(Run(es, maxAttempts).items[k])
  {
    if es != [] {
      var n := |es| - 1;
      assert Decided(es[..n], attempts[..n], maxAttempts) by {
        forall i | 0 <= i < n ensures DecidesBy(Run(es[..n][..i], maxAttempts), es[..n][i], attempts[..n][i]) {
          assert es[..n][..i] == es[..i];
        }
      }
      forall j | j in Run(es[..n], maxAttempts).items ensures TimesFit(Run(es[..n], maxAttempts).items[j]) {
        TimesAlwaysFit(es[..n], attempts[..n], maxAttempts, j);
      }
      TimesFitStep(Run(es[..n], maxAttempts), es[n], attempts[n], maxAttempts);
    }
  }

  // A delivered event was valid and got a success response in the run.
  lemma {:induction false} DeliveredByResponse(es: seq<LeasedQueue.Event<EventId>>, attempts: seq<Attempt>,
                                               maxAttempts: nat, k: EventId)
    requires Decided(es, attempts, maxAttempts)
    requires k in Run(es, maxAttempts).items && Run(es, maxAttempts).items[k].status.Delivered?
    ensures exists i: nat ::
              && DeliveryAt(es, i, k, maxAttempts)
              && attempts[i].valid && attempts[i].reply.Response? && attempts[i].reply.kind.Delivered2xx?
  {
    DeliveredBySuccess(es, k, maxAttempts);
    var i: nat :| DeliveryAt(es, i, k, maxAttempts);
    assert DecidesBy(Run(es[..i], maxAttempts), es[i], attempts[i]);
  }

  // The attempt whose settle closed the event for good: it was invalid or rejected, or
  // this was its last attempt.
  predicate GivenUpAt(es: seq<LeasedQueue.Event<EventId>>, attempts: seq<Attempt>, i: nat, k: EventId, maxAttempts: nat)
    requires |attempts| == |es|
  {
    && ClosedAt(es, i, k, maxAttempts)
    && var a, holders := attempts[i], Run(es[..i], maxAttempts).holders;
       || !a.valid
       || (a.reply.Response? && a.reply.kind.Rejected?)
       || maxAttempts <= holders[es[i].lease].attempts + 1
  }

  // No event is given up while Glocke might still accept it.
  lemma {:induction false} GivenUpByResponse(es: seq<LeasedQueue.Event<EventId>>, attempts: seq<Attempt>,
                                             maxAttempts: nat, k: EventId)
    requires Decided(es, attempts, maxAttempts)
    requires k in Run(es, maxAttempts).items && Run(es, maxAttempts).items[k].status.Permanent?
    ensures exists i: nat :: GivenUpAt(es, attempts, i, k, maxAttempts)
  {
    PermanentBecause(es, k, maxAttempts);
    var i: nat :| ClosedAt(es, i, k, maxAttempts);
    assert DecidesBy(Run(es[..i], maxAttempts), es[i], attempts[i]);
    assert GivenUpAt(es, attempts, i, k, maxAttempts);
  }

  datatype Event = Event(kind: string, user: nat, createdAt: Millis)

  class Dispatcher {
    const queue: Table<EventId>
    var rows: map<EventId, Event>

    constructor ()
      ensures fresh(queue) && rows == map[] && queue.items == map[]
    {
      queue := new Table();
      rows := map[];
    }

    // The producers' INSERT: pending, no attempts, due at the time of the transaction.
    method Insert(id: EventId, event: Event, now: Millis)
      requires id !in rows && id !in queue.items
      modifies this`rows, queue
      ensures rows == old(rows)[id := event] && queue.items == old(queue.items)[id := NewItem(Some(now))]
    {
      rows := rows[id := event];
      queue.Insert(id, Some(now));
    }

    // One dispatch; None is the error thrown for an invalid configuration, before
    // anything is claimed. With nothing eligible nothing changes; otherwise the oldest
    // eligible event, by creation time and then id, has had one attempt.
    method DispatchOutboxBatch(cfg: Config, now: Millis, lease: LeaseId, valid: bool, reply: Reply, backoff: nat,
                               doneAt: Millis)
      returns (n: Option<nat>, picked: Option<EventId>)
      requires forall k :: k in queue.items ==> k in rows
      modifies queue
      ensures n.None? <==> !cfg.Valid()
      ensures n.None? ==> picked.None? && queue.items == old(queue.items)
      ensures n.Some? ==> n.value == if picked.Some? then 1 else 0
      ensures n.Some? && picked.None? ==>
                queue.items == old(queue.items) && forall k :: k in queue.items ==> !Eligible(queue.items[k], now)
      ensures picked.Some? ==>
        && picked.value in old(queue.items) && Eligible(old(queue.items)[picked.value], now)
        && (forall k :: k in old(queue.items) && k != picked.value && Eligible(old(queue.items)[k], now) ==>
              || rows[picked.value].createdAt < rows[k].createdAt
              || (rows[picked.value].createdAt == rows[k].createdAt && picked.value < k))
        && queue.items == old(queue.items)[picked.value :=
             TurnItem(old(queue.items)[picked.value], OutboxVerdict(valid, reply, backoff, doneAt), doneAt,
                      cfg.maxAttempts)]
    {
      if !cfg.Valid() { return None, None; }
      var created := rows;
      var rank := (k: EventId, it: Item) => Rank(if k in created then created[k].createdAt else 0, k, 0, 0);
      var claimed := queue.Claim(now, lease, cfg.leaseMs, rank);
      if claimed.None? { return Some(0), None; }
      var h := claimed.value;
      ghost var before := old(queue.items)[h.key];
      assert forall k :: k in old(queue.items) && Eligible(old(queue.items)[k], now) ==>
          !Before(rank(k, old(queue.items)[k]), rank(h.key, before));
      var verdict: Verdict;
      if !valid {
        verdict := Refused;
      } else {
        match reply {
          case Response(kind, retryAfter) =>
            if kind.Delivered2xx? {
              verdict := Success;
            } else if kind.Rejected? {
              verdict := Refused;
            } else {
              var delay := if retryAfter.Some? then retryAfter.value else backoff;
              verdict := Retry(DueAfter(doneAt, delay));
            }
          case Threw =>
            verdict := Retry(doneAt + backoff);
        }
      }
      queue.SettleAttempt(h, lease, verdict, doneAt, cfg.maxAttempts);
      assert queue.items == old(queue.items)[h.key := queue.items[h.key]];
      return Some(1), Some(h.key);
    }
  }
}
