// Durable work taken by lease: claim, one attempt, fenced settle. The deletion
// saga's targets and the notification outbox are both such queues. Any number of
// dispatches interleave, die between claim and settle, or settle long after their
// lease has been taken over.
module LeasedQueue {
  import opened Common

  type LeaseId = nat

  datatype Status = Pending | Inflight | Delivered | Permanent

  // The queue columns of a row.
  datatype Item = Item(
    status: Status,
    attempts: nat,
    nextAttemptAt: Option<Millis>,
    leaseId: Option<LeaseId>,
    leaseUntil: Option<Millis>,
    deliveredAt: Option<Millis>)

  // What an attempt came to; Retry carries the time the next attempt is due.
  datatype Verdict = Success | Refused | Retry(at: Millis)

  // A dispatch between its claim and its settle: the row it read.
  datatype Holder<K> = Holder(key: K, attempts: nat)

  datatype Queue<!K> = Queue(items: map<K, Item>, holders: map<LeaseId, Holder<K>>, leases: set<LeaseId>)

  datatype Event<K> =
    | Enqueue(due: map<K, Option<Millis>>)
    | Claim(lease: LeaseId, key: K, now: Millis, leaseMs: nat)
    | Settle(lease: LeaseId, verdict: Verdict, now: Millis)
    | Vanish(lease: LeaseId)

  predicate Terminal(it: Item) { it.status.Delivered? || it.status.Permanent? }

  predicate Due(at: Option<Millis>, now: Millis) { at.None? || at.value <= now }

  predicate Eligible(it: Item, now: Millis) {
    || (it.status.Pending? && Due(it.nextAttemptAt, now))
    || (it.status.Inflight? && Due(it.leaseUntil, now))
  }

  function NewItem(due: Option<Millis>): Item { Item(Status.Pending, 0, due, None, None, None) }

  function ClaimItem(it: Item, lease: LeaseId, until: Millis): Item {
    it.(status := Status.Inflight, leaseId := Some(lease), leaseUntil := Some(until))
  }

  // The values a dispatch writes, from the attempt count it read at its claim.
  function Settled(it: Item, read: nat, verdict: Verdict, now: Millis, maxAttempts: nat): Item {
    var attempts := read + 1;
    if verdict.Success? then Item(Status.Delivered, attempts, None, None, None, Some(now))
    else if verdict.Refused? || attempts >= maxAttempts
        then Item(Status.Permanent, attempts, None, None, None, it.deliveredAt)
    else Item(Status.Pending, attempts, Some(verdict.at), None, None, it.deliveredAt)
  }

  predicate Held(it: Item, lease: LeaseId) { it.status.Inflight? && it.leaseId == Some(lease) }

  function SettleItem(it: Item, lease: LeaseId, read: nat, verdict: Verdict, now: Millis, maxAttempts: nat): Item {
    if Held(it, lease) then Settled(it, read, verdict, now, maxAttempts) else it
  }

  predicate Possible<K>(q: Queue<K>, e: Event<K>) {
    match e
    case Enqueue(due) => due.Keys !! q.items.Keys
    case Claim(lease, key, now, _) => lease !in q.leases && key in q.items && Eligible(q.items[key], now)
    case Settle(lease, _, _) => lease in q.holders && q.holders[lease].key in q.items
    case Vanish(lease) => lease in q.holders
  }

  function Do<K>(q: Queue<K>, e: Event<K>, maxAttempts: nat): Queue<K> {
    if !Possible(q, e) then q
    else match e
      case Enqueue(due) => q.(items := q.items + map k | k in due :: NewItem(due[k]))
      case Claim(lease, key, now, leaseMs) =>
        Queue(q.items[key := ClaimItem(q.items[key], lease, now + leaseMs)],
              q.holders[lease := Holder(key, q.items[key].attempts)],
              q.leases + {lease})
      case Settle(lease, verdict, now) =>
        var h := q.holders[lease];
        q.(items := q.items[h.key := SettleItem(q.items[h.key], lease, h.attempts, verdict, now, maxAttempts)],
           holders := q.holders - {lease})
      case Vanish(lease) => q.(holders := q.holders - {lease})
  }

  function Run<K>(es: seq<Event<K>>, maxAttempts: nat): Queue<K> {
    if es == [] then Queue(map[], map[], {}) else Do(Run(es[..|es| - 1], maxAttempts), es[|es| - 1], maxAttempts)
  }

  // ---------------------------------------------------------------- the invariant

  predicate ItemOk(it: Item, maxAttempts: nat) {
    && (if Terminal(it) then 1 <= it.attempts <= maxAttempts else it.attempts < maxAttempts)
    && (it.status.Inflight? <==> it.leaseId.Some?)
    && (it.leaseId.Some? <==> it.leaseUntil.Some?)
    && (it.status.Delivered? <==> it.deliveredAt.Some?)
    && (Terminal(it) ==> it.nextAttemptAt.None?)
  }

  predicate HolderOk<K>(q: Queue<K>, lease: LeaseId)
    requires lease in q.holders
  {
    var h := q.holders[lease];
    && lease in q.leases && h.key in q.items
    && (Held(q.items[h.key], lease) ==> h.attempts == q.items[h.key].attempts)
  }

  predicate LeasesKnown<K>(q: Queue<K>) {
    forall k :: k in q.items && q.items[k].leaseId.Some? ==> q.items[k].leaseId.value in q.leases
  }

  predicate QueueOk<K>(q: Queue<K>, maxAttempts: nat) {
    && (forall k :: k in q.items ==> ItemOk(q.items[k], maxAttempts))
    && (forall l :: l in q.holders ==> HolderOk(q, l))
    && LeasesKnown(q)
  }

  lemma DoOk<K>(q: Queue<K>, e: Event<K>, maxAttempts: nat)
    requires QueueOk(q, maxAttempts) && 0 < maxAttempts
    ensures QueueOk(Do(q, e, maxAttempts), maxAttempts)
  {
  }

  lemma {:induction false} RunOk<K>(es: seq<Event<K>>, maxAttempts: nat)
    requires 0 < maxAttempts
    ensures QueueOk(Run(es, maxAttempts), maxAttempts)
  {
    if es != [] {
      RunOk(es[..|es| - 1], maxAttempts);
      DoOk(Run(es[..|es| - 1], maxAttempts), es[|es| - 1], maxAttempts);
    }
  }

  // ---------------------------------------------------------------- exact claim accounting

  predicate Claims<K>(q: Queue<K>, e: Event<K>, k: K) { Possible(q, e) && e.Claim? && e.key == k }

  // A claim of an item whose previous holder let its lease run out.
  predicate Reclaims<K>(q: Queue<K>, e: Event<K>, k: K) { Claims(q, e, k) && q.items[k].status.Inflight? }

  function ClaimCount<K>(es: seq<Event<K>>, k: K, maxAttempts: nat): nat {
    if es == [] then 0
    else ClaimCount(es[..|es| - 1], k, maxAttempts)
         + if Claims(Run(es[..|es| - 1], maxAttempts), es[|es| - 1], k) then 1 else 0
  }

  function ReclaimCount<K>(es: seq<Event<K>>, k: K, maxAttempts: nat): nat {
    if es == [] then 0
    else ReclaimCount(es[..|es| - 1], k, maxAttempts)
         + if Reclaims(Run(es[..|es| - 1], maxAttempts), es[|es| - 1], k) then 1 else 0
  }

  // Every claim was settled once, taken over once, or is still in flight.
  lemma {:induction false} ClaimsExact<K>(es: seq<Event<K>>, k: K, maxAttempts: nat)
    requires 0 < maxAttempts
    ensures var q := Run(es, maxAttempts);
            ClaimCount(es, k, maxAttempts) == ReclaimCount(es, k, maxAttempts)
              + if k in q.items then q.items[k].attempts + (if q.items[k].status.Inflight? then 1 else 0) else 0
    ensures k in Run(es, maxAttempts).items ==> ItemOk(Run(es, maxAttempts).items[k], maxAttempts)
  {
    RunOk(es, maxAttempts);
    if es != [] {
      var e, q := es[|es| - 1], Run(es[..|es| - 1], maxAttempts);
      ClaimsExact(es[..|es| - 1], k, maxAttempts);
      if Possible(q, e) && e.Settle? {
        RunOk(es[..|es| - 1], maxAttempts);
        assert HolderOk(q, e.lease);
      }
    }
  }

  // Waiting with no attempt behind it means never claimed.
  predicate Untouched(it: Item) { it.status.Pending? && it.attempts == 0 }

  lemma {:induction false} UntouchedExactly<K>(es: seq<Event<K>>, k: K, maxAttempts: nat)
    requires 0 < maxAttempts && k in Run(es, maxAttempts).items
    ensures Untouched(Run(es, maxAttempts).items[k]) <==> ClaimCount(es, k, maxAttempts) == 0
  {
    ClaimsExact(es, k, maxAttempts);
    ReclaimNeedsClaim(es, k, maxAttempts);
  }

  // While nothing is in flight and no attempt has ended, nothing was reclaimed.
  lemma {:induction false} ReclaimNeedsClaim<K>(es: seq<Event<K>>, k: K, maxAttempts: nat)
    requires 0 < maxAttempts
    ensures var q := Run(es, maxAttempts);
            (k !in q.items || Untouched(q.items[k])) ==> ReclaimCount(es, k, maxAttempts) == 0
  {
    if es != [] {
      ReclaimNeedsClaim(es[..|es| - 1], k, maxAttempts);
    }
  }

  // ---------------------------------------------------------------- finality and fencing

  // Delivered and permanent never change, in any continuation of any run.
  lemma {:induction false} TerminalForever<K>(es: seq<Event<K>>, more: seq<Event<K>>, k: K, maxAttempts: nat)
    requires k in Run(es, maxAttempts).items && Terminal(Run(es, maxAttempts).items[k])
    ensures k in Run(es + more, maxAttempts).items
    ensures Run(es + more, maxAttempts).items[k] == Run(es, maxAttempts).items[k]
  {
    if more == [] {
      assert es + more == es;
    } else {
      var all := es + more;
      TerminalForever(es, more[..|more| - 1], k, maxAttempts);
      assert all[..|all| - 1] == es + more[..|more| - 1] && all[|all| - 1] == more[|more| - 1];
    }
  }

  predicate Lost<K>(q: Queue<K>, l: LeaseId, k: K) { l in q.leases && (k in q.items ==> !Held(q.items[k], l)) }

  // Once another claim or a settle has taken an item from a lease, the late settle
  // of that lease changes no item, in any continuation.
  lemma {:induction false} LateSettleIsInert<K>(es: seq<Event<K>>, more: seq<Event<K>>, l: LeaseId,
                                                v: Verdict, now: Millis, maxAttempts: nat)
    requires var q := Run(es, maxAttempts); l in q.holders && Lost(q, l, q.holders[l].key)
    ensures var q := Run(es + more, maxAttempts);
            && (l in q.holders ==> q.holders[l] == Run(es, maxAttempts).holders[l])
            && Lost(q, l, Run(es, maxAttempts).holders[l].key)
            && Do(q, Settle(l, v, now), maxAttempts).items == q.items
  {
    var k := Run(es, maxAttempts).holders[l].key;
    if more == [] {
      assert es + more == es;
    } else {
      var all := es + more;
      LateSettleIsInert(es, more[..|more| - 1], l, v, now, maxAttempts);
      assert all[..|all| - 1] == es + more[..|more| - 1] && all[|all| - 1] == more[|more| - 1];
    }
    var q := Run(es + more, maxAttempts);
    if l in q.holders && k in q.items {
      assert q.items[k := q.items[k]] == q.items;
    }
  }

  // A takeover loses the item for every earlier lease.
  lemma TakeoverFences<K>(q: Queue<K>, e: Event<K>, l: LeaseId, k: K, maxAttempts: nat)
    requires l in q.leases && Possible(q, e) && k in q.items
    requires (e.Claim? && e.key == k) || (e.Settle? && e.lease == l && q.holders[l].key == k)
    ensures Lost(Do(q, e, maxAttempts), l, k)
  {
  }

  // The settle that delivered an item: its worker saw success and still held the lease.
  predicate Delivers<K>(q: Queue<K>, e: Event<K>, k: K) {
    && e.Settle? && e.verdict.Success? && e.lease in q.holders && q.holders[e.lease].key == k
    && k in q.items && Held(q.items[k], e.lease)
  }

  predicate DeliveryAt<K>(es: seq<Event<K>>, i: nat, k: K, maxAttempts: nat) {
    i < |es| && Delivers(Run(es[..i], maxAttempts), es[i], k)
  }

  // Delivered is reached only that way, and exactly once.
  lemma {:induction false} DeliveredBySuccess<K>(es: seq<Event<K>>, k: K, maxAttempts: nat)
    requires k in Run(es, maxAttempts).items && Run(es, maxAttempts).items[k].status.Delivered?
    ensures exists i: nat :: DeliveryAt(es, i, k, maxAttempts)
    ensures forall i: nat, j: nat | DeliveryAt(es, i, k, maxAttempts) && DeliveryAt(es, j, k, maxAttempts) :: i == j
  {
    FirstDelivery(es, k, maxAttempts);
    forall i: nat, j: nat | i < j && DeliveryAt(es, i, k, maxAttempts) ensures !DeliveryAt(es, j, k, maxAttempts) {
      if j < |es| {
        assert es[..i + 1][..i] == es[..i];
        assert Run(es[..i + 1], maxAttempts).items[k].status.Delivered?;
        TerminalForever(es[..i + 1], es[i + 1..j], k, maxAttempts);
        assert es[..i + 1] + es[i + 1..j] == es[..j];
      }
    }
  }

  lemma {:induction false} FirstDelivery<K>(es: seq<Event<K>>, k: K, maxAttempts: nat)
    requires k in Run(es, maxAttempts).items && Run(es, maxAttempts).items[k].status.Delivered?
    ensures exists i: nat :: DeliveryAt(es, i, k, maxAttempts)
  {
    var n := |es| - 1;
    var q := Run(es[..n], maxAttempts);
    if k in q.items && q.items[k].status.Delivered? {
      FirstDelivery(es[..n], k, maxAttempts);
      var i: nat :| DeliveryAt(es[..n], i, k, maxAttempts);
      assert es[..n][..i] == es[..i];
      assert DeliveryAt(es, i, k, maxAttempts);
    } else {
      assert DeliveryAt(es, n, k, maxAttempts);
    }
  }

  // ---------------------------------------------------------------- what a settle decides

  // A settle that finds its lease: success delivers, a refusal is final, and a retry
  // waits for its time as long as attempts are left.
  lemma SettleDecides<K>(q: Queue<K>, e: Event<K>, k: K, maxAttempts: nat)
    requires e.Settle? && Possible(q, e) && q.holders[e.lease].key == k
    requires q.items[k].status.Inflight? && q.items[k].leaseId == Some(e.lease)
    ensures var it, spent := Do(q, e, maxAttempts).items[k], q.holders[e.lease].attempts + 1;
            && it.attempts == spent && it.leaseId.None? && it.leaseUntil.None?
            && (e.verdict.Success? ==> it.status.Delivered? && it.deliveredAt == Some(e.now))
            && (e.verdict.Refused? ==> it.status.Permanent?)
            && (e.verdict.Retry? && maxAttempts <= spent ==> it.status.Permanent?)
            && (e.verdict.Retry? && spent < maxAttempts ==>
                  it.status.Pending? && it.nextAttemptAt == Some(e.verdict.at))
            && (it.status.Delivered? || it.status.Permanent? ==> it.nextAttemptAt.None?)
    ensures forall j :: j in q.items && j != k ==> Do(q, e, maxAttempts).items[j] == q.items[j]
  {
  }

  // One that does not find it changes no item.
  lemma LateSettle<K>(q: Queue<K>, e: Event<K>, maxAttempts: nat)
    requires e.Settle? && Possible(q, e)
    requires var it := q.items[q.holders[e.lease].key]; !(it.status.Inflight? && it.leaseId == Some(e.lease))
    ensures Do(q, e, maxAttempts).items == q.items
  {
    assert q.items[q.holders[e.lease].key := q.items[q.holders[e.lease].key]] == q.items;
  }

  // No event of `more` claims the item.
  ghost predicate Unclaimed<K(!new)>(es: seq<Event<K>>, more: seq<Event<K>>, k: K, maxAttempts: nat) {
    forall i :: 0 <= i < |more| ==> !Claims(Run(es + more[..i], maxAttempts), more[i], k)
  }

  lemma {:induction false} RunMore<K>(es: seq<Event<K>>, more: seq<Event<K>>, maxAttempts: nat)
    requires more != []
    ensures Run(es + more, maxAttempts) == Do(Run(es + more[..|more| - 1], maxAttempts), more[|more| - 1], maxAttempts)
  {
    var all := es + more;
    assert all[..|all| - 1] == es + more[..|more| - 1] && all[|all| - 1] == more[|more| - 1];
  }

  lemma {:induction false} UnclaimedPrefix<K(!new)>(es: seq<Event<K>>, more: seq<Event<K>>, k: K, maxAttempts: nat)
    requires more != [] && Unclaimed(es, more, k, maxAttempts)
    ensures Unclaimed(es, more[..|more| - 1], k, maxAttempts)
    ensures !Claims(Run(es + more[..|more| - 1], maxAttempts), more[|more| - 1], k)
  {
    var less := more[..|more| - 1];
    forall i | 0 <= i < |less| ensures !Claims(Run(es + less[..i], maxAttempts), less[i], k) {
      assert less[..i] == more[..i];
    }
  }

  // A waiting item keeps its row until its next claim, and such a claim is possible
  // from its due time on and at no time before.
  lemma {:induction false} WaitsForItsTime<K(!new)>(es: seq<Event<K>>, more: seq<Event<K>>, k: K, at: Millis,
                                                    maxAttempts: nat)
    requires k in Run(es, maxAttempts).items && Unclaimed(es, more, k, maxAttempts)
    requires var it := Run(es, maxAttempts).items[k]; it.status.Pending? && it.nextAttemptAt == Some(at)
    ensures var q := Run(es + more, maxAttempts);
            && k in q.items && q.items[k] == Run(es, maxAttempts).items[k]
            && (forall l, now, ms :: l !in q.leases ==> (Possible(q, Claim(l, k, now, ms)) <==> at <= now))
  {
    if more == [] {
      assert es + more == es;
    } else {
      UnclaimedPrefix(es, more, k, maxAttempts);
      WaitsForItsTime(es, more[..|more| - 1], k, at, maxAttempts);
      RunMore(es, more, maxAttempts);
    }
  }

  // So after a settle that holds its lease a retry verdict means: one attempt more, and
  // the next claim from the verdict's time on, unless the attempts are used up.
  lemma {:induction false} RetryWaits<K(!new)>(es: seq<Event<K>>, settle: Event<K>, more: seq<Event<K>>, k: K,
                                               maxAttempts: nat)
    requires settle.Settle? && settle.verdict.Retry? && Possible(Run(es, maxAttempts), settle)
    requires var q := Run(es, maxAttempts);
             && q.holders[settle.lease].key == k
             && q.items[k].status.Inflight? && q.items[k].leaseId == Some(settle.lease)
             && q.holders[settle.lease].attempts + 1 < maxAttempts
    requires Unclaimed(es + [settle], more, k, maxAttempts)
    ensures var q, q' := Run(es, maxAttempts), Run(es + [settle] + more, maxAttempts);
            && k in q'.items && q'.items[k].status.Pending?
            && q'.items[k].attempts == q.holders[settle.lease].attempts + 1
            && (forall l, now, ms :: l !in q'.leases ==>
                  (Possible(q', Claim(l, k, now, ms)) <==> settle.verdict.at <= now))
  {
    var hs := es + [settle];
    assert hs[..|hs| - 1] == es;
    SettleDecides(Run(es, maxAttempts), settle, k, maxAttempts);
    WaitsForItsTime(hs, more, k, settle.verdict.at, maxAttempts);
  }

  // While in flight, under this lease until this time.
  predicate Under<K>(q: Queue<K>, k: K, l: LeaseId, until: Millis) {
    && k in q.items
    && (q.items[k].status.Inflight? ==> q.items[k].leaseId == Some(l) && q.items[k].leaseUntil == Some(until))
  }

  lemma UnderStep<K>(q: Queue<K>, e: Event<K>, k: K, l: LeaseId, until: Millis, maxAttempts: nat)
    requires Under(q, k, l, until) && !Claims(q, e, k)
    ensures Under(Do(q, e, maxAttempts), k, l, until)
  {
  }

  lemma {:induction false} LeaseStands<K(!new)>(es: seq<Event<K>>, more: seq<Event<K>>, k: K, l: LeaseId,
                                                until: Millis, maxAttempts: nat)
    requires Under(Run(es, maxAttempts), k, l, until) && Unclaimed(es, more, k, maxAttempts)
    ensures Under(Run(es + more, maxAttempts), k, l, until)
  {
    if more == [] {
      assert es + more == es;
    } else {
      UnclaimedPrefix(es, more, k, maxAttempts);
      LeaseStands(es, more[..|more| - 1], k, l, until, maxAttempts);
      RunMore(es, more, maxAttempts);
      UnderStep(Run(es + more[..|more| - 1], maxAttempts), more[|more| - 1], k, l, until, maxAttempts);
    }
  }

  // After a claim no other dispatch can take the item before the lease runs out, as
  // long as it is in flight; from then on any can.
  lemma {:induction false} LeaseKeepsOut<K(!new)>(es: seq<Event<K>>, claim: Event<K>, more: seq<Event<K>>,
                                                  maxAttempts: nat)
    requires claim.Claim? && Possible(Run(es, maxAttempts), claim)
    requires Unclaimed(es + [claim], more, claim.key, maxAttempts)
    ensures var q := Run(es + [claim] + more, maxAttempts);
            && claim.key in q.items
            && (q.items[claim.key].status.Inflight? ==>
                  forall l, at, ms :: l !in q.leases ==>
                    (Possible(q, Claim(l, claim.key, at, ms)) <==> claim.now + claim.leaseMs <= at))
  {
    var hs := es + [claim];
    assert hs[..|hs| - 1] == es;
    LeaseStands(hs, more, claim.key, claim.lease, claim.now + claim.leaseMs, maxAttempts);
  }

  // A new item waits without an attempt for the time it was given, or for none.
  lemma EnqueueMakes<K>(q: Queue<K>, due: map<K, Option<Millis>>, k: K, maxAttempts: nat)
    requires Possible(q, Enqueue(due)) && k in due
    ensures var it := Do(q, Enqueue(due), maxAttempts).items[k];
            && it.status.Pending? && it.attempts == 0 && it.nextAttemptAt == due[k]
            && it.leaseId.None? && it.leaseUntil.None? && it.deliveredAt.None?
    ensures forall j :: j in q.items ==> Do(q, Enqueue(due), maxAttempts).items[j] == q.items[j]
  {
  }

  // The settle that closed an item for good.
  predicate Closes<K>(q: Queue<K>, e: Event<K>, k: K, maxAttempts: nat) {
    && e.Settle? && e.lease in q.holders && q.holders[e.lease].key == k && k in q.items
    && q.items[k].status.Inflight? && q.items[k].leaseId == Some(e.lease)
    && (e.verdict.Refused? || (e.verdict.Retry? && maxAttempts <= q.holders[e.lease].attempts + 1))
  }

  predicate ClosedAt<K>(es: seq<Event<K>>, i: nat, k: K, maxAttempts: nat) {
    i < |es| && Closes(Run(es[..i], maxAttempts), es[i], k, maxAttempts)
  }

  // Nothing is given up early: a permanent item was refused or has used up its attempts.
  lemma {:induction false} PermanentBecause<K>(es: seq<Event<K>>, k: K, maxAttempts: nat)
    requires k in Run(es, maxAttempts).items && Run(es, maxAttempts).items[k].status.Permanent?
    ensures exists i: nat :: ClosedAt(es, i, k, maxAttempts)
  {
    var n := |es| - 1;
    var q := Run(es[..n], maxAttempts);
    if k in q.items && q.items[k].status.Permanent? {
      PermanentBecause(es[..n], k, maxAttempts);
      var i: nat :| ClosedAt(es[..n], i, k, maxAttempts);
      assert es[..n][..i] == es[..i];
      assert ClosedAt(es, i, k, maxAttempts);
    } else {
      assert ClosedAt(es, n, k, maxAttempts);
    }
  }

  // ---------------------------------------------------------------- an undisturbed dispatch

  // The item after one dispatch that nobody disturbed.
  function TurnItem(it: Item, verdict: Verdict, doneAt: Millis, maxAttempts: nat): Item {
    Settled(it, it.attempts, verdict, doneAt, maxAttempts)
  }

  // A dispatch that runs from claim to settle alone is the two events in a row.
  lemma TurnIsTwoEvents<K>(q: Queue<K>, lease: LeaseId, key: K, now: Millis, leaseMs: nat, v: Verdict, doneAt: Millis,
                           maxAttempts: nat)
    requires lease !in q.leases && key in q.items && Eligible(q.items[key], now)
    ensures Do(Do(q, Claim(lease, key, now, leaseMs), maxAttempts), Settle(lease, v, doneAt), maxAttempts).items
         == q.items[key := TurnItem(q.items[key], v, doneAt, maxAttempts)]
  {
  }
}
