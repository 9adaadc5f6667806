// The table behind a leased queue, with the two statements dispatches run on it.
module QueueTable {
  import opened Common
  import opened LeasedQueue

  // The row `ORDER BY ... LIMIT 1` may return: eligible, and none strictly before it.
  ghost predicate IsFirst<K(!new)>(items: map<K, Item>, now: Millis, rank: (K, Item) -> Rank, key: K) {
    && key in items && Eligible(items[key], now)
    && (forall k :: k in items && Eligible(items[k], now) ==> !Before(rank(k, items[k]), rank(key, items[key])))
  }

  class Table<K(==,!new)> {
    var items: map<K, Item>

    constructor ()
      ensures items == map[]
    {
      items := map[];
    }

    method Insert(key: K, due: Option<Millis>)
      modifies this
      ensures items == old(items)[key := NewItem(due)]
    {
      items := items[key := Item(Status.Pending, 0, due, None, None, None)];
    }

    method SelectEligible(now: Millis, rank: (K, Item) -> Rank) returns (key: Option<K>)
      ensures key.None? ==> forall k :: k in items ==> !Eligible(items[k], now)
      ensures key.Some? ==> IsFirst(items, now, rank, key.value)
    {
      key := None;
      var rest := items.Keys;
      while rest != {}
        invariant rest <= items.Keys
        invariant key.None? ==> forall k :: k in items && k !in rest ==> !Eligible(items[k], now)
        invariant key.Some? ==> key.value in items && Eligible(items[key.value], now)
        invariant key.Some? ==> forall k :: k in items && k !in rest && Eligible(items[k], now) ==>
                    !Before(rank(k, items[k]), rank(key.value, items[key.value]))
        decreases |rest|
      {
        var k :| k in rest;
        rest := rest - {k};
        if Eligible(items[k], now) && (key.None? || Before(rank(k, items[k]), rank(key.value, items[key.value]))) {
          key := Some(k);
        }
      }
    }

    method Claim(now: Millis, lease: LeaseId, leaseMs: nat, rank: (K, Item) -> Rank)
      returns (claimed: Option<Holder<K>>)
      modifies this
      ensures claimed.None? ==> items == old(items) && forall k :: k in items ==> !Eligible(items[k], now)
      ensures claimed.Some? ==>
        && IsFirst(old(items), now, rank, claimed.value.key)
        && claimed.value.attempts == old(items)[claimed.value.key].attempts
        && items == old(items)[claimed.value.key := ClaimItem(old(items)[claimed.value.key], lease, now + leaseMs)]
        && items[claimed.value.key].status.Inflight? && items[claimed.value.key].leaseId == Some(lease)
        && items[claimed.value.key].leaseUntil == Some(now + leaseMs)
    {
      var key := SelectEligible(now, rank);
      if key.None? { return None; }
      var row := items[key.value];
      items := items[key.value :=
          row.(status := Status.Inflight, leaseId := Some(lease), leaseUntil := Some(now + leaseMs))];
      return Some(Holder(key.value, row.attempts));
    }

    // UPDATE ... WHERE key = ? AND status = 'inflight' AND lease_id = ?
    method Update(key: K, lease: LeaseId, status: Status, attempts: nat, next: Option<Millis>,
                  delivered: Option<Millis>)
      modifies this
      ensures items ==
        if key in old(items) && Held(old(items)[key], lease)
        then old(items)[key := Item(status, attempts, next, None, None,
                                    if delivered.Some? then delivered else old(items)[key].deliveredAt)]
        else old(items)
    {
      if key in items && items[key].status.Inflight? && items[key].leaseId == Some(lease) {
        var row := items[key].(status := status, attempts := attempts, nextAttemptAt := next,
                               leaseId := None, leaseUntil := None);
        if delivered.Some? { row := row.(deliveredAt := delivered); }
        items := items[key := row];
      }
    }

    // The branches of a dispatch after its attempt, in the source's order.
    method SettleAttempt(h: Holder<K>, lease: LeaseId, verdict: Verdict, now: Millis, maxAttempts: nat)
      modifies this
      ensures items ==
        if h.key in old(items)
        then old(items)[h.key := SettleItem(old(items)[h.key], lease, h.attempts, verdict, now, maxAttempts)]
        else old(items)
      ensures h.key in old(items) && old(items)[h.key].status.Inflight? && old(items)[h.key].leaseId == Some(lease) ==>
        var it, spent := items[h.key], h.attempts + 1;
        && it.attempts == spent && it.leaseId.None? && it.leaseUntil.None?
        && (it.status.Delivered? <==> verdict.Success?)
        && (it.status.Permanent? <==> verdict.Refused? || (verdict.Retry? && maxAttempts <= spent))
        && (it.status.Pending? <==> verdict.Retry? && spent < maxAttempts)
        && (it.status.Pending? ==> it.nextAttemptAt == Some(verdict.at))
        && (it.status.Delivered? ==> it.deliveredAt == Some(now))
    {
      var attempts := h.attempts + 1;
      match verdict {
        case Success => Update(h.key, lease, Status.Delivered, attempts, None, Some(now));
        case Refused => Update(h.key, lease, Status.Permanent, attempts, None, None);
        case Retry(at) =>
          if attempts >= maxAttempts {
            Update(h.key, lease, Status.Permanent, attempts, None, None);
          } else {
            Update(h.key, lease, Status.Pending, attempts, Some(at), None);
          }
      }
      if h.key in items { assert items == items[h.key := items[h.key]]; }
    }
  }
}
