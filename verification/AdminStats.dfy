// The admin pages' counters: sessions per user against the total, and thirty days
// of registrations against the thirty-day count.
module AdminStats {
  import opened Common

  type UserId = nat

  const DAY_MS: nat := 24 * 60 * 60 * 1000

  datatype SessionRow = SessionRow(user: UserId, expiresAt: Millis)

  // ---------------------------------------------------------------- sessions

  // tokens.filter((t) => t.expiresAt >= now).length
  function Active(tokens: seq<SessionRow>, now: Millis): nat {
    if tokens == [] then 0
    else Active(tokens[..|tokens| - 1], now) + if tokens[|tokens| - 1].expiresAt >= now then 1 else 0
  }

  function ActiveFor(tokens: seq<SessionRow>, now: Millis, user: UserId): nat {
    if tokens == [] then 0
    else
      var last := tokens[|tokens| - 1];
      ActiveFor(tokens[..|tokens| - 1], now, user) + if last.user == user && last.expiresAt >= now then 1 else 0
  }

  function SumOf(counts: seq<nat>): nat {
    if counts == [] then 0 else SumOf(counts[..|counts| - 1]) + counts[|counts| - 1]
  }

  function Counts(users: seq<UserId>, tokens: seq<SessionRow>, now: Millis): seq<nat> {
    seq(|users|, i requires 0 <= i < |users| => ActiveFor(tokens, now, users[i]))
  }

  // The positions at which p holds.
  function Where<T>(s: seq<T>, p: T -> bool): set<int> { set i | 0 <= i < |s| && p(s[i]) }

  lemma WhereSnoc<T>(s: seq<T>, p: T -> bool)
    requires s != []
    ensures |Where(s, p)| == |Where(s[..|s| - 1], p)| + if p(s[|s| - 1]) then 1 else 0
  {
    var n := |s| - 1;
    assert Where(s, p) == Where(s[..n], p) + if p(s[n]) then {n} else {};
  }

  // The recursive counts count.
  lemma {:induction false} ActiveCounts(tokens: seq<SessionRow>, now: Millis)
    ensures Active(tokens, now) == |Where(tokens, (t: SessionRow) => t.expiresAt >= now)|
  {
    if tokens != [] {
      WhereSnoc(tokens, (t: SessionRow) => t.expiresAt >= now);
      ActiveCounts(tokens[..|tokens| - 1], now);
    }
  }

  lemma {:induction false} ActiveForCounts(tokens: seq<SessionRow>, now: Millis, user: UserId)
    ensures ActiveFor(tokens, now, user) == |Where(tokens, (t: SessionRow) => t.user == user && t.expiresAt >= now)|
  {
    if tokens != [] {
      WhereSnoc(tokens, (t: SessionRow) => t.user == user && t.expiresAt >= now);
      ActiveForCounts(tokens[..|tokens| - 1], now, user);
    }
  }

  predicate Distinct(users: seq<UserId>) { forall i, j :: 0 <= i < j < |users| ==> users[i] != users[j] }

  // Bumping one position of a sequence bumps its sum.
  lemma {:induction false} SumBump(a: seq<nat>, b: seq<nat>, k: nat)
    requires |a| == |b| && k < |a| && b[k] == a[k] + 1
    requires forall i :: 0 <= i < |a| && i != k ==> b[i] == a[i]
    ensures SumOf(b) == SumOf(a) + 1
  {
    var n := |a| - 1;
    if k < n {
      SumBump(a[..n], b[..n], k);
    } else {
      assert a[..n] == b[..n];
    }
  }

  lemma {:induction false} SumZeros(a: seq<nat>)
    requires forall i :: 0 <= i < |a| ==> a[i] == 0
    ensures SumOf(a) == 0
  {
    if a != [] { SumZeros(a[..|a| - 1]); }
  }

  // Every session belongs to a listed user, so the per-user counts add up to the total.
  lemma {:induction false} CountsAddUp(users: seq<UserId>, tokens: seq<SessionRow>, now: Millis)
    requires Distinct(users) && forall i :: 0 <= i < |tokens| ==> tokens[i].user in users
    ensures SumOf(Counts(users, tokens, now)) == Active(tokens, now)
  {
    if tokens == [] {
      SumZeros(Counts(users, tokens, now));
    } else {
      var prior, last := tokens[..|tokens| - 1], tokens[|tokens| - 1];
      CountsAddUp(users, prior, now);
      var k :| 0 <= k < |users| && users[k] == last.user;
      if last.expiresAt >= now {
        SumBump(Counts(users, prior, now), Counts(users, tokens, now), k);
      } else {
        assert Counts(users, tokens, now) == Counts(users, prior, now);
      }
    }
  }

  // The counting loop of GET /admin/users.
  method CountSessions(tokens: seq<SessionRow>, now: Millis) returns (byUser: map<UserId, nat>)
    ensures forall u :: (if u in byUser then byUser[u] else 0) == ActiveFor(tokens, now, u)
  {
    byUser := map[];
    for i := 0 to |tokens|
      invariant forall u :: (if u in byUser then byUser[u] else 0) == ActiveFor(tokens[..i], now, u)
    {
      assert tokens[..i + 1][..i] == tokens[..i];
      var t := tokens[i];
      if t.expiresAt < now { continue; }
      byUser := byUser[t.user := (if t.user in byUser then byUser[t.user] else 0) + 1];
    }
    assert tokens[..|tokens|] == tokens;
  }

  // The page's activeSessionCount column sums to the stats page's total.
  method ListUsers(users: seq<UserId>, tokens: seq<SessionRow>, now: Millis) returns (counts: seq<nat>)
    requires Distinct(users) && forall i :: 0 <= i < |tokens| ==> tokens[i].user in users
    ensures counts == Counts(users, tokens, now) && SumOf(counts) == Active(tokens, now)
    ensures forall k :: 0 <= k < |users| ==>
              counts[k] == |Where(tokens, (t: SessionRow) => t.user == users[k] && t.expiresAt >= now)|
    ensures SumOf(counts) == |Where(tokens, (t: SessionRow) => t.expiresAt >= now)|
  {
    var byUser := CountSessions(tokens, now);
    counts := [];
    for i := 0 to |users|
      invariant |counts| == i && forall k :: 0 <= k < i ==> counts[k] == ActiveFor(tokens, now, users[k])
    {
      counts := counts + [if users[i] in byUser then byUser[users[i]] else 0];
    }
    assert counts == Counts(users, tokens, now);
    CountsAddUp(users, tokens, now);
    ActiveCounts(tokens, now);
    forall k | 0 <= k < |users|
      ensures counts[k] == |Where(tokens, (t: SessionRow) => t.user == users[k] && t.expiresAt >= now)|
    {
      ActiveForCounts(tokens, now, users[k]);
    }
  }

  // ---------------------------------------------------------------- registrations

  // The UTC date of an instant, as the number of its day.
  function Day(at: Millis): int { at / DAY_MS }

  function OnDay(created: seq<Millis>, day: int): nat {
    if created == [] then 0
    else OnDay(created[..|created| - 1], day) + if Day(created[|created| - 1]) == day then 1 else 0
  }

  function Since(created: seq<Millis>, from: Millis): nat {
    if created == [] then 0
    else Since(created[..|created| - 1], from) + if created[|created| - 1] >= from then 1 else 0
  }

  predicate Within(day: int, at: Millis) { day * 86_400_000 <= at < (day + 1) * 86_400_000 }

  lemma {:induction false} OnDayCounts(created: seq<Millis>, day: int)
    ensures OnDay(created, day) == |Where(created, (at: Millis) => Within(day, at))|
  {
    if created != [] {
      WhereSnoc(created, (at: Millis) => Within(day, at));
      OnDayCounts(created[..|created| - 1], day);
    }
  }

  ghost predicate AllCounted(created: seq<Millis>, days: seq<int>, counts: seq<nat>)
    requires |days| == |counts|
  {
    forall k :: 0 <= k < |days| ==> counts[k] == |Where(created, (at: Millis) => Within(days[k], at))|
  }

  lemma {:induction false} EveryDayCounts(created: seq<Millis>, days: seq<int>, counts: seq<nat>)
    requires |days| == |counts| && forall k :: 0 <= k < |days| ==> counts[k] == OnDay(created, days[k])
    ensures AllCounted(created, days, counts)
  {
    forall k | 0 <= k < |days| ensures counts[k] == |Where(created, (at: Millis) => Within(days[k], at))| {
      OnDayCounts(created, days[k]);
    }
  }

  lemma {:induction false} SinceCounts(created: seq<Millis>, from: Millis)
    ensures Since(created, from) == |Where(created, (at: Millis) => at >= from)|
  {
    if created != [] {
      WhereSnoc(created, (at: Millis) => at >= from);
      SinceCounts(created[..|created| - 1], from);
    }
  }

  // Registrations on the days first .. first + n - 1.
  function OnDays(created: seq<Millis>, first: int, n: nat): nat {
    if n == 0 then 0 else OnDays(created, first, n - 1) + OnDay(created, first + n - 1)
  }

  lemma {:induction false} OnDaysSnoc(created: seq<Millis>, at: Millis, first: int, n: nat)
    ensures OnDays(created + [at], first, n) ==
              OnDays(created, first, n) + if first <= Day(at) < first + n then 1 else 0
    decreases n
  {
    assert (created + [at])[..|created|] == created;
    if n > 0 { OnDaysSnoc(created, at, first, n - 1); }
  }

  // The oldest bucket starts later than thirty days ago: floor division.
  lemma OldestBucket(now: Millis, at: Millis)
    requires Day(now) - 29 <= Day(at)
    ensures now - 30 * DAY_MS <= at
  {
  }

  lemma {:induction false} BucketsWithin(created: seq<Millis>, now: Millis)
    ensures OnDays(created, Day(now) - 29, 30) <= Since(created, now - 30 * DAY_MS) <= |created|
  {
    if created == [] {
      NoneOnDays(Day(now) - 29, 30);
    } else {
      var prior, at := created[..|created| - 1], created[|created| - 1];
      BucketsWithin(prior, now);
      OnDaysSnoc(prior, at, Day(now) - 29, 30);
      assert prior + [at] == created;
      if Day(now) - 29 <= Day(at) { OldestBucket(now, at); }
    }
  }

  lemma {:induction false} NoneOnDays(first: int, n: nat)
    ensures OnDays([], first, n) == 0
    decreases n
  {
    if n > 0 { NoneOnDays(first, n - 1); }
  }

  method CountOnDay(created: seq<Millis>, day: int) returns (n: nat)
    ensures n == OnDay(created, day)
  {
    n := 0;
    for i := 0 to |created|
      invariant n == OnDay(created[..i], day)
    {
      assert created[..i + 1][..i] == created[..i];
      if Day(created[i]) == day { n := n + 1; }
    }
    assert created[..|created|] == created;
  }

  method CountSince(created: seq<Millis>, from: Millis) returns (n: nat)
    ensures n == Since(created, from)
  {
    n := 0;
    for i := 0 to |created|
      invariant n == Since(created[..i], from)
    {
      assert created[..i + 1][..i] == created[..i];
      if created[i] >= from { n := n + 1; }
    }
    assert created[..|created|] == created;
  }

  // GET /admin/stats: thirty distinct consecutive days ending today, whose counts
  // add up to at most the thirty-day count, which is at most all users.
  method Stats(created: seq<Millis>, now: Millis) returns (days: seq<int>, counts: seq<nat>, last30: nat)
    ensures |days| == |counts| == 30 && days[29] == Day(now)
    ensures forall k :: 0 <= k < 30 ==> days[k] == Day(now) - 29 + k && counts[k] == OnDay(created, days[k])
    ensures SumOf(counts) <= last30 <= |created|
    ensures last30 == |Where(created, (at: Millis) => at >= now - 30 * DAY_MS)|
    ensures Within(days[29], now) && AllCounted(created, days, counts)
  {
    last30 := CountSince(created, now - 30 * DAY_MS);
    days, counts := [], [];
    var i := 29;
    while i >= 0
      invariant -1 <= i <= 29 && |days| == |counts| == 29 - i
      invariant forall k :: 0 <= k < |days| ==> days[k] == Day(now) - 29 + k && counts[k] == OnDay(created, days[k])
      invariant SumOf(counts) == OnDays(created, Day(now) - 29, |counts|)
    {
      var day := Day(now - i * DAY_MS);
      var n := CountOnDay(created, day);
      assert (counts + [n])[..|counts|] == counts;
      days, counts := days + [day], counts + [n];
      i := i - 1;
    }
    BucketsWithin(created, now);
    SinceCounts(created, now - 30 * DAY_MS);
    EveryDayCounts(created, days, counts);
  }
}
