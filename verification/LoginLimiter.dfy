// The failed-login throttle: fixed windows per key, evicted lazily by the query.
module LoginLimiter {
  import opened Common

  const WINDOW_MS: nat := 15 * 60 * 1000
  const MAX_FAILURES: nat := 20

  datatype Bucket = Bucket(failures: nat, windowStart: Millis)

  predicate Expired(b: Bucket, now: Millis) { now - b.windowStart > WINDOW_MS }

  predicate Limited(b: Option<Bucket>, now: Millis) {
    b.Some? && !Expired(b.value, now) && b.value.failures >= MAX_FAILURES
  }

  // One recorded failure.
  function Record(b: Option<Bucket>, at: Millis): Bucket {
    if b.None? || Expired(b.value, at) then Bucket(1, at) else b.value.(failures := b.value.failures + 1)
  }

  // ---------------------------------------------------------------- the map is a cache of the history

  datatype Event<K> = Queried(key: K, at: Millis) | Failed(key: K, at: Millis) | Succeeded(key: K, at: Millis)

  // What a key's events amount to when nothing is ever evicted.
  function Fold<K(==)>(h: seq<Event<K>>, key: K): Option<Bucket> {
    if h == [] then None
    else
      var prior, e := Fold(h[..|h| - 1], key), h[|h| - 1];
      if e.key != key || e.Queried? then prior
      else if e.Failed? then Some(Record(prior, e.at))
      else None
  }

  // The history never runs ahead of the clock.
  predicate Until<K>(h: seq<Event<K>>, now: Millis) { forall i :: 0 <= i < |h| ==> h[i].at <= now }

  // A stored bucket is the fold's; a missing one is none or an expired one.
  predicate Agrees(stored: Option<Bucket>, folded: Option<Bucket>, now: Millis) {
    stored == folded || (stored.None? && folded.Some? && Expired(folded.value, now))
  }

  class Limiter<K(==,!new)> {
    var buckets: map<K, Bucket>
    ghost var history: seq<Event<K>>
    ghost var clock: Millis

    function Stored(key: K): Option<Bucket>
      reads this
    {
      if key in buckets then Some(buckets[key]) else None
    }

    ghost predicate Valid()
      reads this
    {
      Until(history, clock) && forall key :: Agrees(Stored(key), Fold(history, key), clock)
    }

    constructor (now: Millis)
      ensures Valid() && history == [] && clock == now
    {
      buckets, history, clock := map[], [], now;
    }

    // Answers as the whole history does, and its eviction changes no later answer.
    method IsLoginRateLimited(key: K, now: Millis) returns (limited: bool)
      requires Valid() && clock <= now
      modifies this
      ensures Valid() && clock == now && history == old(history) + [Queried(key, now)]
      ensures limited == Limited(Fold(old(history), key), now)
    {
      history, clock := history + [Queried(key, now)], now;
      if key !in buckets { return false; }
      if Expired(buckets[key], now) {
        buckets := buckets - {key};
        return false;
      }
      return buckets[key].failures >= MAX_FAILURES;
    }

    method RecordLoginFailure(key: K, now: Millis)
      requires Valid() && clock <= now
      modifies this
      ensures Valid() && clock == now && history == old(history) + [Failed(key, now)]
    {
      history, clock := history + [Failed(key, now)], now;
      if key !in buckets || Expired(buckets[key], now) {
        buckets := buckets[key := Bucket(1, now)];
      } else {
        buckets := buckets[key := buckets[key].(failures := buckets[key].failures + 1)];
      }
    }

    method RecordLoginSuccess(key: K, now: Millis)
      requires Valid() && clock <= now
      modifies this
      ensures Valid() && clock == now && history == old(history) + [Succeeded(key, now)]
    {
      history, clock := history + [Succeeded(key, now)], now;
      buckets := buckets - {key};
    }
  }

  // ---------------------------------------------------------------- when a key is limited

  // A key's failures since its last success.
  function Streak<K(==)>(h: seq<Event<K>>, key: K): nat {
    if h == [] then 0
    else
      var prior, e := Streak(h[..|h| - 1], key), h[|h| - 1];
      if e.key != key || e.Queried? then prior
      else if e.Failed? then prior + 1
      else 0
  }

  // Nobody is limited with fewer than twenty failures since the last success,
  // whatever other keys do.
  lemma {:induction false} FewFailuresPass<K>(h: seq<Event<K>>, key: K, now: Millis)
    ensures Fold(h, key).Some? ==> Fold(h, key).value.failures <= Streak(h, key)
    ensures Streak(h, key) < 20 ==> !Limited(Fold(h, key), now)
  {
    if h != [] { FewFailuresPass(h[..|h| - 1], key, now); }
  }

  // A success clears the key: only what fails afterwards counts.
  lemma {:induction false} SuccessClears<K>(h: seq<Event<K>>, key: K, at: Millis, more: seq<Event<K>>)
    ensures Fold(h + [Succeeded(key, at)] + more, key) == Fold(more, key)
  {
    var all := h + [Succeeded(key, at)] + more;
    if more == [] {
      assert all[..|all| - 1] == h;
    } else {
      SuccessClears(h, key, at, more[..|more| - 1]);
      assert all[..|all| - 1] == h + [Succeeded(key, at)] + more[..|more| - 1];
    }
  }

  // The key's events from the one that opens a window: failures within the fifteen
  // minutes from `start`, the first of them at `start`, and no success.
  predicate OneWindow<K(==)>(h: seq<Event<K>>, key: K, start: Millis) {
    forall i :: 0 <= i < |h| && h[i].key == key && !h[i].Queried? ==>
      && h[i].Failed? && start <= h[i].at <= start + 900_000
      && (Streak(h[..i], key) == 0 ==> h[i].at == start)
  }

  lemma {:induction false} WindowCounts<K>(h: seq<Event<K>>, key: K, start: Millis)
    requires OneWindow(h, key, start)
    ensures Fold(h, key) == if Streak(h, key) == 0 then None else Some(Bucket(Streak(h, key), start))
  {
    if h != [] {
      var n := |h| - 1;
      forall i | 0 <= i < n && h[..n][i].key == key && !h[..n][i].Queried?
        ensures h[..n][i].Failed? && start <= h[..n][i].at <= start + 900_000
        ensures Streak(h[..n][..i], key) == 0 ==> h[..n][i].at == start
      {
        assert h[..n][..i] == h[..i];
      }
      WindowCounts(h[..n], key, start);
    }
  }

  // The twentieth failure of a window blocks the key until the window's fifteen
  // minutes are over, and no longer.
  lemma {:induction false} BlockedExactly<K>(h: seq<Event<K>>, key: K, start: Millis, now: Millis)
    requires OneWindow(h, key, start)
    ensures Limited(Fold(h, key), now) <==> 20 <= Streak(h, key) && now <= start + 900_000
  {
    WindowCounts(h, key, start);
  }

  // ---------------------------------------------------------------- how many failures fit a quarter of an hour

  // One key's requests. Between its check and its record a request awaits the
  // password hash, so several may be past the check at once.
  datatype Act = Check(at: Millis) | Fail(at: Millis) | Succeed(at: Millis)
  datatype Key = Key(bucket: Option<Bucket>, inflight: nat)

  predicate Acts(k: Key, a: Act) {
    match a
    case Check(at) => !Limited(k.bucket, at)
    case Fail(_) => k.inflight > 0
    case Succeed(_) => k.inflight > 0
  }

  function Do(k: Key, a: Act): Key {
    if !Acts(k, a) then k
    else match a
      case Check(at) => Key(if k.bucket.Some? && Expired(k.bucket.value, at) then None else k.bucket, k.inflight + 1)
      case Fail(at) => Key(Some(Record(k.bucket, at)), k.inflight - 1)
      case Succeed(_) => Key(None, k.inflight - 1)
  }

  function Run(acts: seq<Act>): Key {
    if acts == [] then Key(None, 0) else Do(Run(acts[..|acts| - 1]), acts[|acts| - 1])
  }

  // The limiter's history when one key's requests act.
  function HistoryOf(acts: seq<Act>): seq<Event<()>> {
    if acts == [] then []
    else
      var prior, last := acts[..|acts| - 1], acts[|acts| - 1];
      HistoryOf(prior)
        + match last
          case Check(at) => [Queried((), at)]
          case Fail(at) => if Acts(Run(prior), last) then [Failed((), at)] else []
          case Succeed(at) => if Acts(Run(prior), last) then [Succeeded((), at)] else []
  }

  // The requests see the bucket that the history folds to, so the bounds below are
  // bounds on what the limiter answers.
  lemma {:induction false} RunIsFold(acts: seq<Act>, now: Millis)
    requires Monotone(acts) && forall i :: 0 <= i < |acts| ==> acts[i].at <= now
    ensures Agrees(Run(acts).bucket, Fold(HistoryOf(acts), ()), now)
    ensures Limited(Run(acts).bucket, now) == Limited(Fold(HistoryOf(acts), ()), now)
  {
    if acts != [] {
      var n := |acts| - 1;
      var prior, last := acts[..n], acts[n];
      RunIsFold(prior, last.at);
      var h := HistoryOf(prior);
      if HistoryOf(acts) != h {
        var e := HistoryOf(acts)[|HistoryOf(acts)| - 1];
        assert HistoryOf(acts) == h + [e];
      }
    }
  }

  predicate Within(a: Millis, at: Millis) { a <= at <= a + WINDOW_MS }

  // Failures recorded in the closed interval of fifteen minutes from `a`.
  function Recorded(acts: seq<Act>, a: Millis): nat {
    if acts == [] then 0
    else
      var last := acts[|acts| - 1];
      Recorded(acts[..|acts| - 1], a)
        + if last.Fail? && Acts(Run(acts[..|acts| - 1]), last) && Within(a, last.at) then 1 else 0
  }

  predicate Monotone(acts: seq<Act>) { forall i, j :: 0 <= i < j < |acts| ==> acts[i].at <= acts[j].at }

  predicate NoSuccess(acts: seq<Act>, a: Millis) {
    forall i :: 0 <= i < |acts| && acts[i].Succeed? ==> !Within(a, acts[i].at)
  }

  predicate Concurrency(acts: seq<Act>, c: nat) { forall i :: 0 <= i <= |acts| ==> Run(acts[..i]).inflight <= c }

  // The most one window can hold with c requests past the check at once.
  function PerWindow(c: nat): nat
    requires 1 <= c
  {
    MAX_FAILURES - 1 + c
  }

  // A window counts at most nineteen before the checks close, and then only the
  // requests already past them.
  predicate WindowOk(k: Key, c: nat)
    requires 1 <= c
  {
    && k.inflight <= c
    && (k.bucket.Some? ==>
          && 1 <= k.bucket.value.failures <= PerWindow(c)
          && (k.bucket.value.failures >= MAX_FAILURES ==> k.bucket.value.failures + k.inflight <= PerWindow(c)))
  }

  // What the failures counted from `a` on can be, by the window that is open.
  predicate CountOk(k: Key, n: nat, a: Millis, t: Millis, c: nat)
    requires 1 <= c
  {
    && n <= 2 * PerWindow(c) - 1
    && (t < a ==> n == 0)
    && (k.bucket.Some? ==>
          var b := k.bucket.value;
          && b.windowStart <= t
          && (b.windowStart < a ==> n <= b.failures - 1)
          && (Within(a, b.windowStart) ==> n <= PerWindow(c) - 1 + b.failures))
    && (k.bucket.None? && t <= a + WINDOW_MS ==> n <= PerWindow(c) - 1)
  }

  lemma {:induction false} RunCounts(acts: seq<Act>, a: Millis, c: nat)
    requires 1 <= c && Monotone(acts) && NoSuccess(acts, a) && Concurrency(acts, c) && acts != []
    ensures WindowOk(Run(acts), c) && CountOk(Run(acts), Recorded(acts, a), a, acts[|acts| - 1].at, c)
  {
    var n := |acts| - 1;
    var prior := acts[..n];
    assert acts[..|acts|] == acts;
    assert Run(acts[..|acts|]).inflight <= c;
    if prior == [] {
      assert Run(prior) == Key(None, 0) && Recorded(prior, a) == 0;
    } else {
      assert Concurrency(prior, c) by {
        forall i | 0 <= i <= |prior| ensures Run(prior[..i]).inflight <= c { assert prior[..i] == acts[..i]; }
      }
      RunCounts(prior, a, c);
    }
  }

  // Whatever the requests, no closed interval of fifteen minutes without a success
  // holds more than twice the window's failures less one.
  lemma {:induction false} IntervalBound(acts: seq<Act>, a: Millis, c: nat)
    requires 1 <= c && Monotone(acts) && NoSuccess(acts, a) && Concurrency(acts, c)
    ensures Recorded(acts, a) <= 2 * (MAX_FAILURES - 1 + c) - 1
  {
    if acts != [] { RunCounts(acts, a, c); }
  }

  // ---------------------------------------------------------------- and the bound is reached

  // n requests one after the other, all failing at the same instant; n requests
  // passing the check together, and their failures.
  function Serial(n: nat, at: Millis): seq<Act> {
    if n == 0 then [] else Serial(n - 1, at) + [Check(at)] + [Fail(at)]
  }

  function Checks(n: nat, at: Millis): seq<Act> { if n == 0 then [] else Checks(n - 1, at) + [Check(at)] }

  function Fails(n: nat, at: Millis): seq<Act> { if n == 0 then [] else Fails(n - 1, at) + [Fail(at)] }

  // Where a history has led the key, and how many failures it put into the interval.
  predicate Stands(acts: seq<Act>, k: Key, n: nat, a: Millis, c: nat) {
    Run(acts) == k && Recorded(acts, a) == n && Concurrency(acts, c)
  }

  lemma Snoc(acts: seq<Act>, x: Act, k: Key, n: nat, a: Millis, c: nat)
    requires Stands(acts, k, n, a, c) && Do(k, x).inflight <= c
    ensures Stands(acts + [x], Do(k, x), n + if x.Fail? && Acts(k, x) && Within(a, x.at) then 1 else 0, a, c)
  {
    var all := acts + [x];
    assert all[..|all| - 1] == acts;
    forall i | 0 <= i <= |all| ensures Run(all[..i]).inflight <= c {
      if i < |all| { assert all[..i] == acts[..i]; } else { assert all[..i] == all; }
    }
  }

  predicate Open(b: Option<Bucket>, at: Millis) { b.Some? && !Expired(b.value, at) }

  function AfterSerial(b: Option<Bucket>, m: nat, at: Millis): Option<Bucket> {
    if m == 0 then b
    else if Open(b, at) then Some(b.value.(failures := b.value.failures + m))
    else Some(Bucket(m, at))
  }

  predicate HasRoom(b: Option<Bucket>, m: nat, at: Millis) {
    (if Open(b, at) then b.value.failures else 0) + m <= MAX_FAILURES
  }

  lemma OneMoreFailure(b: Option<Bucket>, m: nat, at: Millis)
    requires HasRoom(b, m, at) && 0 < m
    ensures HasRoom(AfterSerial(b, m - 1, at), 1, at)
    ensures AfterSerial(AfterSerial(b, m - 1, at), 1, at) == AfterSerial(b, m, at)
  {
  }

  lemma OneFailure(acts: seq<Act>, at: Millis, b: Option<Bucket>, n: nat, a: Millis, c: nat, all: seq<Act>)
    requires Stands(acts, Key(b, 0), n, a, c) && 1 <= c && HasRoom(b, 1, at)
    requires all == acts + [Check(at)] + [Fail(at)]
    ensures Stands(all, Key(AfterSerial(b, 1, at), 0), n + (if Within(a, at) then 1 else 0), a, c)
  {
    Snoc(acts, Check(at), Key(b, 0), n, a, c);
    Snoc(acts + [Check(at)], Fail(at), Do(Key(b, 0), Check(at)), n, a, c);
  }

  // While the window has room, every request in a row is recorded.
  lemma {:induction false} SerialStands(acts: seq<Act>, m: nat, at: Millis, b: Option<Bucket>, n: nat, a: Millis,
                                        c: nat)
    requires Stands(acts, Key(b, 0), n, a, c) && 1 <= c && HasRoom(b, m, at)
    ensures Stands(acts + Serial(m, at), Key(AfterSerial(b, m, at), 0), n + (if Within(a, at) then m else 0), a, c)
    decreases m
  {
    if m == 0 {
      assert acts + Serial(0, at) == acts;
    } else {
      var prior, all := acts + Serial(m - 1, at), acts + Serial(m, at);
      SerialStands(acts, m - 1, at, b, n, a, c);
      OneMoreFailure(b, m, at);
      assert all == prior + [Check(at)] + [Fail(at)];
      OneFailure(prior, at, AfterSerial(b, m - 1, at), n + (if Within(a, at) then m - 1 else 0), a, c, all);
    }
  }

  lemma {:induction false} ChecksStand(acts: seq<Act>, m: nat, at: Millis, k: Key, n: nat, a: Millis, c: nat)
    requires Stands(acts, k, n, a, c) && Open(k.bucket, at) && !Limited(k.bucket, at) && k.inflight + m <= c
    ensures Stands(acts + Checks(m, at), k.(inflight := k.inflight + m), n, a, c)
    decreases m
  {
    if m == 0 {
      assert acts + Checks(0, at) == acts;
    } else {
      ChecksStand(acts, m - 1, at, k, n, a, c);
      Snoc(acts + Checks(m - 1, at), Check(at), k.(inflight := k.inflight + m - 1), n, a, c);
      assert acts + Checks(m - 1, at) + [Check(at)] == acts + Checks(m, at);
    }
  }

  lemma {:induction false} FailsStand(acts: seq<Act>, m: nat, at: Millis, k: Key, n: nat, a: Millis, c: nat)
    requires Stands(acts, k, n, a, c) && Open(k.bucket, at) && Within(a, at) && m <= k.inflight <= c
    ensures Stands(acts + Fails(m, at), Key(AfterSerial(k.bucket, m, at), k.inflight - m), n + m, a, c)
    decreases m
  {
    if m == 0 {
      assert acts + Fails(0, at) == acts;
    } else {
      FailsStand(acts, m - 1, at, k, n, a, c);
      var k1 := Key(AfterSerial(k.bucket, m - 1, at), k.inflight - m + 1);
      Snoc(acts + Fails(m - 1, at), Fail(at), k1, n + m - 1, a, c);
      assert acts + Fails(m - 1, at) + [Fail(at)] == acts + Fails(m, at);
    }
  }

  // Nineteen in a row at most, then as many together as may be past the check.
  function Wave(m: nat, c: nat, at: Millis): seq<Act> { Serial(m, at) + Checks(c, at) + Fails(c, at) }

  lemma WaveStands(acts: seq<Act>, m: nat, at: Millis, k: Key, n: nat, a: Millis, c: nat)
    requires Stands(acts, k, n, a, c) && k.inflight == 0 && 1 <= c && Within(a, at) && 1 <= m
    requires HasRoom(k.bucket, m + 1, at)
    ensures Stands(acts + Wave(m, c, at), Key(AfterSerial(k.bucket, m + c, at), 0), n + m + c, a, c)
  {
    var k1 := Key(AfterSerial(k.bucket, m, at), 0);
    SerialStands(acts, m, at, k.bucket, n, a, c);
    ChecksStand(acts + Serial(m, at), c, at, k1, n + m, a, c);
    FailsStand(acts + Serial(m, at) + Checks(c, at), c, at, k1.(inflight := c), n + m, a, c);
    assert acts + Serial(m, at) + Checks(c, at) + Fails(c, at) == acts + Wave(m, c, at);
  }

  predicate FailingAt(acts: seq<Act>, at: Millis) {
    forall i :: 0 <= i < |acts| ==> acts[i].at == at && !acts[i].Succeed?
  }

  lemma {:induction false} SerialShape(n: nat, at: Millis)
    ensures FailingAt(Serial(n, at), at)
  {
    if n > 0 { SerialShape(n - 1, at); }
  }

  lemma {:induction false} VolleyShape(n: nat, at: Millis)
    ensures FailingAt(Checks(n, at), at) && FailingAt(Fails(n, at), at)
  {
    if n > 0 { VolleyShape(n - 1, at); }
  }

  lemma WaveShape(m: nat, c: nat, at: Millis)
    ensures FailingAt(Wave(m, c, at), at)
  {
    SerialShape(m, at);
    VolleyShape(c, at);
  }

  lemma InOrder(xs: seq<Act>, ys: seq<Act>, zs: seq<Act>, first: Millis, second: Millis, third: Millis, a: Millis)
    requires FailingAt(xs, first) && FailingAt(ys, second) && FailingAt(zs, third) && first <= second <= third
    ensures Monotone(xs + ys + zs) && NoSuccess(xs + ys + zs, a)
  {
  }

  lemma {:induction false} WavesStand(one: nat, m: nat, n: nat, c: nat, a: Millis, second: Millis, third: Millis,
                                      acts: seq<Act>)
    requires one == 1 && m == MAX_FAILURES - 2 && n == MAX_FAILURES - 1 && 1 <= c
    requires a == 1 && second == WINDOW_MS && third == WINDOW_MS + 1
    requires acts == Serial(one, 0) + Wave(m, c, second) + Wave(n, c, third)
    ensures Concurrency(acts, c) && Recorded(acts, a) == m + c + n + c
  {
    var xs, ys := Serial(one, 0), Wave(m, c, second);
    assert [] + xs == xs;
    assert Stands([], Key(None, 0), 0, a, c);
    SerialStands([], one, 0, None, 0, a, c);
    WaveStands(xs, m, second, Key(Some(Bucket(one, 0)), 0), 0, a, c);
    WaveStands(xs + ys, n, third, Key(Some(Bucket(one + m + c, 0)), 0), m + c, a, c);
  }

  // A window opened just before the interval takes all but its first failure into it,
  // and the next window opens at the interval's end.
  lemma {:induction false} ThreeWaves(one: nat, m: nat, n: nat, c: nat, a: Millis, second: Millis, third: Millis,
                                      acts: seq<Act>)
    requires one == 1 && m == MAX_FAILURES - 2 && n == MAX_FAILURES - 1 && 1 <= c
    requires a == 1 && second == WINDOW_MS && third == WINDOW_MS + 1
    requires acts == Serial(one, 0) + Wave(m, c, second) + Wave(n, c, third)
    ensures Monotone(acts) && NoSuccess(acts, a) && Concurrency(acts, c) && Recorded(acts, a) == m + c + n + c
  {
    WavesStand(one, m, n, c, a, second, third, acts);
    SerialShape(one, 0);
    WaveShape(m, c, second);
    WaveShape(n, c, third);
    InOrder(Serial(one, 0), Wave(m, c, second), Wave(n, c, third), 0, second, third, a);
  }

  // Some history of at most c requests past the check at once records n failures in
  // the fifteen minutes from `a`.
  ghost predicate Reached(n: nat, a: Millis, c: nat) {
    exists acts :: Monotone(acts) && NoSuccess(acts, a) && Concurrency(acts, c) && Recorded(acts, a) == n
  }

  lemma ThreeWavesReach(one: nat, m: nat, n: nat, c: nat, a: Millis, second: Millis, third: Millis)
    requires one == 1 && m == MAX_FAILURES - 2 && n == MAX_FAILURES - 1 && 1 <= c
    requires a == 1 && second == WINDOW_MS && third == WINDOW_MS + 1
    ensures Reached(m + c + n + c, a, c)
  {
    ThreeWaves(one, m, n, c, a, second, third, Serial(one, 0) + Wave(m, c, second) + Wave(n, c, third));
  }

  // For every number of requests past the check at once, some history reaches the
  // bound; one request at a time reaches 39.
  lemma BoundIsReached(c: nat)
    requires 1 <= c
    ensures Reached(2 * (MAX_FAILURES - 1 + c) - 1, 1, c)
  {
    ThreeWavesReach(1, MAX_FAILURES - 2, MAX_FAILURES - 1, c, 1, WINDOW_MS, WINDOW_MS + 1);
  }
}
