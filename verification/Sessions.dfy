// Refresh-token sessions, PKCE codes, and the outbox notices and deletion jobs
// that accompany every revocation and removal. A step is one synchronous stretch
// of a handler; what a handler read before an `await` comes back as the step's
// arguments, so every interleaving of requests is a run.
module Sessions {
  import opened Common
  import Saga = DeletionSaga

  type UserId = nat
  type SessionId = nat
  type CodeId = nat
  type JobId = nat
  type Service = Saga.Service

  const WEEK_SECONDS: nat := 60 * 60 * 24 * 7
  const CODE_SECONDS: nat := 60

  datatype Role = Admin | Member

  // A signed refresh JWT; the nonce makes tokens distinct. SHA-256 is injective.
  datatype Token = Token(sub: UserId, nonce: nat, legacy: bool)
  datatype TokenHash = HashOf(token: Token)

  datatype Session = Session(user: UserId, hash: TokenHash, expiresAt: int, createdAt: int)
  datatype Code = Code(user: UserId, session: Option<SessionId>, expiresAt: int)

  // One `session_revoked` row of the outbox.
  datatype Notice = Notice(user: UserId, session: SessionId)

  // One deletion job with the services it has a target for.
  datatype Removal = Removal(user: UserId, services: set<Service>)

  datatype Tables = Tables(
    users: map<UserId, Role>,
    sessions: map<SessionId, Session>,
    codes: map<CodeId, Code>,
    notices: seq<Notice>,
    jobs: map<JobId, Removal>)

  // ---------------------------------------------------------------- time

  // Drizzle's timestamp columns hold whole seconds.
  function Seconds(at: Millis): int { at / 1000 }

  // The lifetime a session is created with: the preference can only shorten it.
  function MaxAge(timeoutMinutes: Option<nat>): nat {
    if timeoutMinutes.Some? then Min(timeoutMinutes.value * 60, WEEK_SECONDS) else WEEK_SECONDS
  }

  function NewSession(user: UserId, token: Token, now: Millis, timeoutMinutes: Option<nat>): Session {
    Session(user, HashOf(token), Seconds(now + 1000 * MaxAge(timeoutMinutes)), Seconds(now))
  }

  // `stored.expiresAt < new Date()` on the restored Date.
  predicate Stale(s: Session, now: Millis) { 1000 * s.expiresAt < now }

  // `lt(refreshTokens.expiresAt, new Date())` inside SQLite.
  predicate Sweepable(s: Session, now: Millis) { s.expiresAt < Seconds(now) }

  // ---------------------------------------------------------------- transactions

  predicate Owned(t: map<SessionId, Session>, id: SessionId, user: UserId) { id in t && t[id].user == user }

  // SELECT id FROM refresh_tokens WHERE user_id = ?
  predicate IsListing(t: map<SessionId, Session>, user: UserId, ids: seq<SessionId>) {
    && (forall id :: id in ids ==> Owned(t, id, user))
    && (forall id :: id in t && t[id].user == user ==> id in ids)
  }

  function Cleanups(user: UserId, ids: seq<SessionId>): seq<Notice> {
    seq(|ids|, i requires 0 <= i < |ids| => Notice(user, ids[i]))
  }

  function WithoutUser(t: map<SessionId, Session>, user: UserId): map<SessionId, Session> {
    map id | id in t && t[id].user != user :: t[id]
  }

  function LiveCodes(codes: map<CodeId, Code>, now: Millis): map<CodeId, Code> {
    map c | c in codes && Seconds(now) <= codes[c].expiresAt :: codes[c]
  }

  function EstablishIn(t: Tables, id: SessionId, s: Session): Tables {
    if s.user in t.users then t.(sessions := t.sessions[id := s]) else t
  }

  function RotateIn(t: Tables, id: SessionId, token: Token): Tables {
    if id in t.sessions then t.(sessions := t.sessions[id := t.sessions[id].(hash := HashOf(token))]) else t
  }

  function RevokeIn(t: Tables, user: UserId, ids: seq<SessionId>): Tables {
    t.(sessions := map id | id in t.sessions && !(id in ids && t.sessions[id].user == user) :: t.sessions[id],
       notices := t.notices + Cleanups(user, ids))
  }

  function IssueIn(t: Tables, code: CodeId, c: Code): Tables {
    if c.user in t.users then t.(codes := t.codes[code := c]) else t
  }

  // PATCH /password: every session goes, with its notice; one new session comes.
  function PasswordIn(t: Tables, user: UserId, ids: seq<SessionId>, id: SessionId, s: Session): Tables {
    if user !in t.users then t
    else t.(sessions := WithoutUser(t.sessions, user)[id := s], notices := t.notices + Cleanups(user, ids))
  }

  // DELETE FROM users with its cascades, after the notices and the deletion job.
  function RemoveIn(t: Tables, user: UserId, ids: seq<SessionId>, job: JobId, services: set<Service>): Tables {
    Tables(t.users - {user},
           WithoutUser(t.sessions, user),
           map c | c in t.codes && t.codes[c].user != user :: t.codes[c],
           t.notices + Cleanups(user, ids),
           t.jobs[job := Removal(user, services)])
  }

  function ForceLogoutIn(t: Tables, user: UserId, ids: seq<SessionId>): Tables {
    t.(sessions := WithoutUser(t.sessions, user), notices := t.notices + Cleanups(user, ids))
  }

  function Admins(t: Tables): set<UserId> { set u | u in t.users && t.users[u].Admin? }

  // ---------------------------------------------------------------- runs

  // What the store remembers of the past, and what requests in flight may have read.
  datatype Birth = Birth(user: UserId, at: Millis, maxAge: nat)

  datatype State = State(
    t: Tables,
    registered: set<UserId>,
    births: map<SessionId, Birth>,
    swept: map<SessionId, Millis>,
    removed: set<UserId>,
    read: set<(SessionId, UserId)>)

  datatype Step =
    | Register(user: UserId, first: bool, invited: bool)
    | Establish(id: SessionId, user: UserId, nonce: nat, now: Millis, timeout: Option<nat>)
    | ReadRefresh(id: SessionId, token: Token, now: Millis)
    | ReadCode(code: CodeId)
    | Rotate(id: SessionId, user: UserId, nonce: nat)
    | Revoke(user: UserId, ids: seq<SessionId>)
    | IssueCode(code: CodeId, user: UserId, session: Option<SessionId>, now: Millis)
    | DropCode(code: CodeId)
    | SweepCodes(now: Millis)
    | SweepSessions(user: UserId, now: Millis)
    | Password(user: UserId, ids: seq<SessionId>, id: SessionId, nonce: nat, now: Millis, timeout: Option<nat>)
    | DeleteSelf(user: UserId, role: Role, ids: seq<SessionId>, job: JobId, services: set<Service>)
    | DeleteOther(user: UserId, ids: seq<SessionId>, job: JobId, services: set<Service>)
    | ChangeRole(user: UserId, role: Role)
    | ForceLogout(user: UserId, ids: seq<SessionId>)

  // DELETE /account refuses by the role read at authentication; the admin route
  // by the role in the transaction.
  predicate Refuses(t: Tables, role: Role) { role.Admin? && |Admins(t)| <= 1 }

  predicate Enabled(s: State, e: Step) {
    match e
    // `first` was read from the users table: false means somebody had registered.
    case Register(user, first, invited) => user !in s.registered && (first || (invited && s.registered != {}))
    case Establish(id, user, _, _, _) => id !in s.births && user in s.t.users
    case ReadRefresh(id, token, now) =>
        id in s.t.sessions && s.t.sessions[id].hash == HashOf(token) && !Stale(s.t.sessions[id], now)
    case ReadCode(code) => code in s.t.codes && s.t.codes[code].session.Some?
    case Rotate(id, user, _) => (id, user) in s.read
    case Revoke(_, _) => true
    case IssueCode(code, user, session, _) =>
      code !in s.t.codes && user in s.t.users && (session.Some? ==> (session.value, user) in s.read)
    case DropCode(_) => true
    case SweepCodes(_) => true
    case SweepSessions(_, _) => true
    case Password(user, ids, id, _, _, _) => user in s.t.users && id !in s.births && IsListing(s.t.sessions, user, ids)
    case DeleteSelf(user, role, ids, job, _) =>
      IsListing(s.t.sessions, user, ids) && job !in s.t.jobs && !Refuses(s.t, role)
    case DeleteOther(user, ids, job, _) =>
      user in s.t.users && IsListing(s.t.sessions, user, ids) && job !in s.t.jobs && !Refuses(s.t, s.t.users[user])
    case ChangeRole(user, role) => user in s.t.users && (role.Member? ==> !Refuses(s.t, s.t.users[user]))
    case ForceLogout(user, ids) => IsListing(s.t.sessions, user, ids)
  }

  function Do(s: State, e: Step): State {
    if !Enabled(s, e) then s
    else match e
      case Register(user, first, _) =>
        s.(t := s.t.(users := s.t.users[user := if first then Admin else Member]), registered := s.registered + {user})
      case Establish(id, user, nonce, now, timeout) =>
        s.(t := EstablishIn(s.t, id, NewSession(user, Token(user, nonce, false), now, timeout)),
           births := s.births[id := Birth(user, now, MaxAge(timeout))],
           read := s.read + {(id, user)})
      case ReadRefresh(id, token, _) => s.(read := s.read + {(id, token.sub)})
      case ReadCode(code) => s.(read := s.read + {(s.t.codes[code].session.value, s.t.codes[code].user)})
      case Rotate(id, user, nonce) => s.(t := RotateIn(s.t, id, Token(user, nonce, false)))
      case Revoke(user, ids) => s.(t := RevokeIn(s.t, user, ids))
      case IssueCode(code, user, session, now) =>
        s.(t := IssueIn(s.t, code, Code(user, session, Seconds(now + 1000 * CODE_SECONDS))))
      case DropCode(code) => s.(t := s.t.(codes := s.t.codes - {code}))
      case SweepCodes(now) => s.(t := s.t.(codes := LiveCodes(s.t.codes, now)))
      case SweepSessions(user, now) =>
        var gone := set id | id in s.t.sessions && s.t.sessions[id].user == user && Sweepable(s.t.sessions[id], now);
        s.(t := s.t.(sessions := s.t.sessions - gone), swept := s.swept + map id | id in gone :: now)
      case Password(user, ids, id, nonce, now, timeout) =>
        s.(t := PasswordIn(s.t, user, ids, id, NewSession(user, Token(user, nonce, false), now, timeout)),
           births := s.births[id := Birth(user, now, MaxAge(timeout))])
      case DeleteSelf(user, _, ids, job, services) =>
        s.(t := RemoveIn(s.t, user, ids, job, services), removed := s.removed + {user})
      case DeleteOther(user, ids, job, services) =>
        s.(t := RemoveIn(s.t, user, ids, job, services), removed := s.removed + {user})
      case ChangeRole(user, role) => s.(t := s.t.(users := s.t.users[user := role]))
      case ForceLogout(user, ids) => s.(t := ForceLogoutIn(s.t, user, ids))
  }

  function Run(es: seq<Step>): State {
    if es == [] then State(Tables(map[], map[], map[], [], map[]), {}, map[], map[], {}, {})
    else Do(Run(es[..|es| - 1]), es[|es| - 1])
  }

  // ---------------------------------------------------------------- the invariant

  // A live row is exactly what was created, but for its rotated hash.
  predicate RowOk(r: Session, b: Birth) {
    && r.user == b.user
    && r.expiresAt == Seconds(b.at + 1000 * b.maxAge) && r.createdAt == Seconds(b.at)
    && r.hash.token.sub == r.user
    && b.maxAge <= WEEK_SECONDS
  }

  predicate SessionsOk(s: State) {
    && (forall id :: id in s.t.sessions ==> id in s.births && RowOk(s.t.sessions[id], s.births[id]))
    && (forall id :: id in s.t.sessions ==> s.t.sessions[id].user in s.t.users)
    && s.t.users.Keys <= s.registered
  }

  predicate Names(s: State, session: SessionId, user: UserId) {
    session in s.births && s.births[session].user == user
  }

  predicate CodesOk(s: State) {
    && (forall c :: c in s.t.codes ==> s.t.codes[c].user in s.t.users)
    && (forall c :: c in s.t.codes && s.t.codes[c].session.Some? ==>
        Names(s, s.t.codes[c].session.value, s.t.codes[c].user))
    && (forall p :: p in s.read ==> Names(s, p.0, p.1))
  }

  // Live, announced, or swept after its expiry.
  predicate Accounted(s: State, id: SessionId)
    requires id in s.births
  {
    || id in s.t.sessions
    || Notice(s.births[id].user, id) in s.t.notices
    || (id in s.swept && Seconds(s.births[id].at + 1000 * s.births[id].maxAge) < Seconds(s.swept[id]))
  }

  predicate Conserved(s: State) { forall id :: id in s.births ==> Accounted(s, id) }

  predicate Followed(t: Tables, user: UserId) { exists j :: j in t.jobs && t.jobs[j].user == user }

  predicate RemovalsOk(s: State) {
    && (forall u :: u in s.removed ==> Followed(s.t, u))
    && (forall u :: u in s.registered ==> u in s.t.users || u in s.removed)
  }

  predicate StateOk(s: State) {
    SessionsOk(s) && CodesOk(s) && Conserved(s) && RemovalsOk(s)
  }

  // ---------------------------------------------------------------- every step keeps it

  lemma CleanupsAll(user: UserId, ids: seq<SessionId>, id: SessionId)
    requires id in ids
    ensures Notice(user, id) in Cleanups(user, ids)
  {
    var i :| 0 <= i < |ids| && ids[i] == id;
    assert Cleanups(user, ids)[i] == Notice(user, id);
  }

  lemma StepSessions(s: State, e: Step)
    requires StateOk(s)
    ensures SessionsOk(Do(s, e))
  {
  }

  lemma StepCodes(s: State, e: Step)
    requires StateOk(s)
    ensures CodesOk(Do(s, e))
  {
  }

  predicate Removes(e: Step) { e.DeleteSelf? || e.DeleteOther? }

  lemma StepRemovals(s: State, e: Step)
    requires StateOk(s)
    ensures RemovalsOk(Do(s, e))
  {
    var s' := Do(s, e);
    forall u | u in s'.removed ensures Followed(s'.t, u) {
      if Enabled(s, e) && Removes(e) && u == e.user {
        assert s'.t.jobs[e.job].user == u;
      } else {
        assert Followed(s.t, u);
        var j :| j in s.t.jobs && s.t.jobs[j].user == u;
        assert j in s'.t.jobs && s'.t.jobs[j].user == u;
      }
    }
  }

  // Stretches that end sessions and write their notices.
  predicate Ends(e: Step) { e.Revoke? || e.Password? || e.ForceLogout? || Removes(e) }

  lemma EndsAccounted(s: State, e: Step, id: SessionId)
    requires StateOk(s) && Enabled(s, e) && Ends(e) && id in s.births
    ensures Accounted(Do(s, e), id)
  {
    assert Accounted(s, id);
    assert Do(s, e).t.notices == s.t.notices + Cleanups(e.user, e.ids);
    if id in s.t.sessions && id !in Do(s, e).t.sessions {
      assert RowOk(s.t.sessions[id], s.births[id]);
      CleanupsAll(e.user, e.ids, id);
    }
  }

  lemma StepConserved(s: State, e: Step)
    requires StateOk(s)
    ensures Conserved(Do(s, e))
  {
    var s' := Do(s, e);
    forall id | id in s'.births ensures Accounted(s', id) {
      if id in s.births {
        assert Accounted(s, id);
        if Enabled(s, e) && Ends(e) { EndsAccounted(s, e, id); }
      }
    }
  }

  lemma StepOk(s: State, e: Step)
    requires StateOk(s)
    ensures StateOk(Do(s, e))
  {
    StepSessions(s, e);
    StepCodes(s, e);
    StepConserved(s, e);
    StepRemovals(s, e);
  }

  lemma {:induction false} RunOk(es: seq<Step>)
    ensures StateOk(Run(es))
  {
    if es != [] {
      RunOk(es[..|es| - 1]);
      StepOk(Run(es[..|es| - 1]), es[|es| - 1]);
    }
  }

  // ---------------------------------------------------------------- theorems

  // Whose a token or a code is never gets confused, at any interleaving.
  lemma {:induction false} OwnershipHolds(es: seq<Step>)
    ensures var s := Run(es);
            && (forall id :: id in s.t.sessions ==> s.t.sessions[id].hash.token.sub == s.t.sessions[id].user)
            && (forall c :: c in s.t.codes && s.t.codes[c].session.Some? ==>
                  s.t.codes[c].session.value in s.births && s.births[s.t.codes[c].session.value].user ==
                      s.t.codes[c].user)
            && (forall p :: p in s.read && p.0 in s.t.sessions ==> s.t.sessions[p.0].user == p.1)
  {
    RunOk(es);
    var s := Run(es);
    forall p | p in s.read && p.0 in s.t.sessions ensures s.t.sessions[p.0].user == p.1 {
      assert Names(s, p.0, p.1) && RowOk(s.t.sessions[p.0], s.births[p.0]);
    }
    forall c | c in s.t.codes && s.t.codes[c].session.Some?
      ensures s.t.codes[c].session.value in s.births && s.births[s.t.codes[c].session.value].user == s.t.codes[c].user
    {
      assert Names(s, s.t.codes[c].session.value, s.t.codes[c].user);
    }
  }

  // So the revocation in /refresh ends the session it read, with its notice.
  lemma {:induction false} RefreshRevokes(es: seq<Step>, id: SessionId, user: UserId)
    requires (id, user) in Run(es).read
    ensures var s' := Run(es + [Revoke(user, [id])]);
            id !in s'.t.sessions && Notice(user, id) in s'.t.notices && id in s'.births && s'.births[id].user == user
  {
    var e := Revoke(user, [id]);
    RunOk(es);
    OwnershipHolds(es);
    assert Names(Run(es), id, user);
    assert (es + [e])[..|es + [e]| - 1] == es;
    CleanupsAll(user, [id], id);
  }

  // No run of rotations moves a session's owner or expiry.
  lemma {:induction false} RotationKeepsSession(es: seq<Step>, id: SessionId)
    requires id in Run(es).t.sessions
    ensures var s := Run(es);
            && id in s.births && RowOk(s.t.sessions[id], s.births[id])
  {
    RunOk(es);
  }

  lemma {:induction false} BirthsKept(es: seq<Step>, more: seq<Step>, id: SessionId)
    requires id in Run(es).births
    ensures id in Run(es + more).births && Run(es + more).births[id] == Run(es).births[id]
  {
    if more == [] {
      assert es + more == es;
    } else {
      var all := es + more;
      BirthsKept(es, more[..|more| - 1], id);
      assert all[..|all| - 1] == es + more[..|more| - 1] && all[|all| - 1] == more[|more| - 1];
    }
  }

  // The two stretches that create a session: establishSession and PATCH /password.
  predicate Creates(e: Step) { e.Establish? || e.Password? }

  function BirthOf(e: Step): Birth
    requires Creates(e)
  {
    Birth(e.user, e.now, MaxAge(e.timeout))
  }

  predicate Bears(s: State, e: Step, id: SessionId) { Creates(e) && e.id == id && Enabled(s, e) }

  predicate BornAt(es: seq<Step>, i: nat, id: SessionId) { i < |es| && Bears(Run(es[..i]), es[i], id) }

  // A session created by this step and still live after any continuation has the
  // owner and the expiry it was created with.
  lemma {:induction false} BornForever(es: seq<Step>, e: Step, more: seq<Step>, id: SessionId)
    requires Bears(Run(es), e, id)
    ensures var s := Run(es + [e] + more);
            && id in s.births && s.births[id] == BirthOf(e)
            && (id in s.t.sessions ==>
                  && s.t.sessions[id].user == e.user
                  && s.t.sessions[id].expiresAt == Seconds(e.now + 1000 * MaxAge(e.timeout)))
  {
    var hs := es + [e];
    assert hs[..|hs| - 1] == es;
    BirthsKept(hs, more, id);
    RunOk(hs + more);
    var s := Run(hs + more);
    if id in s.t.sessions { assert RowOk(s.t.sessions[id], s.births[id]); }
  }

  lemma BornLater(es: seq<Step>, n: nat, i: nat, id: SessionId)
    requires n <= |es| && BornAt(es[..n], i, id)
    ensures BornAt(es, i, id)
  {
    assert es[..n][..i] == es[..i];
  }

  // Every session was created by a step of the run, and by one only.
  lemma {:induction false} BornByStep(es: seq<Step>, id: SessionId)
    requires id in Run(es).births
    ensures exists i: nat :: BornAt(es, i, id) && Run(es).births[id] == BirthOf(es[i])
  {
    var n := |es| - 1;
    if id in Run(es[..n]).births {
      BornByStep(es[..n], id);
      var i: nat :| BornAt(es[..n], i, id) && Run(es[..n]).births[id] == BirthOf(es[..n][i]);
      BornLater(es, n, i, id);
    } else {
      assert BornAt(es, n, id);
    }
  }

  lemma BornOnce(es: seq<Step>, i: nat, j: nat, id: SessionId)
    requires i < j < |es| && BornAt(es, i, id)
    ensures id in Run(es[..j]).births && !BornAt(es, j, id)
  {
    assert es[..i + 1][..i] == es[..i];
    BirthsKept(es[..i + 1], es[i + 1..j], id);
    assert es[..i + 1] + es[i + 1..j] == es[..j];
  }

  // The token belongs to the session's creator, and the time is within the shorter of
  // the creator's preference and seven days.
  predicate InLifetime(e: Step, token: Token, at: Millis)
    requires Creates(e)
  {
    && token.sub == e.user
    && at <= e.now + 1000 * WEEK_SECONDS
    && (e.timeout.Some? ==> at <= e.now + 60_000 * e.timeout.value)
  }

  // However often it was rotated, no refresh is accepted outside the lifetime that
  // the step which created the session gave it.
  lemma {:induction false} RefreshBound(es: seq<Step>, id: SessionId, token: Token, at: Millis)
    requires Enabled(Run(es), ReadRefresh(id, token, at))
    ensures exists i: nat :: BornAt(es, i, id) && InLifetime(es[i], token, at)
  {
    RunOk(es);
    assert RowOk(Run(es).t.sessions[id], Run(es).births[id]);
    BornByStep(es, id);
    var i: nat :| BornAt(es, i, id) && Run(es).births[id] == BirthOf(es[i]);
    assert InLifetime(es[i], token, at);
  }

  // Every session id ever created is live, has a committed notice to its owner, or
  // was swept after its expiry.
  lemma {:induction false} SessionsConserved(es: seq<Step>, id: SessionId)
    requires id in Run(es).births
    ensures Accounted(Run(es), id)
  {
    RunOk(es);
  }

  lemma VanishesByRemoval(s: State, e: Step, user: UserId)
    requires user !in s.registered || user in s.t.users
    requires user in Do(s, e).registered && user !in Do(s, e).t.users
    ensures Enabled(s, e) && Removes(e) && e.user == user
  {
  }

  // Everybody who ever registered is still there or has a deletion job.
  lemma {:induction false} RemovalsFollowed(es: seq<Step>, user: UserId)
    requires user in Run(es).registered
    ensures var t := Run(es).t; user in t.users || exists j :: j in t.jobs && t.jobs[j].user == user
  {
    RunOk(es);
  }

  // ---------------------------------------------------------------- an admin remains

  predicate HasAdmin(t: Tables) { exists u :: u in t.users && t.users[u].Admin? }

  // The one step that can remove the last admin: deleting oneself with a role read
  // before a promotion.
  predicate StaleSelfDelete(s: State, e: Step) {
    && e.DeleteSelf? && Enabled(s, e)
    && e.role.Member? && Admins(s.t) == {e.user}
  }

  lemma AdminsLast(t: Tables, u: UserId)
    requires u in t.users && t.users[u].Admin? && |Admins(t)| > 1
    ensures exists v :: v in t.users && v != u && t.users[v].Admin?
  {
    var rest := Admins(t) - {u};
    assert |rest| == |Admins(t)| - 1;
    var v :| v in rest;
  }

  // Exactly when a step loses the last admin.
  lemma AdminKeptExactly(s: State, e: Step)
    requires HasAdmin(s.t) && s.t.users.Keys <= s.registered
    ensures HasAdmin(Do(s, e).t) <==> !StaleSelfDelete(s, e)
  {
    var u :| u in s.t.users && s.t.users[u].Admin?;
    assert u in Admins(s.t);
    var t' := Do(s, e).t;
    if Enabled(s, e) && (Removes(e) || e.ChangeRole?) && e.user in s.t.users && s.t.users[e.user].Admin? {
      assert e.user in Admins(s.t);
      if |Admins(s.t)| > 1 {
        AdminsLast(s.t, e.user);
        var v :| v in s.t.users && v != e.user && s.t.users[v].Admin?;
        assert v in t'.users && t'.users[v].Admin?;
      } else {
        OnlyAdmin(s.t, e.user);
        if e.ChangeRole? { assert t'.users[e.user].Admin?; }
      }
    } else if Enabled(s, e) {
      assert u in t'.users && t'.users[u].Admin?;
    }
  }

  lemma OnlyAdmin(t: Tables, u: UserId)
    requires u in Admins(t) && |Admins(t)| <= 1
    ensures Admins(t) == {u}
  {
    var rest := Admins(t) - {u};
    assert |rest| == |Admins(t)| - 1 == 0;
  }

  // The guard refuses an admin exactly when nobody else is one.
  lemma RefusesExactly(t: Tables, u: UserId)
    requires u in t.users && t.users[u].Admin?
    ensures Refuses(t, t.users[u]) <==> forall v :: v in t.users && t.users[v].Admin? ==> v == u
  {
    if |Admins(t)| > 1 {
      AdminsLast(t, u);
    } else {
      OnlyAdmin(t, u);
      assert forall v :: v in t.users && t.users[v].Admin? ==> v in Admins(t);
    }
  }

  // Nobody deletes themselves on a stale role anywhere in the run.
  ghost predicate RolesFresh(es: seq<Step>) {
    forall i :: 0 <= i < |es| ==> !StaleSelfDelete(Run(es[..i]), es[i])
  }

  lemma AdminStep(s: State, e: Step)
    requires SessionsOk(s) && !StaleSelfDelete(s, e) && (s.registered != {} ==> HasAdmin(s.t))
    ensures Do(s, e).registered != {} ==> HasAdmin(Do(s, e).t)
  {
    if s.registered != {} {
      AdminKeptExactly(s, e);
    } else if Enabled(s, e) && e.Register? {
      assert Do(s, e).t.users[e.user].Admin?;
    }
  }

  // From the first registration on there is an admin.
  lemma {:induction false} AdminRemains(es: seq<Step>)
    requires RolesFresh(es)
    ensures var s := Run(es); s.registered != {} ==> HasAdmin(s.t)
  {
    if es != [] {
      var n := |es| - 1;
      var s, e := Run(es[..n]), es[n];
      assert RolesFresh(es[..n]) by {
        forall i | 0 <= i < n ensures !StaleSelfDelete(Run(es[..n][..i]), es[..n][i]) { assert es[..n][..i] ==
            es[..i]; }
      }
      AdminRemains(es[..n]);
      RunOk(es[..n]);
      AdminStep(s, e);
    }
  }

  lemma {:induction false} RunSnoc(es: seq<Step>, e: Step)
    ensures Run(es + [e]) == Do(Run(es), e)
  {
  }

  // Nobody has a session and nothing was deleted yet.
  predicate Plain(s: State, users: map<UserId, Role>) {
    s.t.users == users && s.t.sessions == map[] && s.t.jobs == map[] && s.registered == users.Keys
  }

  lemma TwoRegister()
    ensures Plain(Run([Register(0, true, false), Register(1, false, true)]), map[0 := Admin, 1 := Member])
  {
  }

  lemma Swap(s: State)
    requires Plain(s, map[0 := Admin, 1 := Member])
    ensures Plain(Do(Do(s, ChangeRole(1, Admin)), ChangeRole(0, Member)), map[0 := Member, 1 := Admin])
  {
    var s' := Do(s, ChangeRole(1, Admin));
    assert Plain(s', map[0 := Admin, 1 := Admin]);
    assert Admins(s'.t) == {0, 1};
    assert |{0 as UserId, 1}| == 2;
  }

  lemma Vanish(s: State)
    requires Plain(s, map[0 := Member, 1 := Admin])
    ensures var s' := Do(s, DeleteSelf(1, Member, [], 0, {})); s'.registered == {0, 1} && !HasAdmin(s'.t)
  {
  }

  // Such a run exists: a member authenticates, is promoted, sees the other admin
  // demoted, and only then does the deletion commit.
  lemma LastAdminCanGo()
    ensures exists es :: Run(es).registered != {} && !HasAdmin(Run(es).t)
  {
    var e1, e2 := Register(0, true, false), Register(1, false, true);
    var e3, e4, e5 := ChangeRole(1, Admin), ChangeRole(0, Member), DeleteSelf(1, Member, [], 0, {});
    TwoRegister();
    Swap(Run([e1, e2]));
    RunSnoc([e1, e2], e3);
    RunSnoc([e1, e2] + [e3], e4);
    Vanish(Run([e1, e2] + [e3] + [e4]));
    RunSnoc([e1, e2] + [e3] + [e4], e5);
  }
}
