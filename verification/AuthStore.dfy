// The auth and admin handlers as methods on the store, run one at a time. `trace` is
// the stretches run so far; each handler adds its own, and `Valid` keeps the tables
// those of the step model's run of the trace, whose theorems so hold of the store.
module AuthStore {
  import opened Common
  import opened Sessions
  import opened SessionEffects

  datatype Refreshed = Rejected | Accepted(session: SessionId)
  datatype Redeemed = BadCode | Granted(user: UserId, session: Option<SessionId>)
  datatype Guarded = NotFound | Orphan | Done

  // The session row a token unlocks.
  predicate Unlocks(sessions: map<SessionId, Session>, id: SessionId, token: Token) {
    id in sessions && sessions[id].hash == HashOf(token)
  }

  // What POST /refresh accepts: an unexpired stored token of an existing user, and a
  // legacy one only from a trusted origin.
  predicate Refreshable(t: Tables, id: SessionId, token: Token, trusted: bool, now: Millis) {
    && Unlocks(t.sessions, id, token) && !Stale(t.sessions[id], now)
    && token.sub in t.users && (token.legacy ==> trusted)
  }

  ghost predicate NothingToRefresh(t: Tables, token: Token, trusted: bool, now: Millis) {
    forall id :: !Refreshable(t, id, token, trusted, now)
  }

  predicate UniqueHashes(sessions: map<SessionId, Session>) {
    forall i, j :: i in sessions && j in sessions && sessions[i].hash == sessions[j].hash ==> i == j
  }

  predicate Redeemable(codes: map<CodeId, Code>, code: CodeId, now: Millis) {
    code in codes && Seconds(now) <= codes[code].expiresAt
  }

  // The code names a session that is still there.
  predicate Bound(t: Tables, c: Code) { c.session.Some? && c.session.value in t.sessions }

  // The stretches of POST /token.
  function TakeSteps(codes: map<CodeId, Code>, code: CodeId, now: Millis): seq<Step> {
    [SweepCodes(now), ReadCode(code)] + if Redeemable(codes, code, now) then [DropCode(code)] else []
  }

  function ResumeSteps(t: Tables, c: Code, id: SessionId, nonce: nat, now: Millis, timeout: Option<nat>): seq<Step> {
    if Bound(t, c) then [Rotate(c.session.value, c.user, nonce)] else [Establish(id, c.user, nonce, now, timeout)]
  }

  function RedeemSteps(t: Tables, code: CodeId, verifierMatches: bool, trusted: bool, id: SessionId, nonce: nat,
                       now: Millis, timeout: Option<nat>): seq<Step>
  {
    TakeSteps(t.codes, code, now) +
    if trusted && verifierMatches && Redeemable(t.codes, code, now)
    then ResumeSteps(t, t.codes[code], id, nonce, now, timeout)
    else []
  }

  // The stretches of an accepted POST /refresh.
  function SpendSteps(id: SessionId, token: Token, trusted: bool, nonce: nat, now: Millis): seq<Step> {
    [ReadRefresh(id, token, now), if trusted then Rotate(id, token.sub, nonce) else Revoke(token.sub, [id])]
  }

  function RefreshSteps(id: SessionId, token: Token, trusted: bool, pkce: bool, nonce: nat, code: CodeId, now: Millis)
    : seq<Step>
  {
    SpendSteps(id, token, trusted, nonce, now) + if pkce then [IssueCode(code, token.sub, Some(id), now)] else []
  }

  class Store {
    var users: map<UserId, Role>
    var sessions: map<SessionId, Session>
    var codes: map<CodeId, Code>
    var notices: seq<Notice>
    var jobs: map<JobId, Removal>
    ghost var trace: seq<Step>
    ghost var state: State

    constructor ()
      ensures Valid() && trace == []
    {
      users, sessions, codes, notices, jobs := map[], map[], map[], [], map[];
      trace, state := [], Run([]);
    }

    ghost predicate Valid()
      reads this
    {
      state == Run(trace) && View() == state.t
    }

    ghost method Note(e: Step)
      requires state == Run(trace)
      modifies this`trace, this`state
      ensures trace == old(trace) + [e] && state == Run(trace) && state == Do(old(state), e)
    {
      RunSnoc(trace, e);
      trace, state := trace + [e], Do(state, e);
    }

    function View(): Tables
      reads this
    {
      Tables(users, sessions, codes, notices, jobs)
    }

    // ---------------------------------------------------------------- shared pieces

    method SelectSessions(user: UserId) returns (ids: seq<SessionId>)
      ensures IsListing(sessions, user, ids)
    {
      ids := [];
      var rest := sessions.Keys;
      while rest != {}
        invariant rest <= sessions.Keys
        invariant forall id :: id in ids ==> Owned(sessions, id, user)
        invariant forall id :: id in sessions && id !in rest && sessions[id].user == user ==> id in ids
        decreases |rest|
      {
        var id :| id in rest;
        rest := rest - {id};
        if sessions[id].user == user { ids := ids + [id]; }
      }
    }

    method SelectByHash(hash: TokenHash) returns (found: Option<SessionId>)
      ensures found.None? ==> forall id :: id in sessions ==> sessions[id].hash != hash
      ensures found.Some? ==> found.value in sessions && sessions[found.value].hash == hash
    {
      var rest := sessions.Keys;
      while rest != {}
        invariant rest <= sessions.Keys
        invariant forall id :: id in sessions && id !in rest ==> sessions[id].hash != hash
        decreases |rest|
      {
        var id :| id in rest;
        rest := rest - {id};
        if sessions[id].hash == hash { return Some(id); }
      }
      return None;
    }

    // DELETE FROM refresh_tokens WHERE user_id = ?
    method DeleteSessionsOf(user: UserId)
      modifies this`sessions
      ensures sessions == WithoutUser(old(sessions), user)
    {
      sessions := map id | id in sessions && sessions[id].user != user :: sessions[id];
    }

    // DELETE FROM auth_codes WHERE expires_at < ?
    method DropExpiredCodes(now: Millis)
      modifies this`codes
      ensures codes == LiveCodes(old(codes), now)
    {
      codes := map c | c in codes && !(codes[c].expiresAt < Seconds(now)) :: codes[c];
    }

    method InsertSessionCleanup(user: UserId, ids: seq<SessionId>)
      modifies this`notices
      ensures notices == old(notices) + Cleanups(user, ids)
    {
      for i := 0 to |ids|
        invariant notices == old(notices) + Cleanups(user, ids[..i])
      {
        assert Cleanups(user, ids[..i + 1]) == Cleanups(user, ids[..i]) + [Notice(user, ids[i])];
        notices := notices + [Notice(user, ids[i])];
      }
      assert ids[..|ids|] == ids;
    }

    method RevokeSessions(user: UserId, ids: seq<SessionId>)
      modifies this`sessions, this`notices
      ensures View() == RevokeIn(old(View()), user, ids)
    {
      if |ids| == 0 {
        assert sessions == RevokeIn(View(), user, ids).sessions && Cleanups(user, ids) == [];
        return;
      }
      for i := 0 to |ids|
        invariant sessions == RevokeIn(old(View()), user, ids[..i]).sessions && notices == old(notices)
      {
        if ids[i] in sessions && sessions[ids[i]].user == user { sessions := sessions - {ids[i]}; }
        assert ids[..i + 1] == ids[..i] + [ids[i]];
      }
      assert ids[..|ids|] == ids;
      InsertSessionCleanup(user, ids);
    }

    // The foreign key refuses a session for a user who is gone.
    method EstablishSession(id: SessionId, user: UserId, token: Token, now: Millis, timeout: Option<nat>)
      modifies this`sessions
      ensures View() == EstablishIn(old(View()), id, NewSession(user, token, now, timeout))
    {
      if user !in users { return; }
      var maxAgeSeconds := WEEK_SECONDS;
      if timeout.Some? { maxAgeSeconds := Min(timeout.value * 60, WEEK_SECONDS); }
      sessions := sessions[id := Session(user, HashOf(token), Seconds(now + maxAgeSeconds * 1000), Seconds(now))];
    }

    method IssueAuthCode(code: CodeId, user: UserId, session: Option<SessionId>, now: Millis)
      modifies this`codes
      ensures View() == IssueIn(old(View()), code, Code(user, session, Seconds(now + 1000 * CODE_SECONDS)))
    {
      if user in users { codes := codes[code := Code(user, session, Seconds(now + CODE_SECONDS * 1000))]; }
    }

    method RotateSession(id: SessionId, token: Token)
      modifies this`sessions
      ensures View() == RotateIn(old(View()), id, token)
    {
      if id in sessions { sessions := sessions[id := sessions[id].(hash := HashOf(token))]; }
    }

    // ---------------------------------------------------------------- registration

    method IsFirstUser() returns (first: bool)
      ensures first <==> users == map[]
    {
      first := |users| == 0;
    }

    // The transaction of the registration; `first` was read before the password was hashed.
    method InsertUser(user: UserId, first: bool, invited: bool) returns (ok: bool)
      // a fresh id; whoever was not first saw somebody registered
      requires Valid() && user !in state.registered && (first || state.registered != {})
      modifies this`users, this`trace, this`state
      ensures Valid() && trace == old(trace) + if ok then [Step.Register(user, first, invited)] else []
      ensures ok <==> first || invited
      ensures users == if ok then old(users)[user := if first then Admin else Member] else old(users)
    {
      if !first && !invited { return false; }
      Note(Step.Register(user, first, invited));
      users := users[user := if first then Admin else Member];
      return true;
    }

    // POST /register.
    method Register(user: UserId, invited: bool) returns (ok: bool)
      requires Valid() && user !in state.registered
      modifies this`users, this`trace, this`state
      ensures Valid() && (ok <==> old(users) == map[] || invited)
      ensures trace == old(trace) + if ok then [Step.Register(user, old(users) == map[], invited)] else []
      ensures users == if !ok then old(users) else old(users)[user := if old(users) == map[] then Admin else Member]
    {
      RunOk(trace);
      var first := IsFirstUser();
      if !first {
        ghost var somebody :| somebody in users;
        assert somebody in state.registered;
      }
      ok := InsertUser(user, first, invited);
    }

    // ---------------------------------------------------------------- session handlers

    // POST /login after the password was verified.
    method Login(user: UserId, pkce: bool, trusted: bool, id: SessionId, nonce: nat, code: CodeId, now: Millis,
                 timeout: Option<nat>)
      requires Valid() && user in users && id !in state.births && code !in codes
      modifies this`sessions, this`codes, this`trace, this`state
      ensures Valid() && trace == old(trace)
                + (if trusted then [Establish(id, user, nonce, now, timeout)] else [])
                + (if pkce then [IssueCode(code, user, if trusted then Some(id) else None, now)] else [])
      ensures var life := Lifetime(Establish(id, user, nonce, now, timeout));
              sessions == if !trusted then old(sessions)
                          else old(sessions)[id := Session(user, HashOf(Token(user, nonce, false)),
                                                           (now + 1000 * life) / 1000, now / 1000)]
      ensures codes == if !pkce then old(codes)
                       else old(codes)[code := Code(user, if trusted then Some(id) else None, (now + 60_000) / 1000)]
    {
      var session := None;
      if trusted {
        Note(Establish(id, user, nonce, now, timeout));
        EstablishSession(id, user, Token(user, nonce, false), now, timeout);
        session := Some(id);
      }
      if pkce {
        Note(IssueCode(code, user, session, now));
        IssueAuthCode(code, user, session, now);
      }
    }

    // Drop what has expired and take the code; a second redemption finds nothing.
    method TakeCode(code: CodeId, now: Millis) returns (stored: Option<Code>)
      requires Valid()
      modifies this`codes, this`trace, this`state
      ensures Valid() && state.births == old(state).births
      ensures trace == old(trace) + TakeSteps(old(codes), code, now)
      ensures codes == LiveCodes(old(codes), now) - {code}
      ensures stored == if Redeemable(old(codes), code, now) then Some(old(codes)[code]) else None
      ensures stored.Some? && stored.value.session.Some? ==>
                (stored.value.session.value, stored.value.user) in state.read
    {
      Note(SweepCodes(now));
      DropExpiredCodes(now);
      assert View() == state.t;
      Note(ReadCode(code));
      if code !in codes { return None; }
      stored := Some(codes[code]);
      Note(DropCode(code));
      codes := codes - {code};
    }

    // Rotate the session the code is bound to, or establish one.
    method ResumeSession(stored: Code, id: SessionId, nonce: nat, now: Millis, timeout: Option<nat>)
      returns (session: SessionId)
      requires Valid() && id !in state.births && stored.user in users
      requires stored.session.Some? ==> (stored.session.value, stored.user) in state.read
      modifies this`sessions, this`trace, this`state
      ensures Valid() && trace == old(trace) + ResumeSteps(old(View()), stored, id, nonce, now, timeout)
      ensures session == if Bound(old(View()), stored) then stored.session.value else id
      ensures session in sessions && sessions[session].hash == HashOf(Token(stored.user, nonce, false))
      ensures forall k :: k in old(sessions) && k != session ==> k in sessions && sessions[k] == old(sessions)[k]
    {
      if stored.session.Some? && stored.session.value in sessions {
        Note(Rotate(stored.session.value, stored.user, nonce));
        RotateSession(stored.session.value, Token(stored.user, nonce, false));
        return stored.session.value;
      }
      Note(Establish(id, stored.user, nonce, now, timeout));
      EstablishSession(id, stored.user, Token(stored.user, nonce, false), now, timeout);
      return id;
    }

    // POST /token: take the code, check the verifier, resume its session.
    method RedeemCode(code: CodeId, verifierMatches: bool, trusted: bool, id: SessionId, nonce: nat, now: Millis,
                      timeout: Option<nat>)
      returns (r: Redeemed)
      requires Valid() && id !in state.births
      modifies this`sessions, this`codes, this`trace, this`state
      ensures Valid()
      ensures trace == old(trace) + RedeemSteps(old(View()), code, verifierMatches, trusted, id, nonce, now, timeout)
      ensures codes == LiveCodes(old(codes), now) - {code}
      ensures r.Granted? <==> verifierMatches && Redeemable(old(codes), code, now)
      ensures r.Granted? ==>
        var c := old(codes)[code];
        && r.user == c.user
        && r.session == if trusted && !Bound(old(View()), c) then Some(id) else c.session
    {
      RunOk(trace);
      var stored := TakeCode(code, now);
      if stored.None? || !verifierMatches { return BadCode; }
      var session := stored.value.session;
      if trusted {
        var resumed := ResumeSession(stored.value, id, nonce, now, timeout);
        session := Some(resumed);
      }
      return Granted(stored.value.user, session);
    }

    // The checks of POST /refresh.
    method FindRefresh(token: Token, trusted: bool, now: Millis) returns (found: Option<SessionId>)
      // token_hash is UNIQUE
      requires UniqueHashes(sessions)
      ensures found.None? <==> NothingToRefresh(View(), token, trusted, now)
      ensures found.Some? ==> Refreshable(View(), found.value, token, trusted, now)
    {
      found := SelectByHash(HashOf(token));
      if found.None? || Stale(sessions[found.value], now) { return None; }
      if token.sub !in users { return None; }
      if token.legacy && !trusted { return None; }
      assert Refreshable(View(), found.value, token, trusted, now);
    }

    // Trusted origins rotate the token in place; for others it works once.
    method SpendToken(id: SessionId, token: Token, trusted: bool, nonce: nat, now: Millis)
      requires Valid() && Refreshable(View(), id, token, trusted, now)
      modifies this`sessions, this`notices, this`trace, this`state
      ensures Valid() && trace == old(trace) + SpendSteps(id, token, trusted, nonce, now)
      ensures (id, token.sub) in state.read
      ensures sessions ==
                if trusted
                then old(sessions)[id := old(sessions)[id].(hash := HashOf(Token(token.sub, nonce, false)))]
                else old(sessions) - {id}
      ensures notices == old(notices) + if trusted then [] else [Notice(token.sub, id)]
    {
      RunOk(trace);
      Note(ReadRefresh(id, token, now));
      if trusted {
        Note(Rotate(id, token.sub, nonce));
        RotateSession(id, Token(token.sub, nonce, false));
      } else {
        Note(Revoke(token.sub, [id]));
        RevokeSessions(token.sub, [id]);
      }
    }

    // POST /refresh.
    method Refresh(token: Token, trusted: bool, pkce: bool, nonce: nat, code: CodeId, now: Millis)
      returns (r: Refreshed)
      requires UniqueHashes(sessions)
      requires Valid() && code !in codes
      modifies this`sessions, this`codes, this`notices, this`trace, this`state
      ensures Valid()
      ensures r.Rejected? ==> trace == old(trace) && NothingToRefresh(old(View()), token, trusted, now)
      ensures r.Accepted? ==> Refreshable(old(View()), r.session, token, trusted, now)
      ensures r.Accepted? ==> trace == old(trace) + RefreshSteps(r.session, token, trusted, pkce, nonce, code, now)
    {
      var found := FindRefresh(token, trusted, now);
      if found.None? { return Rejected; }
      SpendToken(found.value, token, trusted, nonce, now);
      if pkce {
        Note(IssueCode(code, token.sub, found, now));
        IssueAuthCode(code, token.sub, found, now);
      }
      return Accepted(found.value);
    }

    method Logout(token: Token) returns (ended: Option<SessionId>)
      requires Valid()
      modifies this`sessions, this`notices, this`trace, this`state
      ensures Valid()
      ensures ended.None? ==> trace == old(trace) && forall id :: !Unlocks(sessions, id, token)
      ensures ended.Some? ==>
        && Unlocks(old(sessions), ended.value, token)
        && trace == old(trace) + [Revoke(old(sessions)[ended.value].user, [ended.value])]
        && sessions == old(sessions) - {ended.value}
        && notices == old(notices) + [Notice(old(sessions)[ended.value].user, ended.value)]
    {
      ended := SelectByHash(HashOf(token));
      if ended.Some? {
        Note(Revoke(sessions[ended.value].user, [ended.value]));
        RevokeSessions(sessions[ended.value].user, [ended.value]);
      }
    }

    // PATCH /password after the current password was verified.
    method ChangePassword(user: UserId, id: SessionId, nonce: nat, now: Millis, timeout: Option<nat>)
      returns (ids: seq<SessionId>)
      requires Valid() && id !in state.births
      modifies this`sessions, this`notices, this`trace, this`state
      ensures Valid() && IsListing(old(sessions), user, ids)
      ensures trace == old(trace) + if user in users then [Password(user, ids, id, nonce, now, timeout)] else []
      ensures user !in users ==> View() == old(View())
      ensures user in users ==>
        && SessionsOf(View(), user) == {id} && sessions[id].hash == HashOf(Token(user, nonce, false))
        && OthersKept(old(View()), View(), user) && Noticed(View(), user, SessionsOf(old(View()), user))
    {
      ids := SelectSessions(user);
      // The session insert violates the foreign key and rolls the transaction back.
      if user !in users { return; }
      RunOk(trace);
      PasswordEnds(state, Password(user, ids, id, nonce, now, timeout));
      Note(Password(user, ids, id, nonce, now, timeout));
      DeleteSessionsOf(user);
      InsertSessionCleanup(user, ids);
      EstablishSession(id, user, Token(user, nonce, false), now, timeout);
    }

    method ListSessions(user: UserId, now: Millis) returns (ids: seq<SessionId>)
      requires Valid()
      modifies this`sessions, this`trace, this`state
      ensures Valid() && trace == old(trace) + [SweepSessions(user, now)]
      ensures IsListing(sessions, user, ids)
      ensures forall id :: id in ids <==>
                id in old(sessions) && old(sessions)[id].user == user && now / 1000 <= old(sessions)[id].expiresAt
      ensures OthersKept(old(View()), View(), user)
    {
      Note(SweepSessions(user, now));
      sessions := map id | id in sessions && !(sessions[id].user == user && sessions[id].expiresAt < Seconds(now))
        :: sessions[id];
      ids := SelectSessions(user);
    }

    method DeleteSession(user: UserId, id: SessionId) returns (found: bool)
      requires Valid()
      modifies this`sessions, this`notices, this`trace, this`state
      ensures found <==> Owned(old(sessions), id, user)
      ensures Valid() && trace == old(trace) + if found then [Revoke(user, [id])] else []
      ensures sessions == if found then old(sessions) - {id} else old(sessions)
      ensures notices == old(notices) + if found then [Notice(user, id)] else []
    {
      if id !in sessions || sessions[id].user != user { return false; }
      Note(Revoke(user, [id]));
      RevokeSessions(user, [id]);
      return true;
    }

    method DeleteAllSessions(user: UserId) returns (ids: seq<SessionId>)
      requires Valid()
      modifies this`sessions, this`notices, this`trace, this`state
      ensures Valid() && IsListing(old(sessions), user, ids) && trace == old(trace) + [Revoke(user, ids)]
      ensures SessionsOf(View(), user) == {}
      ensures OthersKept(old(View()), View(), user) && Noticed(View(), user, SessionsOf(old(View()), user))
    {
      ids := SelectSessions(user);
      Note(Revoke(user, ids));
      RevokeSessions(user, ids);
      Announced(old(View()), View(), user, ids);
    }

    // ---------------------------------------------------------------- removal and roles

    method CountAdmins() returns (n: nat)
      ensures n == |Admins(View())|
    {
      var admins := set u | u in users && users[u].Admin?;
      assert admins == Admins(View());
      return |admins|;
    }

    // The body both account deletions share.
    method RemoveUser(user: UserId, job: JobId, services: set<Service>) returns (ids: seq<SessionId>)
      modifies this`users, this`sessions, this`codes, this`notices, this`jobs
      ensures IsListing(old(sessions), user, ids) && View() == RemoveIn(old(View()), user, ids, job, services)
    {
      ids := SelectSessions(user);
      InsertSessionCleanup(user, ids);
      jobs := jobs[job := Removal(user, services)];
      users := users - {user};
      DeleteSessionsOf(user);
      codes := map c | c in codes && codes[c].user != user :: codes[c];
    }

    // DELETE /account; `role` was read when the caller authenticated.
    method DeleteAccount(user: UserId, role: Role, job: JobId, services: set<Service>)
      returns (r: Guarded, ids: seq<SessionId>)
      requires Valid() && job !in jobs
      modifies this
      ensures Valid() && !r.NotFound? && (r.Orphan? <==> Refuses(old(View()), role))
      ensures IsListing(old(sessions), user, ids) || r.Orphan?
      ensures users == if r.Done? then old(users) - {user} else old(users)
      ensures r.Done? ==> SessionsOf(View(), user) == {} && Noticed(View(), user, SessionsOf(old(View()), user))
      ensures OthersKept(old(View()), View(), user)
      ensures trace == old(trace) + if r.Done? then [DeleteSelf(user, role, ids, job, services)] else []
    {
      var admins := CountAdmins();
      if role.Admin? && admins <= 1 { return Orphan, []; }
      ids := RemoveUser(user, job, services);
      Note(DeleteSelf(user, role, ids, job, services));
      Announced(old(View()), View(), user, ids);
      return Done, ids;
    }

    // DELETE /admin/users/:id re-reads the target.
    method DeleteUser(user: UserId, job: JobId, services: set<Service>) returns (r: Guarded, ids: seq<SessionId>)
      requires Valid() && job !in jobs
      modifies this
      ensures Valid() && (r.NotFound? <==> user !in old(users))
      ensures r.Orphan? <==> user in old(users) && Refuses(old(View()), old(users)[user])
      ensures IsListing(old(sessions), user, ids) || !r.Done?
      ensures users == if r.Done? then old(users) - {user} else old(users)
      ensures r.Done? ==> SessionsOf(View(), user) == {} && Noticed(View(), user, SessionsOf(old(View()), user))
      ensures OthersKept(old(View()), View(), user)
      ensures trace == old(trace) + if r.Done? then [DeleteOther(user, ids, job, services)] else []
    {
      if user !in users { return NotFound, []; }
      var admins := CountAdmins();
      if users[user].Admin? && admins <= 1 { return Orphan, []; }
      ids := RemoveUser(user, job, services);
      Note(DeleteOther(user, ids, job, services));
      Announced(old(View()), View(), user, ids);
      return Done, ids;
    }

    method SetRole(user: UserId, role: Role) returns (r: Guarded)
      requires Valid()
      modifies this`users, this`trace, this`state
      ensures r.NotFound? <==> user !in old(users)
      ensures r.Orphan? <==> user in old(users) && role.Member? && Refuses(old(View()), old(users)[user])
      ensures Valid() && trace == old(trace) + if r.Done? then [ChangeRole(user, role)] else []
      ensures users == if r.Done? then old(users)[user := role] else old(users)
    {
      if user !in users { return NotFound; }
      var admins := CountAdmins();
      if role.Member? && users[user].Admin? && admins <= 1 { return Orphan; }
      Note(ChangeRole(user, role));
      users := users[user := role];
      return Done;
    }

    method ForceLogout(user: UserId) returns (ids: seq<SessionId>)
      requires Valid()
      modifies this`sessions, this`notices, this`trace, this`state
      ensures Valid() && IsListing(old(sessions), user, ids)
      ensures trace == old(trace) + [Step.ForceLogout(user, ids)]
      ensures SessionsOf(View(), user) == {}
      ensures OthersKept(old(View()), View(), user) && Noticed(View(), user, SessionsOf(old(View()), user))
    {
      ids := SelectSessions(user);
      Note(Step.ForceLogout(user, ids));
      DeleteSessionsOf(user);
      InsertSessionCleanup(user, ids);
      Announced(old(View()), View(), user, ids);
    }
  }
}
