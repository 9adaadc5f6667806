// What the handlers' stretches do to sessions, tokens and codes, said of the tables
// before and after, and what that means for every later refresh.
module SessionEffects {
  import opened Common
  import opened Sessions

  function SessionsOf(t: Tables, user: UserId): set<SessionId> {
    set id | id in t.sessions && t.sessions[id].user == user
  }

  // Nobody else's session changes.
  predicate OthersKept(t: Tables, t': Tables, user: UserId) {
    && (forall id :: id in t.sessions && t.sessions[id].user != user ==>
          id in t'.sessions && t'.sessions[id] == t.sessions[id])
    && (forall id :: id in t'.sessions && t'.sessions[id].user != user ==>
          id in t.sessions && t.sessions[id] == t'.sessions[id])
  }

  predicate Noticed(t: Tables, user: UserId, ids: set<SessionId>) {
    forall id :: id in ids ==> Notice(user, id) in t.notices
  }

  // Notices for a listing are notices for all sessions of the user.
  lemma Announced(t: Tables, t': Tables, user: UserId, ids: seq<SessionId>)
    requires IsListing(t.sessions, user, ids) && t'.notices == t.notices + Cleanups(user, ids)
    ensures Noticed(t', user, SessionsOf(t, user))
  {
    forall id | id in SessionsOf(t, user) ensures Notice(user, id) in t'.notices { CleanupsAll(user, ids, id); }
  }

  // ---------------------------------------------------------------- one stretch

  // A password change leaves its user one session, the new one; each earlier one is
  // gone and announced.
  lemma PasswordEnds(s: State, e: Step)
    requires StateOk(s) && e.Password? && Enabled(s, e)
    ensures var t' := Do(s, e).t;
            && SessionsOf(t', e.user) == {e.id} && e.id !in s.t.sessions
            && t'.sessions[e.id].hash == HashOf(Token(e.user, e.nonce, false))
            && OthersKept(s.t, t', e.user) && Noticed(t', e.user, SessionsOf(s.t, e.user))
            && t'.users == s.t.users && t'.codes == s.t.codes
  {
    Announced(s.t, Do(s, e).t, e.user, e.ids);
  }

  // A forced logout leaves its target none.
  lemma ForceLogoutEnds(s: State, e: Step)
    requires StateOk(s) && e.ForceLogout? && Enabled(s, e)
    ensures var t' := Do(s, e).t;
            && SessionsOf(t', e.user) == {}
            && OthersKept(s.t, t', e.user) && Noticed(t', e.user, SessionsOf(s.t, e.user))
            && t'.users == s.t.users && t'.codes == s.t.codes
  {
    Announced(s.t, Do(s, e).t, e.user, e.ids);
  }

  // A removal takes the user, the sessions and the codes, and nothing of anybody else.
  lemma RemovalEnds(s: State, e: Step)
    requires StateOk(s) && Removes(e) && Enabled(s, e)
    ensures var t' := Do(s, e).t;
            && t'.users == s.t.users - {e.user} && SessionsOf(t', e.user) == {}
            && OthersKept(s.t, t', e.user) && Noticed(t', e.user, SessionsOf(s.t, e.user))
            && (forall c :: c in t'.codes <==> c in s.t.codes && s.t.codes[c].user != e.user)
            && (forall c :: c in t'.codes ==> t'.codes[c] == s.t.codes[c])
  {
    Announced(s.t, Do(s, e).t, e.user, e.ids);
  }

  // A revocation ends exactly the listed sessions of its user.
  lemma RevokeEnds(s: State, e: Step)
    requires e.Revoke?
    ensures var t' := Do(s, e).t;
            && (forall id :: id in t'.sessions <==>
                  id in s.t.sessions && !(id in e.ids && s.t.sessions[id].user == e.user))
            && (forall id :: id in t'.sessions ==> t'.sessions[id] == s.t.sessions[id])
            && Noticed(t', e.user, set id | id in e.ids)
            && t'.users == s.t.users && t'.codes == s.t.codes
  {
    forall id | id in e.ids ensures Notice(e.user, id) in Do(s, e).t.notices {
      CleanupsAll(e.user, e.ids, id);
    }
  }

  // A sweep ends exactly its user's sessions whose last second is over.
  lemma SweepEnds(s: State, e: Step)
    requires e.SweepSessions?
    ensures var t' := Do(s, e).t;
            && (forall id :: id in t'.sessions <==>
                  id in s.t.sessions && !(s.t.sessions[id].user == e.user && s.t.sessions[id].expiresAt < e.now / 1000))
            && (forall id :: id in t'.sessions ==> t'.sessions[id] == s.t.sessions[id])
            && t'.users == s.t.users && t'.codes == s.t.codes && t'.notices == s.t.notices
  {
  }

  // The lifetime in seconds that a creating step asks for: seven days, or less.
  function Lifetime(e: Step): nat
    requires Creates(e)
  {
    if e.timeout.Some? && e.timeout.value < 10_080 then 60 * e.timeout.value else 604_800
  }

  // A login's session is live, with its token and its lifetime.
  lemma EstablishOpens(s: State, e: Step)
    requires e.Establish? && Enabled(s, e)
    ensures var t' := Do(s, e).t;
            && t'.sessions == s.t.sessions[e.id := Session(e.user, HashOf(Token(e.user, e.nonce, false)),
                                                           (e.now + 1000 * Lifetime(e)) / 1000, e.now / 1000)]
            && t'.users == s.t.users && t'.codes == s.t.codes && t'.notices == s.t.notices
  {
  }

  // A rotation changes the one token hash and nothing else.
  lemma RotateChanges(s: State, e: Step)
    requires e.Rotate? && Enabled(s, e) && e.id in s.t.sessions
    ensures var t' := Do(s, e).t;
            && t'.sessions.Keys == s.t.sessions.Keys
            && t'.sessions[e.id] == s.t.sessions[e.id].(hash := HashOf(Token(e.user, e.nonce, false)))
            && (forall id :: id in t'.sessions && id != e.id ==> t'.sessions[id] == s.t.sessions[id])
            && t'.users == s.t.users && t'.codes == s.t.codes && t'.notices == s.t.notices
  {
  }

  // A code names its user and session for a minute, until it is dropped.
  lemma CodesChange(s: State, e: Step)
    requires (e.IssueCode? && Enabled(s, e)) || e.DropCode? || e.SweepCodes?
    ensures var t' := Do(s, e).t;
            && (e.IssueCode? ==>
                  t'.codes == s.t.codes[e.code := Code(e.user, e.session, (e.now + 60_000) / 1000)])
            && (e.DropCode? ==> t'.codes == s.t.codes - {e.code})
            && (e.SweepCodes? ==>
                  && (forall c :: c in t'.codes <==> c in s.t.codes && e.now / 1000 <= s.t.codes[c].expiresAt)
                  && (forall c :: c in t'.codes ==> t'.codes[c] == s.t.codes[c]))
            && t'.users == s.t.users && t'.sessions == s.t.sessions && t'.notices == s.t.notices
  {
  }

  // ---------------------------------------------------------------- what has ended stays ended

  lemma StaysGone(s: State, e: Step, id: SessionId)
    requires id in s.births && id !in s.t.sessions
    ensures id in Do(s, e).births && id !in Do(s, e).t.sessions
  {
  }

  lemma {:induction false} GoneForGood(es: seq<Step>, more: seq<Step>, id: SessionId)
    requires id in Run(es).births && id !in Run(es).t.sessions
    ensures id in Run(es + more).births && id !in Run(es + more).t.sessions
  {
    if more == [] {
      assert es + more == es;
    } else {
      var all := es + more;
      GoneForGood(es, more[..|more| - 1], id);
      assert all[..|all| - 1] == es + more[..|more| - 1] && all[|all| - 1] == more[|more| - 1];
      StaysGone(Run(es + more[..|more| - 1]), more[|more| - 1], id);
    }
  }

  // The stretches that end every session of a user.
  predicate EndsAll(e: Step) { e.Password? || e.ForceLogout? || Removes(e) }

  // After a password change, a forced logout or a removal no token of an earlier
  // session of that user is accepted again, in any continuation.
  lemma {:induction false} EndedForever(es: seq<Step>, e: Step, more: seq<Step>, id: SessionId, token: Token,
                                        at: Millis)
    requires EndsAll(e) && Enabled(Run(es), e) && id in SessionsOf(Run(es).t, e.user)
    ensures id !in Run(es + [e] + more).t.sessions
    ensures !Enabled(Run(es + [e] + more), ReadRefresh(id, token, at))
  {
    RunOk(es);
    RunSnoc(es, e);
    if e.Password? {
      PasswordEnds(Run(es), e);
      assert id !in SessionsOf(Do(Run(es), e).t, e.user);
    } else if e.ForceLogout? {
      ForceLogoutEnds(Run(es), e);
    } else {
      RemovalEnds(Run(es), e);
    }
    EndedStep(Run(es), e, id);
    GoneForGood(es + [e], more, id);
  }

  lemma EndedStep(s: State, e: Step, id: SessionId)
    requires StateOk(s) && EndsAll(e) && Enabled(s, e) && id in SessionsOf(s.t, e.user)
    requires id !in SessionsOf(Do(s, e).t, e.user)
    ensures id in Do(s, e).births && id !in Do(s, e).t.sessions
  {
  }

  // And a revoked session's token is not accepted again.
  lemma {:induction false} RevokedForever(es: seq<Step>, user: UserId, ids: seq<SessionId>, more: seq<Step>,
                                          id: SessionId, token: Token, at: Millis)
    requires id in ids && id in SessionsOf(Run(es).t, user)
    ensures !Enabled(Run(es + [Revoke(user, ids)] + more), ReadRefresh(id, token, at))
  {
    RunOk(es);
    RunSnoc(es, Revoke(user, ids));
    RevokeEnds(Run(es), Revoke(user, ids));
    GoneForGood(es + [Revoke(user, ids)], more, id);
  }

  // ---------------------------------------------------------------- exactly one token works

  // The token the session was created with or last rotated to.
  function LatestToken(es: seq<Step>, id: SessionId): Option<Token> {
    if es == [] then None
    else
      var s, e := Run(es[..|es| - 1]), es[|es| - 1];
      if (Creates(e) || e.Rotate?) && e.id == id && Enabled(s, e) then Some(Token(e.user, e.nonce, false))
      else LatestToken(es[..|es| - 1], id)
  }

  lemma TokenStep(s: State, e: Step, id: SessionId)
    requires StateOk(s) && id in Do(s, e).t.sessions
    ensures if (Creates(e) || e.Rotate?) && e.id == id && Enabled(s, e)
            then Do(s, e).t.sessions[id].hash == HashOf(Token(e.user, e.nonce, false))
            else id in s.t.sessions && Do(s, e).t.sessions[id].hash == s.t.sessions[id].hash
  {
  }

  lemma {:induction false} TokenIsLatest(es: seq<Step>, id: SessionId)
    requires id in Run(es).t.sessions
    ensures LatestToken(es, id).Some? && Run(es).t.sessions[id].hash == HashOf(LatestToken(es, id).value)
  {
    var n := |es| - 1;
    RunOk(es[..n]);
    TokenStep(Run(es[..n]), es[n], id);
    if id in Run(es[..n]).t.sessions { TokenIsLatest(es[..n], id); }
  }

  // The whole seconds of the lifetime that the creating step gave.
  predicate WithinLife(e: Step, at: Millis)
    requires Creates(e)
  {
    at <= (e.now + 1000 * Lifetime(e)) / 1000 * 1000
  }

  lemma LivesTill(r: Session, e: Step, at: Millis)
    requires Creates(e) && RowOk(r, BirthOf(e))
    ensures !Stale(r, at) <==> WithinLife(e, at)
  {
  }

  // A refresh of a live session is accepted exactly for its latest token and exactly
  // until the lifetime is over that its creating step gave it.
  lemma {:induction false} RefreshExactly(es: seq<Step>, id: SessionId, token: Token, at: Millis)
    requires id in Run(es).t.sessions
    ensures exists i: nat ::
              && BornAt(es, i, id)
              && (Enabled(Run(es), ReadRefresh(id, token, at)) <==>
                    LatestToken(es, id) == Some(token) && WithinLife(es[i], at))
  {
    RunOk(es);
    TokenIsLatest(es, id);
    assert RowOk(Run(es).t.sessions[id], Run(es).births[id]);
    BornByStep(es, id);
    var i: nat :| BornAt(es, i, id) && Run(es).births[id] == BirthOf(es[i]);
    LivesTill(Run(es).t.sessions[id], es[i], at);
  }
}
