/** What each session call does to the table, and who it does it for. */
module SessionLaws {
  import opened Common
  import opened SessionProtocol
  import opened SessionSafety
  import opened SessionRuns

  // ── logging out ──

  /** A logout revokes the session of the user who asks, keeping the time of an earlier revocation, and no other. */
  lemma LogoutRevokesOwn(s: Sys, c: CallId, user: UserId, t: TokenHash, now: int)
    requires c !in s.calls && t in s.store.rows && s.store.rows[t].user == user
    ensures var v := Step(Step(s, Logout(c, user, t)), LoggedOut(c, now));
            && v.calls == s.calls && v.store.made == s.store.made && v.store.families == s.store.families
            && v.store.rows.Keys == s.store.rows.Keys
            && (forall x | x in s.store.rows && x != t :: v.store.rows[x] == s.store.rows[x])
            && v.store.rows[t].revokedAt == Some(s.store.rows[t].revokedAt.GetOr(now))
            && v.store.rows[t] == s.store.rows[t].(revokedAt := v.store.rows[t].revokedAt)
  {
    var seen := Step(s, Logout(c, user, t));
    assert seen == Sys(s.store, s.calls[c := LoggingOut(t, user)]);
    assert seen.calls - {c} == s.calls;
  }

  /** Anyone else's changes nothing. */
  lemma LogoutIgnoresOthers(s: Sys, c: CallId, user: UserId, t: TokenHash)
    requires c !in s.calls && !(t in s.store.rows && s.store.rows[t].user == user)
    ensures Step(s, Logout(c, user, t)) == s
  {
    assert s.calls - {c} == s.calls;
  }

  /** Over every run, a logout about to revoke was asked for by the owner of the session it revokes. */
  lemma {:induction false} LogoutsAreTheOwners(es: seq<Event>, c: CallId)
    requires c in Run(EMPTY, es).calls && Run(EMPTY, es).calls[c].LoggingOut?
    ensures var s := Run(EMPTY, es); var k := s.calls[c];
            && Logout(c, k.user, k.token) in es
            && k.token in s.store.rows && s.store.rows[k.token].user == k.user
  {
    var rest, e := es[..|es| - 1], es[|es| - 1];
    assert es == rest + [e];
    Reachable(es);
    assert CallOk(Run(EMPTY, es).store, Run(EMPTY, es).calls[c]);
    if c in Run(EMPTY, rest).calls && Run(EMPTY, rest).calls[c] == Run(EMPTY, es).calls[c] {
      LogoutsAreTheOwners(rest, c);
    } else {
      assert e == Logout(c, Run(EMPTY, es).calls[c].user, Run(EMPTY, es).calls[c].token);
    }
  }

  // ── a revoked token ──

  /** A rotation that has found the token live and not yet claimed it. */
  predicate Aims(k: Call, t: TokenHash) {
    (k.LoadingUser? || k.Claiming?) && k.token == t
  }

  lemma NoNewAim(s: Sys, e: Event, t: TokenHash, c: CallId)
    requires t in s.store.rows && s.store.rows[t].revokedAt.Some?
    requires c in Step(s, e).calls && Aims(Step(s, e).calls[c], t)
    ensures c in s.calls && Aims(s.calls[c], t)
  {
  }

  /**
   Once a token is revoked, by a logout or otherwise, no rotation of it begun
   later is ever on its way to a claim; and none begun earlier gets one.
   */
  lemma {:induction false} RevokedIsNeverRotated(s: Sys, more: seq<Event>, t: TokenHash, c: CallId)
    requires Inv(s) && t in s.store.rows && s.store.rows[t].revokedAt.Some?
    ensures c in Run(s, more).calls && Aims(Run(s, more).calls[c], t) ==> c in s.calls && Aims(s.calls[c], t)
    ensures t in Run(s, more).store.rows && Run(s, more).store.rows[t].revokedAt == s.store.rows[t].revokedAt
    ensures Run(s, more).store.rows[t].replacedBy == s.store.rows[t].replacedBy
  {
    if more != [] {
      var rest, e := more[..|more| - 1], more[|more| - 1];
      RevokedIsNeverRotated(s, rest, t, c);
      RunKeeps(s, rest);
      StepKeeps(Run(s, rest), e);
      assert RowGrows(Run(s, rest).store, Run(s, more).store, t);
      RevokedKeepsSuccessor(Run(s, rest), e, t);
      if c in Run(s, more).calls && Aims(Run(s, more).calls[c], t) { NoNewAim(Run(s, rest), e, t, c); }
    }
  }

  lemma RevokedKeepsSuccessor(s: Sys, e: Event, t: TokenHash)
    requires Inv(s) && t in s.store.rows && s.store.rows[t].revokedAt.Some?
    ensures t in Step(s, e).store.rows && Step(s, e).store.rows[t].replacedBy == s.store.rows[t].replacedBy
  {
    if e.Created? && e.c in s.calls { assert CallOk(s.store, s.calls[e.c]); }
    if e.SignIn? { assert RowOk(s.store, t); }
  }

  // ── rotating ──

  /** Where showing a token leads: nowhere for an unknown or expired one, to the revocation for a revoked one. */
  lemma RotationBegins(s: Sys, c: CallId, t: TokenHash, now: int)
    requires c !in s.calls
    ensures var v := Step(s, Rotate(c, t, now));
            && v.store == s.store
            && (c in v.calls <==> t in s.store.rows
                                  && (s.store.rows[t].revokedAt.Some? || now < s.store.rows[t].expiresAt))
            && (c in v.calls && s.store.rows[t].revokedAt.Some? ==> v.calls[c] == Killing(s.store.rows[t].family))
            && (c in v.calls && s.store.rows[t].revokedAt.None? ==>
                  v.calls[c] == LoadingUser(t, s.store.rows[t].user, s.store.rows[t].family))
  {
  }

  /** A rotation whose user is gone, or whose claim comes too late, turns to revoking its family. */
  lemma RotationTurns(s: Sys, c: CallId, h: TokenHash, now: int)
    requires c in s.calls
    ensures s.calls[c].LoadingUser? ==>
              var v := Step(s, UserLoaded(c, false, h));
              v.store == s.store && c in v.calls && v.calls[c] == Killing(s.calls[c].family)
    ensures s.calls[c].Claiming? && s.calls[c].token in s.store.rows && s.store.rows[s.calls[c].token].revokedAt.Some? ==>
              var v := Step(s, Claimed(c, now));
              v.store == s.store && c in v.calls && v.calls[c] == Killing(s.calls[c].family)
  {
  }

  /** Signing in makes one active session, of a family of its own. */
  lemma SignInMakesOne(s: Sys, user: UserId, f: Family, t: TokenHash, expiresAt: int)
    requires Inv(s) && f !in s.store.families && t !in s.store.made
    ensures var v := Step(s, SignIn(user, f, t, expiresAt));
            && v.calls == s.calls && t in v.store.rows && t !in s.store.rows
            && v.store.rows[t] == Session(user, f, expiresAt, None, None)
            && (forall x | x in s.store.rows :: x in v.store.rows && v.store.rows[x] == s.store.rows[x] && v.store.rows[x].family != f)
            && Active(v.store, f) == {t}
  {
    assert t in s.store.rows ==> RowOk(s.store, t);
    forall x | x in s.store.rows ensures s.store.rows[x].family != f { assert RowOk(s.store, x); }
  }

  /** Revoking a user's sessions revokes those that are live, now, and touches nobody else's. */
  lemma UserIsSignedOut(s: Sys, user: UserId, now: int, t: TokenHash)
    requires t in s.store.rows
    ensures var v := Step(s, RevokeUser(user, now));
            && v.calls == s.calls && v.store.rows.Keys == s.store.rows.Keys
            && v.store.rows[t] == if s.store.rows[t].user == user && s.store.rows[t].revokedAt.None?
                                  then s.store.rows[t].(revokedAt := Some(now)) else s.store.rows[t]
  {
  }

  /** So does revoking a family, for the family. */
  lemma FamilyIsRevoked(s: Sys, c: CallId, now: int, t: TokenHash)
    requires c in s.calls && s.calls[c].Killing? && t in s.store.rows
    ensures var v := Step(s, Killed(c, now));
            && v.calls == s.calls - {c} && v.store.rows.Keys == s.store.rows.Keys
            && v.store.rows[t] == if s.store.rows[t].family == s.calls[c].family && s.store.rows[t].revokedAt.None?
                                  then s.store.rows[t].(revokedAt := Some(now)) else s.store.rows[t]
  {
  }
}
