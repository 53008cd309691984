/**
 The auth service over a session table updated in place. Each method is one
 call running alone, but for the one logout it can let in before its claim, and
 leaves the tables as its events do in the protocol. How calls interleave at
 their awaits is the protocol's to say.
 */
module SessionBackend {
  import opened Common
  import opened SessionProtocol

  datatype Refusal = InvalidToken | TokenExpired

  /** How one event finds and leaves a call that is alone. */
  function Follow(n: Next, e: Event): Next {
    if Begins(e) then if n.call.None? then Begin(n.store, e) else n
    else if n.call.Some? && Awaits(n.call.value, e) then Continue(n.store, n.call.value, e)
    else n
  }

  function Alone(n: Next): Sys {
    Sys(n.store, if n.call.None? then map[] else map[0 := n.call.value])
  }

  lemma StepFollows(n: Next, e: Event)
    requires !Outside(e) && !e.Crash? && e.c == 0
    ensures Step(Alone(n), e) == Alone(Follow(n, e))
  {
    var s := Alone(n);
    assert s.calls - {0} == map[];
    if n.call.Some? && Awaits(n.call.value, e) {
      var m := Continue(n.store, n.call.value, e);
      assert m.call.Some? ==> s.calls[0 := m.call.value] == map[0 := m.call.value];
    }
  }

  class AuthService {
    var rows: Rows
    var made: set<TokenHash>
    var families: set<Family>

    function World(): Store
      reads this
    {
      Store(rows, made, families)
    }

    constructor ()
      ensures World() == EMPTY.store
    {
      rows, made, families := map[], {}, {};
    }

    // ── the repository ──

    method Create(token: TokenHash, user: UserId, family: Family, expiresAt: int)
      modifies this`rows
      ensures rows == CreateSession(old(rows), token, user, family, expiresAt)
    {
      rows := rows[token := Session(user, family, expiresAt, None, None)];
    }

    method ClaimRow(token: TokenHash, successor: TokenHash, now: int) returns (claimed: bool)
      modifies this`rows
      ensures (rows, claimed) == Claim(old(rows), token, successor, now)
    {
      claimed := token in rows && rows[token].revokedAt.None?;
      if claimed {
        rows := rows[token := rows[token].(revokedAt := Some(now), replacedBy := Some(successor))];
      }
    }

    method RevokeRow(token: TokenHash, now: int)
      modifies this`rows
      ensures rows == Revoke(old(rows), token, now)
    {
      if token in rows && rows[token].revokedAt.None? {
        rows := rows[token := rows[token].(revokedAt := Some(now))];
      }
      assert old(token in rows && rows[token].revokedAt.Some?) ==> rows == rows[token := rows[token]];
    }

    method RevokeFamilyRows(family: Family, now: int)
      modifies this`rows
      ensures rows == RevokeFamily(old(rows), family, now)
    {
      rows := map token | token in rows ::
          if rows[token].family == family && rows[token].revokedAt.None?
          then rows[token].(revokedAt := Some(now)) else rows[token];
    }

    method RevokeAll(user: UserId, now: int)
      modifies this`rows
      ensures World() == Step(Alone(Done(old(World()))), RevokeUser(user, now)).store
    {
      rows := map token | token in rows ::
          if rows[token].user == user && rows[token].revokedAt.None?
          then rows[token].(revokedAt := Some(now)) else rows[token];
    }

    // ── the service ──

    /** Signing in starts a family of its own. */
    method IssueTokenPair(user: UserId, family: Family, token: TokenHash, expiresAt: int)
      requires family !in families && token !in made
      modifies this
      ensures World() == Step(Alone(Done(old(World()))), SignIn(user, family, token, expiresAt)).store
    {
      made, families := made + {token}, families + {family};
      Create(token, user, family, expiresAt);
    }

    /**
     Find, load the user, claim, create; a revoked token, or one lost to a logout
     that lands while the user loads, revokes its family instead.
     */
    method RotateRefreshToken(token: TokenHash, now: int, found: bool, loggedOut: bool, heir: TokenHash, expiresAt: int)
      returns (r: Result<TokenHash, Refusal>)
      requires heir !in made
      modifies this
      ensures var loaded := Follow(Follow(Done(old(World())), Rotate(0, token, now)), UserLoaded(0, found, heir));
              var raced := if loggedOut && loaded.call.Some? && loaded.call.value.Claiming?
                           then loaded.(store := loaded.store.(rows := Revoke(loaded.store.rows, token, now))) else loaded;
              Done(World()) == Follow(Follow(Follow(raced, Claimed(0, now)), Created(0, expiresAt)), Killed(0, now))
      ensures r.Ok? <==> old(token in rows && rows[token].revokedAt.None? && now < rows[token].expiresAt)
                         && found && !loggedOut
      ensures r.Ok? ==> r.value == heir && heir in rows && rows[heir].revokedAt.None?
    {
      if token !in rows { return Err(InvalidToken); }
      var session := rows[token];
      if session.revokedAt.Some? {
        RevokeFamilyRows(session.family, now);
        return Err(InvalidToken);
      }
      if session.expiresAt <= now { return Err(TokenExpired); }
      if !found {
        RevokeFamilyRows(session.family, now);
        return Err(InvalidToken);
      }
      made := made + {heir};
      if loggedOut {
        RevokeRow(token, now);
      }
      var claimed := ClaimRow(token, heir, now);
      if !claimed {
        RevokeFamilyRows(session.family, now);
        return Err(InvalidToken);
      }
      Create(heir, session.user, session.family, expiresAt);
      return Ok(heir);
    }

    /** Terminates one session, for its owner only. */
    method Logout(user: UserId, token: TokenHash, now: int)
      modifies this`rows
      ensures Done(World()) ==
              Follow(Follow(Done(old(World())), SessionProtocol.Logout(0, user, token)), LoggedOut(0, now))
      ensures rows.Keys == old(rows).Keys && forall t | t in rows && t != token :: rows[t] == old(rows)[t]
      ensures token in rows && old(rows)[token].user == user ==>
                rows[token] == old(rows)[token].(revokedAt := Some(old(rows)[token].revokedAt.GetOr(now)))
      ensures token in rows && old(rows)[token].user != user ==> rows[token] == old(rows)[token]
    {
      if token in rows && rows[token].user == user {
        RevokeRow(token, now);
      }
    }
  }
}
