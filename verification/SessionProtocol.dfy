/**
 Refresh-token rotation, as one deterministic machine. Rotating is three
 statements (find, claim, create) with other requests, replays, logouts and
 crashes in between; a call between two awaits sits in the table of calls, and
 an event whose call is elsewhere changes nothing.

 Session rows are keyed by their unique token hash, which stands for the row id
 as well. Hashes and family ids are fresh when they are made.
 */
module SessionProtocol {
  import opened Common

  type TokenHash = nat
  type UserId = nat
  type Family = nat
  type CallId = nat

  datatype Session = Session(
    user: UserId,
    family: Family,
    expiresAt: int,
    revokedAt: Option<int>,
    replacedBy: Option<TokenHash>)

  type Rows = map<TokenHash, Session>

  // ── the repository ──

  function CreateSession(rows: Rows, token: TokenHash, user: UserId, family: Family, expiresAt: int): Rows {
    rows[token := Session(user, family, expiresAt, None, None)]
  }

  function Revoked(row: Session, now: int): Session {
    if row.revokedAt.None? then row.(revokedAt := Some(now)) else row
  }

  /** Revokes the row and names its successor in one write; true exactly when the row was unrevoked. */
  function Claim(rows: Rows, token: TokenHash, successor: TokenHash, now: int): (Rows, bool) {
    if token in rows && rows[token].revokedAt.None?
    then (rows[token := rows[token].(revokedAt := Some(now), replacedBy := Some(successor))], true)
    else (rows, false)
  }

  function Revoke(rows: Rows, token: TokenHash, now: int): Rows {
    if token in rows then rows[token := Revoked(rows[token], now)] else rows
  }

  function RevokeFamily(rows: Rows, family: Family, now: int): Rows {
    map token | token in rows :: if rows[token].family == family then Revoked(rows[token], now) else rows[token]
  }

  function RevokeAllForUser(rows: Rows, user: UserId, now: int): Rows {
    map token | token in rows :: if rows[token].user == user then Revoked(rows[token], now) else rows[token]
  }

  // ── calls and events ──

  datatype Call =
    | LoadingUser(token: TokenHash, user: UserId, family: Family)                    // found live, loading its user
    | Claiming(token: TokenHash, user: UserId, family: Family, heir: TokenHash)     // heir made, about to claim
    | Creating(token: TokenHash, user: UserId, family: Family, heir: TokenHash)     // claimed, about to create
    | Killing(family: Family)                                                        // reuse seen, about to revoke all
    | LoggingOut(token: TokenHash, user: UserId)                                     // own session found, about to revoke

  datatype Store = Store(rows: Rows, made: set<TokenHash>, families: set<Family>)

  datatype Sys = Sys(store: Store, calls: map<CallId, Call>)

  const EMPTY := Sys(Store(map[], {}, {}), map[])

  datatype Event =
    | SignIn(user: UserId, family: Family, token: TokenHash, expiresAt: int)
    | RevokeUser(user: UserId, now: int)
    | Rotate(c: CallId, token: TokenHash, now: int)
    | Logout(c: CallId, user: UserId, token: TokenHash)
    | UserLoaded(c: CallId, found: bool, heir: TokenHash)
    | Claimed(c: CallId, now: int)
    | Created(c: CallId, expiresAt: int)
    | Killed(c: CallId, now: int)
    | LoggedOut(c: CallId, now: int)
    | Crash(c: CallId)

  /** The store after a step, and where the call that took it now waits; None when it has returned. */
  datatype Next = Next(store: Store, call: Option<Call>)

  function Done(w: Store): Next {
    Next(w, None)
  }

  function RotateStep(w: Store, token: TokenHash, now: int): Next {
    if token !in w.rows then Done(w)
    else
      var row := w.rows[token];
      if row.revokedAt.Some? then Next(w, Some(Killing(row.family)))
      else if row.expiresAt <= now then Done(w)
      else Next(w, Some(LoadingUser(token, row.user, row.family)))
  }

  /** A hash is new when it is made; one already made cannot come up again. */
  function UserStep(w: Store, k: Call, found: bool, heir: TokenHash): Next
    requires k.LoadingUser?
  {
    if !found then Next(w, Some(Killing(k.family)))
    else if heir in w.made then Next(w, Some(k))
    else Next(w.(made := w.made + {heir}), Some(Claiming(k.token, k.user, k.family, heir)))
  }

  function ClaimStep(w: Store, k: Call, now: int): Next
    requires k.Claiming?
  {
    var (rows, claimed) := Claim(w.rows, k.token, k.heir, now);
    Next(w.(rows := rows), Some(if claimed then Creating(k.token, k.user, k.family, k.heir) else Killing(k.family)))
  }

  /** A logout goes on to its write only for a session of the user who asks. */
  function LogoutStep(w: Store, user: UserId, token: TokenHash): Next {
    Next(w, if token in w.rows && w.rows[token].user == user then Some(LoggingOut(token, user)) else None)
  }

  predicate Begins(e: Event) {
    e.Rotate? || e.Logout?
  }

  function Begin(w: Store, e: Event): Next
    requires Begins(e)
  {
    match e
    case Rotate(_, token, now) => RotateStep(w, token, now)
    case Logout(_, user, token) => LogoutStep(w, user, token)
  }

  predicate Awaits(k: Call, e: Event) {
    match e
    case UserLoaded(_, _, _) => k.LoadingUser?
    case Claimed(_, _) => k.Claiming?
    case Created(_, _) => k.Creating?
    case Killed(_, _) => k.Killing?
    case LoggedOut(_, _) => k.LoggingOut?
    case _ => false
  }

  function Continue(w: Store, k: Call, e: Event): Next
    requires Awaits(k, e)
  {
    match e
    case UserLoaded(_, found, heir) => UserStep(w, k, found, heir)
    case Claimed(_, now) => ClaimStep(w, k, now)
    case Created(_, expiresAt) => Done(w.(rows := CreateSession(w.rows, k.heir, k.user, k.family, expiresAt)))
    case Killed(_, now) => Done(w.(rows := RevokeFamily(w.rows, k.family, now)))
    case LoggedOut(_, now) => Done(w.(rows := Revoke(w.rows, k.token, now)))
  }

  predicate Outside(e: Event) {
    e.SignIn? || e.RevokeUser?
  }

  function Environment(w: Store, e: Event): Store
    requires Outside(e)
  {
    match e
    case SignIn(user, family, token, expiresAt) =>
      if family in w.families || token in w.made then w
      else Store(CreateSession(w.rows, token, user, family, expiresAt), w.made + {token}, w.families + {family})
    case RevokeUser(user, now) => w.(rows := RevokeAllForUser(w.rows, user, now))
  }

  function Advance(calls: map<CallId, Call>, c: CallId, n: Next): Sys {
    Sys(n.store, if n.call.None? then calls - {c} else calls[c := n.call.value])
  }

  function Step(s: Sys, e: Event): Sys {
    if Outside(e) then s.(store := Environment(s.store, e))
    else if Begins(e) then if e.c in s.calls then s else Advance(s.calls, e.c, Begin(s.store, e))
    else if e.c !in s.calls then s
    else if e.Crash? then s.(calls := s.calls - {e.c})
    else if Awaits(s.calls[e.c], e) then Advance(s.calls, e.c, Continue(s.store, s.calls[e.c], e))
    else s
  }

  function Run(s: Sys, es: seq<Event>): Sys {
    if es == [] then s else Step(Run(s, es[..|es| - 1]), es[|es| - 1])
  }
}
