/** What every interleaving of rotations, replays, logouts and crashes keeps true of a session family. */
module SessionSafety {
  import opened Common
  import opened SessionProtocol

  // ── the invariant ──

  predicate RowOk(w: Store, t: TokenHash)
    requires t in w.rows
  {
    var row := w.rows[t];
    && t in w.made && row.family in w.families
    && (row.replacedBy.Some? ==> row.revokedAt.Some? && row.replacedBy.value in w.made)
  }

  /** The sessions of one family, oldest first: each replaced by the next, the last by none that exists. */
  ghost predicate IsPath(rows: Rows, f: Family, p: seq<TokenHash>) {
    && |p| > 0
    && (forall i | 0 <= i < |p| :: p[i] in rows && rows[p[i]].family == f)
    && (forall i, j | 0 <= i < j < |p| :: p[i] != p[j])
    && (forall t | t in rows && rows[t].family == f :: t in p)
    && (forall i, j | 0 <= i < j < |p| && j == i + 1 :: rows[p[i]].replacedBy == Some(p[j]))
    && (rows[p[|p| - 1]].replacedBy.Some? ==> rows[p[|p| - 1]].replacedBy.value !in rows)
  }

  ghost predicate HasPath(rows: Rows, f: Family) {
    exists p :: IsPath(rows, f, p)
  }

  /** No row was exchanged for [h] and none carries it: it is only in the hands of a call. */
  ghost predicate Unseen(rows: Rows, h: TokenHash) {
    h !in rows && forall t | t in rows :: rows[t].replacedBy != Some(h)
  }

  ghost predicate CallOk(w: Store, k: Call) {
    match k
    case LoadingUser(t, _, f) => t in w.rows && w.rows[t].family == f
    case Claiming(t, _, f, h) => t in w.rows && w.rows[t].family == f && h in w.made && Unseen(w.rows, h)
    case Creating(t, _, f, h) =>
      && t in w.rows && w.rows[t].family == f && h in w.made && h !in w.rows
      && (forall u | u in w.rows :: w.rows[u].replacedBy == Some(h) <==> u == t)
    case Killing(f) => f in w.families
    case LoggingOut(t, user) => t in w.rows && w.rows[t].user == user
  }

  predicate Holds(k: Call, h: TokenHash) {
    (k.Claiming? || k.Creating?) && k.heir == h
  }

  ghost predicate StoreOk(w: Store) {
    && (forall t | t in w.rows :: RowOk(w, t))
    && (forall f {:trigger HasPath(w.rows, f)} | f in w.families :: HasPath(w.rows, f))
  }

  ghost predicate Inv(s: Sys) {
    && StoreOk(s.store)
    && (forall c | c in s.calls :: CallOk(s.store, s.calls[c]))
    && (forall c, d, h | c in s.calls && d in s.calls && Holds(s.calls[c], h) && Holds(s.calls[d], h) :: c == d)
  }

  // ── what only grows ──

  predicate Kept<T(==)>(was: Option<T>, now: Option<T>) {
    was.Some? ==> now == was
  }

  /** A session never loses its owner, its family, its revocation or its successor. */
  predicate RowGrows(w: Store, v: Store, t: TokenHash) {
    t in w.rows ==>
      && t in v.rows
      && v.rows[t].user == w.rows[t].user && v.rows[t].family == w.rows[t].family
      && v.rows[t].expiresAt == w.rows[t].expiresAt
      && Kept(w.rows[t].revokedAt, v.rows[t].revokedAt)
      && Kept(w.rows[t].replacedBy, v.rows[t].replacedBy)
  }

  ghost predicate Grows(w: Store, v: Store) {
    (forall t :: RowGrows(w, v, t)) && w.made <= v.made && w.families <= v.families
  }

  // ── steps that only revoke ──

  ghost predicate OnlyRevokes(w: Store, v: Store) {
    && v.made == w.made && v.families == w.families && v.rows.Keys == w.rows.Keys
    && (forall t | t in w.rows ::
          v.rows[t] == w.rows[t]
          || (w.rows[t].revokedAt.None? && v.rows[t].revokedAt.Some?
              && v.rows[t] == w.rows[t].(revokedAt := v.rows[t].revokedAt)))
  }

  lemma RevokingKeepsPath(w: Store, v: Store, f: Family)
    requires OnlyRevokes(w, v) && HasPath(w.rows, f)
    ensures HasPath(v.rows, f)
  {
    var p :| IsPath(w.rows, f, p);
    assert IsPath(v.rows, f, p);
  }

  // ── steps that make a row, or exchange one ──

  /** The row of a claim was the last of its path and still has no successor, so the path stands. */
  lemma ClaimKeepsPath(rows: Rows, f: Family, t: TokenHash, h: TokenHash, now: int)
    requires HasPath(rows, f) && t in rows && rows[t].revokedAt.None? && rows[t].replacedBy.None? && h !in rows
    ensures HasPath(Claim(rows, t, h, now).0, f)
  {
    var p :| IsPath(rows, f, p);
    var v := Claim(rows, t, h, now).0;
    forall i | 0 <= i < |p| - 1 ensures p[i] != t { var j := i + 1; assert rows[p[i]].replacedBy == Some(p[j]); }
    assert IsPath(v, f, p);
  }

  /** Whoever is replaced by a hash that is no session's yet is the last of its path. */
  lemma AwaitedIsLast(rows: Rows, f: Family, p: seq<TokenHash>, t: TokenHash, h: TokenHash)
    requires IsPath(rows, f, p) && t in rows && rows[t].family == f && rows[t].replacedBy == Some(h) && h !in rows
    ensures t == p[|p| - 1]
  {
    forall i | 0 <= i < |p| - 1 ensures rows[p[i]].replacedBy.Some? && rows[p[i]].replacedBy.value in rows {
      var j := i + 1;
      assert rows[p[i]].replacedBy == Some(p[j]);
    }
    assert t in p;
  }

  /** A created row extends the path of its family by the successor its last session named. */
  lemma CreateKeepsPath(rows: Rows, f: Family, k: Call, expiresAt: int)
    requires HasPath(rows, f) && k.Creating? && k.token in rows && rows[k.token].family == k.family
    requires k.heir !in rows && rows[k.token].replacedBy == Some(k.heir)
    requires forall t | t in rows && t != k.token :: rows[t].replacedBy != Some(k.heir)
    ensures HasPath(CreateSession(rows, k.heir, k.user, k.family, expiresAt), f)
  {
    var p :| IsPath(rows, f, p);
    var v := CreateSession(rows, k.heir, k.user, k.family, expiresAt);
    if f == k.family {
      AwaitedIsLast(rows, f, p, k.token, k.heir);
      assert IsPath(v, f, p + [k.heir]);
    } else {
      assert p[|p| - 1] != k.token;
      assert IsPath(v, f, p);
    }
  }

  lemma SignInKeepsPath(w: Store, f: Family, e: Event)
    requires e.SignIn? && (f in w.families ==> HasPath(w.rows, f)) && f in Environment(w, e).families
    requires forall t | t in w.rows :: RowOk(w, t)
    ensures HasPath(Environment(w, e).rows, f)
  {
    var v := Environment(w, e).rows;
    if f in w.families {
      var p :| IsPath(w.rows, f, p);
      assert IsPath(v, f, p);
    } else {
      assert IsPath(v, f, [e.token]);
    }
  }

  // ── every step ──

  /** The hash a call has made and not yet turned into a session. */
  function Held(k: Option<Call>): Option<TokenHash> {
    if k.Some? && (k.value.Claiming? || k.value.Creating?) then Some(k.value.heir) else None
  }

  /**
   What a step of call [k] must deliver: a sound store that only grows, the
   facts of every call that does not hold the same hash, and the call's own
   next point with a hash that was its own or is new.
   */
  ghost predicate GoodStep(w: Store, k: Option<Call>, n: Next) {
    && StoreOk(n.store) && Grows(w, n.store)
    && (forall other | CallOk(w, other) && (Held(k).None? || Held(Some(other)) != Held(k)) :: CallOk(n.store, other))
    && (n.call.Some? ==>
          && CallOk(n.store, n.call.value)
          && (Held(n.call) == Held(k) || Held(n.call).None? || Held(n.call).value !in w.made))
  }

  lemma OthersHoldOther(s: Sys, c: CallId, n: Next, d: CallId, h: TokenHash)
    requires Inv(s) && GoodStep(s.store, if c in s.calls then Some(s.calls[c]) else None, n)
    requires d != c && d in s.calls && Holds(s.calls[d], h)
    ensures n.call.Some? ==> !Holds(n.call.value, h)
  {
    assert CallOk(s.store, s.calls[d]);
    if c in s.calls { assert !Holds(s.calls[c], h); }
  }

  lemma AdvanceKeeps(s: Sys, c: CallId, n: Next)
    requires Inv(s) && GoodStep(s.store, if c in s.calls then Some(s.calls[c]) else None, n)
    ensures Inv(Advance(s.calls, c, n))
  {
    var t := Advance(s.calls, c, n);
    forall d | d in t.calls ensures CallOk(t.store, t.calls[d]) {
      if d != c {
        assert CallOk(s.store, s.calls[d]);
        if c in s.calls && Held(Some(s.calls[d])).Some? {
          var h := Held(Some(s.calls[d])).value;
          assert Holds(s.calls[d], h);
          assert !Holds(s.calls[c], h);
        }
      }
    }
    forall d, e, h | d in t.calls && e in t.calls && Holds(t.calls[d], h) && Holds(t.calls[e], h) ensures d == e {
      if d != c { OthersHoldOther(s, c, n, d, h); }
      if e != c { OthersHoldOther(s, c, n, e, h); }
    }
  }

  lemma RevokingOk(w: Store, v: Store)
    requires StoreOk(w) && OnlyRevokes(w, v)
    ensures StoreOk(v) && Grows(w, v)
  {
    forall f | f in v.families ensures HasPath(v.rows, f) { RevokingKeepsPath(w, v, f); }
    forall t | t in v.rows ensures RowOk(v, t) { assert RowOk(w, t); }
  }

  lemma RevokingGood(w: Store, k: Option<Call>, v: Store)
    requires StoreOk(w) && OnlyRevokes(w, v)
    ensures GoodStep(w, k, Done(v))
  {
    RevokingOk(w, v);
    forall other | CallOk(w, other) ensures CallOk(v, other) { RevokingKeepsCall(w, v, other); }
  }

  lemma RevokingKeepsCall(w: Store, v: Store, k: Call)
    requires OnlyRevokes(w, v) && CallOk(w, k)
    ensures CallOk(v, k)
  {
  }

  lemma QuietGood(w: Store, k: Option<Call>, n: Next)
    requires StoreOk(w) && n.store == w
    requires n.call.Some? ==> CallOk(w, n.call.value) && Held(n.call) == None
    ensures GoodStep(w, k, n)
  {
  }

  lemma SignInGood(w: Store, e: Event)
    requires StoreOk(w) && e.SignIn?
    ensures GoodStep(w, None, Done(Environment(w, e)))
  {
    var v := Environment(w, e);
    forall f | f in v.families ensures HasPath(v.rows, f) { SignInKeepsPath(w, f, e); }
    forall t | t in v.rows ensures RowOk(v, t) { assert t in w.rows ==> RowOk(w, t); }
    forall other | CallOk(w, other) ensures CallOk(v, other) { SignInKeepsCall(w, e, other); }
  }

  lemma SignInKeepsCall(w: Store, e: Event, k: Call)
    requires e.SignIn? && CallOk(w, k) && (e.token in w.rows ==> RowOk(w, e.token))
    ensures CallOk(Environment(w, e), k)
  {
  }

  /** A hash just made is in no row and no row's successor. */
  lemma MadeHereGood(w: Store, k: Call, found: bool, h: TokenHash)
    requires StoreOk(w) && k.LoadingUser? && CallOk(w, k)
    ensures GoodStep(w, Some(k), UserStep(w, k, found, h))
  {
    assert RowOk(w, k.token);
    if found && h !in w.made {
      var v := UserStep(w, k, found, h).store;
      forall t | t in v.rows ensures RowOk(v, t) && v.rows[t].replacedBy != Some(h) { assert RowOk(w, t); }
      assert h in w.rows ==> RowOk(w, h);
      forall other | CallOk(w, other) ensures CallOk(v, other) { }
    }
  }

  lemma ClaimGood(w: Store, k: Call, now: int)
    requires StoreOk(w) && k.Claiming? && CallOk(w, k)
    ensures GoodStep(w, Some(k), ClaimStep(w, k, now))
  {
    assert RowOk(w, k.token);
    if w.rows[k.token].revokedAt.None? {
      var v := ClaimStep(w, k, now).store;
      forall f | f in v.families ensures HasPath(v.rows, f) { ClaimKeepsPath(w.rows, f, k.token, k.heir, now); }
      forall t | t in v.rows ensures RowOk(v, t) { assert RowOk(w, t); }
      forall other | CallOk(w, other) && Held(Some(other)) != Some(k.heir) ensures CallOk(v, other) {
        ClaimKeepsCall(w, k, now, other);
      }
    }
  }

  lemma ClaimKeepsCall(w: Store, k: Call, now: int, other: Call)
    requires k.Claiming? && CallOk(w, k) && RowOk(w, k.token) && w.rows[k.token].revokedAt.None?
    requires CallOk(w, other) && Held(Some(other)) != Some(k.heir)
    ensures CallOk(ClaimStep(w, k, now).store, other)
  {
  }

  lemma CreateGood(w: Store, k: Call, expiresAt: int)
    requires StoreOk(w) && k.Creating? && CallOk(w, k)
    ensures GoodStep(w, Some(k), Continue(w, k, Created(0, expiresAt)))
  {
    assert RowOk(w, k.token);
    var v := Continue(w, k, Created(0, expiresAt)).store;
    forall f | f in v.families ensures HasPath(v.rows, f) { CreateKeepsPath(w.rows, f, k, expiresAt); }
    forall t | t in v.rows ensures RowOk(v, t) { assert t in w.rows ==> RowOk(w, t); }
    forall other | CallOk(w, other) && Held(Some(other)) != Some(k.heir) ensures CallOk(v, other) {
      CreateKeepsCall(w, k, expiresAt, other);
    }
  }

  lemma CreateKeepsCall(w: Store, k: Call, expiresAt: int, other: Call)
    requires k.Creating? && CallOk(w, k) && CallOk(w, other) && Held(Some(other)) != Some(k.heir)
    ensures CallOk(Continue(w, k, Created(0, expiresAt)).store, other)
  {
  }

  lemma ContinueGood(w: Store, k: Call, e: Event)
    requires StoreOk(w) && CallOk(w, k) && Awaits(k, e)
    ensures GoodStep(w, Some(k), Continue(w, k, e))
  {
    match e
    case UserLoaded(_, found, h) => MadeHereGood(w, k, found, h);
    case Claimed(_, now) => ClaimGood(w, k, now);
    case Created(_, expiresAt) => CreateGood(w, k, expiresAt);
    case Killed(_, _) => RevokingGood(w, Some(k), Continue(w, k, e).store);
    case LoggedOut(_, _) => RevokingGood(w, Some(k), Continue(w, k, e).store);
  }

  lemma BeginGood(w: Store, e: Event)
    requires StoreOk(w) && Begins(e)
    ensures GoodStep(w, None, Begin(w, e))
  {
    if e.token in w.rows { assert RowOk(w, e.token); }
    QuietGood(w, None, Begin(w, e));
  }

  lemma EnvironmentGood(w: Store, e: Event)
    requires StoreOk(w) && Outside(e)
    ensures GoodStep(w, None, Done(Environment(w, e)))
  {
    if e.SignIn? { SignInGood(w, e); } else { RevokingGood(w, None, Environment(w, e)); }
  }

  lemma StepKeeps(s: Sys, e: Event)
    requires Inv(s)
    ensures Inv(Step(s, e)) && Grows(s.store, Step(s, e).store)
  {
    if Outside(e) {
      EnvironmentGood(s.store, e);
    } else if Begins(e) {
      if e.c !in s.calls {
        BeginGood(s.store, e);
        AdvanceKeeps(s, e.c, Begin(s.store, e));
      }
    } else if e.c in s.calls && !e.Crash? && Awaits(s.calls[e.c], e) {
      ContinueGood(s.store, s.calls[e.c], e);
      AdvanceKeeps(s, e.c, Continue(s.store, s.calls[e.c], e));
    }
  }

  lemma {:induction false} RunKeeps(s: Sys, es: seq<Event>)
    requires Inv(s)
    ensures Inv(Run(s, es)) && Grows(s.store, Run(s, es).store)
  {
    if es != [] {
      var before := es[..|es| - 1];
      RunKeeps(s, before);
      StepKeeps(Run(s, before), es[|es| - 1]);
      GrowsTransitive(s.store, Run(s, before).store, Run(s, es).store);
    }
  }

  lemma GrowsTransitive(u: Store, v: Store, w: Store)
    requires Grows(u, v) && Grows(v, w)
    ensures Grows(u, w)
  {
    forall t ensures RowGrows(u, w, t) { assert RowGrows(u, v, t) && RowGrows(v, w, t); }
  }
}
