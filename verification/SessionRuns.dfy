/** What refresh-token rotation promises over whole runs. */
module SessionRuns {
  import opened Common
  import opened SessionProtocol
  import opened SessionSafety

  lemma Reachable(es: seq<Event>)
    ensures Inv(Run(EMPTY, es))
  {
    RunKeeps(EMPTY, es);
  }

  /** The family's unrevoked sessions. */
  function Active(w: Store, f: Family): set<TokenHash> {
    set t | t in w.rows && w.rows[t].family == f && w.rows[t].revokedAt.None?
  }

  /** The family's rotations between their claim and their create. */
  function Rotating(s: Sys, f: Family): set<CallId> {
    set c | c in s.calls && s.calls[c].Creating? && s.calls[c].family == f
  }

  // ── one live token per family ──

  /** Only the last session of a path can be unrevoked or be the one a rotation has claimed. */
  lemma LiveIsLast(w: Store, f: Family, p: seq<TokenHash>, t: TokenHash)
    requires IsPath(w.rows, f, p) && t in w.rows && w.rows[t].family == f && RowOk(w, t)
    requires w.rows[t].revokedAt.None? || (w.rows[t].replacedBy.Some? && w.rows[t].replacedBy.value !in w.rows)
    ensures t == p[|p| - 1]
  {
    forall i | 0 <= i < |p| - 1 ensures w.rows[p[i]].replacedBy.Some? && w.rows[p[i]].replacedBy.value in w.rows {
      var j := i + 1;
      assert w.rows[p[i]].replacedBy == Some(p[j]);
    }
    assert t in p;
  }

  lemma AtMostOneOf<T>(xs: set<T>)
    requires forall x, y | x in xs && y in xs :: x == y
    ensures |xs| <= 1
  {
    if xs != {} {
      var x :| x in xs;
      assert xs == {x};
    }
  }

  lemma FamilyKnown(s: Sys, f: Family)
    requires Inv(s) && (Active(s.store, f) != {} || Rotating(s, f) != {})
    ensures f in s.store.families
  {
    if Active(s.store, f) != {} {
      var t :| t in Active(s.store, f);
      assert RowOk(s.store, t);
    } else {
      var c :| c in Rotating(s, f);
      assert CallOk(s.store, s.calls[c]) && RowOk(s.store, s.calls[c].token);
    }
  }

  /** In every interleaving, active sessions plus rotations between claim and create are at most one a family. */
  lemma AtMostOneLive(es: seq<Event>, f: Family)
    ensures var s := Run(EMPTY, es);
            |Active(s.store, f)| + |Rotating(s, f)| <= 1
  {
    Reachable(es);
    var s := Run(EMPTY, es);
    if Active(s.store, f) != {} || Rotating(s, f) != {} {
      FamilyKnown(s, f);
      assert HasPath(s.store.rows, f);
      var p :| IsPath(s.store.rows, f, p);
      OneLiveOnPath(s, f, p);
    }
  }

  lemma OneLiveOnPath(s: Sys, f: Family, p: seq<TokenHash>)
    requires Inv(s) && IsPath(s.store.rows, f, p)
    ensures |Active(s.store, f)| + |Rotating(s, f)| <= 1
  {
    var last := p[|p| - 1];
    forall t | t in Active(s.store, f) ensures t == last && s.store.rows[last].replacedBy.None? {
      assert RowOk(s.store, t);
      LiveIsLast(s.store, f, p, t);
    }
    forall c | c in Rotating(s, f) ensures s.store.rows[last].replacedBy == Some(s.calls[c].heir) {
      var k := s.calls[c];
      assert CallOk(s.store, k) && RowOk(s.store, k.token);
      LiveIsLast(s.store, f, p, k.token);
    }
    AtMostOneOf(Active(s.store, f));
    forall c, d | c in Rotating(s, f) && d in Rotating(s, f) ensures c == d {
      assert Holds(s.calls[c], s.calls[c].heir) && Holds(s.calls[d], s.calls[c].heir);
    }
    AtMostOneOf(Rotating(s, f));
    if Active(s.store, f) != {} { assert Rotating(s, f) == {}; }
  }

  /** Every family is one path of sessions, each replaced by the next. */
  lemma FamilyIsAPath(es: seq<Event>, f: Family)
    requires f in Run(EMPTY, es).store.families
    ensures exists p :: IsPath(Run(EMPTY, es).store.rows, f, p)
  {
    Reachable(es);
    assert HasPath(Run(EMPTY, es).store.rows, f);
  }

  // ── each token is exchanged at most once ──

  predicate Exchanged(w: Store, v: Store, t: TokenHash) {
    && (t in w.rows ==> w.rows[t].replacedBy.None?)
    && t in v.rows && v.rows[t].replacedBy.Some?
  }

  /** How often token [t] was exchanged for another along the run. */
  ghost function Exchanges(es: seq<Event>, t: TokenHash): nat {
    if es == [] then 0
    else Exchanges(es[..|es| - 1], t) +
         (if Exchanged(Run(EMPTY, es[..|es| - 1]).store, Run(EMPTY, es).store, t) then 1 else 0)
  }

  lemma {:induction false} ExchangedOnce(es: seq<Event>, t: TokenHash)
    ensures var rows := Run(EMPTY, es).store.rows;
            Exchanges(es, t) == if t in rows && rows[t].replacedBy.Some? then 1 else 0
  {
    if es != [] {
      ExchangedOnce(es[..|es| - 1], t);
      Reachable(es[..|es| - 1]);
      StepKeeps(Run(EMPTY, es[..|es| - 1]), es[|es| - 1]);
      assert RowGrows(Run(EMPTY, es[..|es| - 1]).store, Run(EMPTY, es).store, t);
    }
  }

  /** A token is exchanged by the claim of a rotation that found its session unrevoked, and then revoked with it. */
  lemma ExchangeIsAClaim(es: seq<Event>, e: Event, t: TokenHash)
    requires Exchanged(Run(EMPTY, es).store, Step(Run(EMPTY, es), e).store, t)
    ensures var s := Run(EMPTY, es); var v := Step(s, e);
            && e.Claimed? && e.c in s.calls && s.calls[e.c].Claiming? && s.calls[e.c].token == t
            && t in s.store.rows && s.store.rows[t].revokedAt.None?
            && v.store.rows[t].revokedAt == Some(e.now)
            && v.store.rows[t].replacedBy == Some(s.calls[e.c].heir)
            && e.c in v.calls && v.calls[e.c].Creating? && v.calls[e.c].heir == s.calls[e.c].heir
  {
  }

  /** Revocations, owners, families and successors are never undone. */
  lemma NothingIsUndone(es: seq<Event>, more: seq<Event>, t: TokenHash)
    requires t in Run(EMPTY, es).store.rows
    ensures var was, now := Run(EMPTY, es).store.rows, Run(Run(EMPTY, es), more).store.rows;
            && t in now && now[t].user == was[t].user && now[t].family == was[t].family
            && (was[t].revokedAt.Some? ==> now[t].revokedAt == was[t].revokedAt)
            && (was[t].replacedBy.Some? ==> now[t].replacedBy == was[t].replacedBy)
  {
    Reachable(es);
    RunKeeps(Run(EMPTY, es), more);
    assert RowGrows(Run(EMPTY, es).store, Run(Run(EMPTY, es), more).store, t);
  }

  // ── dead families ──

  predicate Dead(s: Sys, f: Family) {
    f in s.store.families && Active(s.store, f) == {} && Rotating(s, f) == {}
  }

  lemma DeadStep(s: Sys, e: Event, f: Family)
    requires Inv(s) && Dead(s, f)
    ensures Dead(Step(s, e), f)
  {
    var t := Step(s, e);
    StepKeeps(s, e);
    forall x | x in t.store.rows && t.store.rows[x].family == f ensures t.store.rows[x].revokedAt.Some? {
      if x in s.store.rows {
        assert RowGrows(s.store, t.store, x);
        assert x !in Active(s.store, f);
      } else {
        NewRowOfFamily(s, e, f, x);
      }
    }
    forall c | c in t.calls && t.calls[c].Creating? ensures t.calls[c].family != f {
      if t.calls[c].family == f { NewRotation(s, e, f, c); }
    }
  }

  /** A new session of a known family is the create of a rotation in flight. */
  lemma NewRowOfFamily(s: Sys, e: Event, f: Family, x: TokenHash)
    requires f in s.store.families && x !in s.store.rows
    requires x in Step(s, e).store.rows && Step(s, e).store.rows[x].family == f
    ensures Rotating(s, f) != {}
  {
    assert e.c in Rotating(s, f);
  }

  /** A rotation of a family was in flight already, or has just claimed an active session. */
  lemma NewRotation(s: Sys, e: Event, f: Family, c: CallId)
    requires c in Step(s, e).calls && Step(s, e).calls[c].Creating? && Step(s, e).calls[c].family == f
    requires forall d | d in s.calls :: CallOk(s.store, s.calls[d])
    ensures c in Rotating(s, f) || Active(s.store, f) != {}
  {
    if c !in Rotating(s, f) {
      assert s.calls[c].Claiming? && CallOk(s.store, s.calls[c]);
      assert s.calls[c].token in Active(s.store, f);
    }
  }

  /** A family with no active session and no rotation in flight stays dead for ever. */
  lemma {:induction false} DeadForever(s: Sys, es: seq<Event>, f: Family)
    requires Inv(s) && Dead(s, f)
    ensures Dead(Run(s, es), f)
  {
    if es != [] {
      DeadForever(s, es[..|es| - 1], f);
      RunKeeps(s, es[..|es| - 1]);
      DeadStep(Run(s, es[..|es| - 1]), es[|es| - 1], f);
    }
  }

  lemma KillEmpties(s: Sys, e: Event, f: Family)
    requires e.Killed? && e.c in s.calls && s.calls[e.c] == Killing(f)
    ensures Active(Step(s, e).store, f) == {} && Step(s, e).store.families == s.store.families
    ensures Rotating(Step(s, e), f) == Rotating(s, f)
  {
    var t := Step(s, e);
    assert t.calls == s.calls - {e.c} && t.store.rows == RevokeFamily(s.store.rows, f, e.now);
    assert Rotating(t, f) == Rotating(s, f);
  }

  lemma CreateRevives(s: Sys, c: CallId, f: Family)
    requires c in Rotating(s, f)
    ensures exists more :: Active(Run(s, more).store, f) != {}
  {
    var t := Run(s, [Created(c, 0)]);
    assert t == Step(Run(s, []), Created(c, 0));
    assert s.calls[c].heir in Active(t.store, f);
  }

  /**
   The answer to a detected reuse, revoking the family, keeps the family from
   ever having an active session again exactly when no other rotation of it
   stood between its claim and its create at that moment.
   */
  lemma KillIsFinalIff(es: seq<Event>, e: Event, f: Family)
    requires var s := Run(EMPTY, es); e.Killed? && e.c in s.calls && s.calls[e.c] == Killing(f)
    ensures var s := Run(EMPTY, es);
            (forall more :: Active(Run(Step(s, e), more).store, f) == {}) <==> Rotating(s, f) == {}
  {
    Reachable(es);
    var s := Run(EMPTY, es);
    var t := Step(s, e);
    KillEmpties(s, e, f);
    assert f in s.store.families by { assert CallOk(s.store, s.calls[e.c]); }
    StepKeeps(s, e);
    if Rotating(s, f) == {} {
      forall more ensures Active(Run(t, more).store, f) == {} { DeadForever(t, more, f); }
    } else {
      var c :| c in Rotating(s, f);
      CreateRevives(t, c, f);
    }
  }

  predicate LivesAfter(s: Sys, more: seq<Event>, f: Family) {
    Active(Run(s, more).store, f) != {}
  }

  /**
   In every reachable state, a family can have an active session again, now or
   over some continuation, if and only if it has one or a rotation of it is
   between its claim and its create. A reuse that was detected changes nothing
   about that until the revoking write lands.
   */
  lemma RevivableIff(es: seq<Event>, f: Family)
    requires f in Run(EMPTY, es).store.families
    ensures var s := Run(EMPTY, es);
            (exists more :: LivesAfter(s, more, f)) <==> Active(s.store, f) != {} || Rotating(s, f) != {}
  {
    Reachable(es);
    var s := Run(EMPTY, es);
    if Active(s.store, f) != {} {
      assert LivesAfter(s, [], f);
    } else if Rotating(s, f) != {} {
      var c :| c in Rotating(s, f);
      CreateRevives(s, c, f);
      var more :| Active(Run(s, more).store, f) != {};
      assert LivesAfter(s, more, f);
    } else {
      forall more ensures !LivesAfter(s, more, f) { DeadForever(s, more, f); }
    }
  }

  /** A detection whose call dies, or whose revoking statement fails, leaves everything as it was. */
  lemma ForgottenReplay(s: Sys, c: CallId, t: TokenHash, now: int)
    requires c !in s.calls && t in s.store.rows && s.store.rows[t].revokedAt.Some?
    ensures var seen := Step(s, Rotate(c, t, now));
            && seen.calls == s.calls[c := Killing(s.store.rows[t].family)]
            && Step(seen, Crash(c)) == s
  {
    var seen := Step(s, Rotate(c, t, now));
    assert seen == Sys(s.store, s.calls[c := Killing(s.store.rows[t].family)]);
    assert seen.calls - {c} == s.calls;
  }

  // ── rotating works, and a replay is caught ──

  /** A live token, left alone, is exchanged for a fresh active one of the same family and owner. */
  lemma RotationCompletes(s: Sys, c: CallId, t: TokenHash, h: TokenHash, now: int, expiresAt: int)
    requires c !in s.calls && t in s.store.rows && h !in s.store.made && h !in s.store.rows
    requires s.store.rows[t].revokedAt.None? && now < s.store.rows[t].expiresAt
    ensures var v := Step(Step(Step(Step(s, Rotate(c, t, now)), UserLoaded(c, true, h)), Claimed(c, now)), Created(c, expiresAt));
            && v.calls == s.calls
            && t in v.store.rows && h in v.store.rows
            && v.store.rows[t] == s.store.rows[t].(revokedAt := Some(now), replacedBy := Some(h))
            && v.store.rows[h] == Session(s.store.rows[t].user, s.store.rows[t].family, expiresAt, None, None)
  {
    var row := s.store.rows[t];
    var s1 := Step(s, Rotate(c, t, now));
    assert s1 == Sys(s.store, s.calls[c := LoadingUser(t, row.user, row.family)]);
    var s2 := Step(s1, UserLoaded(c, true, h));
    assert s2.store.rows == s.store.rows && s2.calls == s.calls[c := Claiming(t, row.user, row.family, h)];
    var s3 := Step(s2, Claimed(c, now));
    assert s3.calls == s.calls[c := Creating(t, row.user, row.family, h)];
  }

  /** Showing a revoked token, expired or not, revokes every session of its family. */
  lemma ReplayIsCaught(s: Sys, c: CallId, t: TokenHash, now: int)
    requires c !in s.calls && t in s.store.rows && s.store.rows[t].revokedAt.Some?
    ensures var v := Step(Step(s, Rotate(c, t, now)), Killed(c, now));
            v.calls == s.calls && Active(v.store, s.store.rows[t].family) == {}
            && forall f | f != s.store.rows[t].family :: Active(v.store, f) == Active(s.store, f)
  {
    var s1 := Step(s, Rotate(c, t, now));
    assert s1 == Sys(s.store, s.calls[c := Killing(s.store.rows[t].family)]);
    var v := Step(s1, Killed(c, now));
    assert v.store.rows == RevokeFamily(s.store.rows, s.store.rows[t].family, now);
    assert v.calls == s.calls;
    forall f | f != s.store.rows[t].family ensures Active(v.store, f) == Active(s.store, f) {
      assert forall x | x in v.store.rows && v.store.rows[x].family == f :: v.store.rows[x] == s.store.rows[x];
    }
  }

  lemma Then(es: seq<Event>, e: Event) returns (longer: seq<Event>)
    ensures longer == es + [e] && Run(EMPTY, longer) == Step(Run(EMPTY, es), e)
  {
    longer := es + [e];
    assert longer[..|longer| - 1] == es;
  }

  const FIRST := Session(7, 1, 1000, None, None)

  lemma ClaimedInTurn()
    ensures var s := Step(EMPTY, SignIn(7, 1, 100, 1000));
            var t := Step(Step(Step(s, Rotate(0, 100, 10)), UserLoaded(0, true, 101)), Claimed(0, 10));
            && t.calls == map[0 := Creating(100, 7, 1, 101)]
            && t.store.rows == map[100 := FIRST.(revokedAt := Some(10), replacedBy := Some(101))]
  {
    var s := Sys(Store(map[100 := FIRST], {100}, {1}), map[]);
    assert Step(EMPTY, SignIn(7, 1, 100, 1000)) == s;
    var s1 := s.(calls := map[0 := LoadingUser(100, 7, 1)]);
    assert Step(s, Rotate(0, 100, 10)) == s1;
    var s2 := Sys(s.store.(made := {100, 101}), map[0 := Claiming(100, 7, 1, 101)]);
    assert Step(s1, UserLoaded(0, true, 101)) == s2;
  }

  /** User 7 has signed in with token 100, and its rotation to 101 has claimed and not yet created. */
  lemma ClaimedRun() returns (es: seq<Event>)
    ensures var s := Run(EMPTY, es);
            && s.calls == map[0 := Creating(100, 7, 1, 101)]
            && s.store.rows == map[100 := FIRST.(revokedAt := Some(10), replacedBy := Some(101))]
  {
    es := Then([], SignIn(7, 1, 100, 1000));
    es := Then(es, Rotate(0, 100, 10));
    es := Then(es, UserLoaded(0, true, 101));
    es := Then(es, Claimed(0, 10));
    ClaimedInTurn();
  }

  /**
   So revoking a family does not always end it: a replay is detected and its family
   revoked while the first use of the token is about to create its session,
   and that session lives on.
   */
  lemma ReuseCanBeOutlived() returns (es: seq<Event>, killed: seq<Event>)
    ensures killed < es && es[|killed|] == Killed(1, 10)
    ensures 1 in Run(EMPTY, killed).calls && Run(EMPTY, killed).calls[1] == Killing(1)
    ensures Active(Run(EMPTY, es).store, 1) != {}
  {
    es := ClaimedRun();
    es := Then(es, Rotate(1, 100, 10));
    killed := es;
    assert Run(EMPTY, killed).calls[0] == Creating(100, 7, 1, 101);
    es := Then(es, Killed(1, 10));
    es := Then(es, Created(0, 1000));
    assert 101 in Active(Run(EMPTY, es).store, 1);
  }

  lemma CreatedInTurn(s: Sys)
    requires s.calls == map[0 := Creating(100, 7, 1, 101)]
    requires s.store.rows == map[100 := FIRST.(revokedAt := Some(10), replacedBy := Some(101))]
    ensures var t := Step(s, Created(0, 1000));
            && t.calls == map[]
            && t.store.rows == s.store.rows[101 := Session(7, 1, 1000, None, None)]
  {
  }

  /**
   And it fails without any rotation in flight: a replay is detected, its call
   dies before the revoking write, and the family's live session goes on.
   */
  lemma DetectedReuseCanBeForgotten() returns (es: seq<Event>, seen: seq<Event>)
    ensures es == seen + [Crash(1)] && Run(EMPTY, seen).calls == map[1 := Killing(1)]
    ensures Run(EMPTY, es).calls == map[] && 101 in Active(Run(EMPTY, es).store, 1)
  {
    var claimed := ClaimedRun();
    CreatedInTurn(Run(EMPTY, claimed));
    var rotated := Then(claimed, Created(0, 1000));
    ForgottenReplay(Run(EMPTY, rotated), 1, 100, 10);
    seen := Then(rotated, Rotate(1, 100, 10));
    es := Then(seen, Crash(1));
  }
}
