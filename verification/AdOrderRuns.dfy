/** What every interleaving of sellers, buyers and admins does to a marketplace order. */
module AdOrderRuns {
  import opened Common
  import opened AdOrderProtocol

  // ── the invariant ──

  /** The milestones an order has passed, in the order it passed them. */
  predicate StampsOk(o: Order, clock: int) {
    && o.createdAt <= clock
    && (o.acceptedAt.Some? ==> o.createdAt <= o.acceptedAt.value <= clock)
    && (o.completedAt.Some? ==> o.acceptedAt.Some? && o.acceptedAt.value <= o.completedAt.value <= clock)
    && (o.cancelledAt.Some? ==> o.acceptedAt.GetOr(o.createdAt) <= o.cancelledAt.value <= clock)
    && (match o.status
        case New => o.acceptedAt.None? && o.completedAt.None? && o.cancelledAt.None?
        case InProgress => o.acceptedAt.Some? && o.completedAt.None? && o.cancelledAt.None?
        case Completed => o.completedAt.Some? && o.cancelledAt.None?
        case Cancelled => o.cancelledAt.Some? && o.completedAt.None?)
  }

  predicate OrderOk(w: Store, oid: OrderId) {
    oid in w.orders ==>
      && StampsOk(w.orders[oid], w.clock)
      && w.orders[oid].buyer != w.orders[oid].seller
      && (w.orders[oid].isEnquiry ==> w.orders[oid].amount == 0)
  }

  /** The row a call has read, seen from now: the parties stand, and what was reached then was reached by then. */
  predicate Older(was: Order, now: Order) {
    && was.ad == now.ad && was.buyer == now.buyer && was.seller == now.seller
    && was.isEnquiry == now.isEnquiry && was.amount == now.amount && was.createdAt == now.createdAt
    && (was.acceptedAt.Some? ==> now.acceptedAt == was.acceptedAt)
    && (was.completedAt.Some? ==> now.completedAt == was.completedAt)
    && (was.cancelledAt.Some? ==> now == was)
    && (was.completedAt.Some? ==> now == was)
  }

  /** The part a user has in an order; a moderator has none. */
  predicate IsRoleOf(o: Order, user: UserId, role: Role) {
    match role
    case Seller => user == o.seller
    case Buyer => user == o.buyer && user != o.seller
    case Admin => user != o.seller && user != o.buyer
    case Stranger => true
  }

  predicate CallOk(w: Store, k: Call) {
    match k
    case Creating(_, listing, buyer, _, _) => listing.seller != buyer
    case Judging(oid, row, _, _) => oid in w.orders && Older(row, w.orders[oid]) && StampsOk(row, w.clock)
    case Moving(oid, from, user, role, next, at) =>
      && oid in w.orders && next in Allowed(role, from) && w.orders[oid].createdAt <= at <= w.clock
      && IsRoleOf(w.orders[oid], user, role)
      && (from == InProgress ==> w.orders[oid].acceptedAt.Some? && w.orders[oid].acceptedAt.value <= at)
  }

  ghost predicate Inv(s: Sys) {
    && (forall oid :: OrderOk(s.store, oid))
    && (forall c | c in s.calls :: CallOk(s.store, s.calls[c]))
  }

  /** An order is never lost, and only its status and stamps move, along the seller's table. */
  predicate OrderGrows(w: Store, v: Store, oid: OrderId) {
    oid in w.orders ==>
      && oid in v.orders && Older(w.orders[oid], v.orders[oid])
      && (v.orders[oid] == w.orders[oid] || v.orders[oid].status in SellerTransitions(w.orders[oid].status))
  }

  ghost predicate Grows(w: Store, v: Store) {
    w.clock <= v.clock && forall oid :: OrderGrows(w, v, oid)
  }

  ghost predicate GoodStep(w: Store, n: Next) {
    && (forall oid :: OrderOk(n.store, oid)) && Grows(w, n.store)
    && (n.call.Some? ==> CallOk(n.store, n.call.value))
  }

  lemma CallLasts(w: Store, v: Store, k: Call)
    requires CallOk(w, k) && Grows(w, v)
    ensures CallOk(v, k)
  {
    if !k.Creating? { assert OrderGrows(w, v, k.oid); }
  }

  lemma MovedRow(w: Store, k: Call, e: Event)
    requires k.Moving? && CallOk(w, k) && e.Moved? && OrderOk(w, k.oid)
    ensures var v := Continue(w, k, e).store; OrderOk(v, k.oid) && OrderGrows(w, v, k.oid)
  {
  }

  lemma MoveGood(w: Store, k: Call, e: Event)
    requires (forall oid :: OrderOk(w, oid)) && k.Moving? && CallOk(w, k) && e.Moved?
    ensures GoodStep(w, Continue(w, k, e))
  {
    var v := Continue(w, k, e).store;
    assert OrderOk(w, k.oid);
    MovedRow(w, k, e);
    forall oid ensures OrderOk(v, oid) && OrderGrows(w, v, oid) {
      assert OrderOk(w, oid);
      assert oid != k.oid && oid in w.orders ==> v.orders[oid] == w.orders[oid];
    }
  }

  lemma CreateGood(w: Store, k: Call, oid: OrderId)
    requires (forall oid :: OrderOk(w, oid)) && k.Creating? && CallOk(w, k)
    ensures GoodStep(w, CreateStep(w, k, oid))
  {
    var v := CreateStep(w, k, oid).store;
    forall other ensures OrderOk(v, other) && OrderGrows(w, v, other) { assert OrderOk(w, other); }
  }

  lemma QuietGood(w: Store, n: Next)
    requires (forall oid :: OrderOk(w, oid)) && n.store.orders == w.orders && w.clock <= n.store.clock
    requires n.call.Some? ==> CallOk(n.store, n.call.value)
    ensures GoodStep(w, n)
  {
    forall oid ensures OrderOk(n.store, oid) && OrderGrows(w, n.store, oid) { assert OrderOk(w, oid); }
  }

  lemma ContinueGood(w: Store, k: Call, e: Event)
    requires (forall oid :: OrderOk(w, oid)) && CallOk(w, k) && Awaits(k, e)
    ensures GoodStep(w, Continue(w, k, e))
  {
    match e
    case Created(_, oid) => CreateGood(w, k, oid);
    case Judged(_, _) => QuietGood(w, Continue(w, k, e));
    case Moved(_) => MoveGood(w, k, e);
  }

  lemma BeginGood(w: Store, e: Event)
    requires (forall oid :: OrderOk(w, oid)) && Begins(e)
    ensures GoodStep(w, Begin(w, e))
  {
    if e.SetStatus? { assert OrderOk(w, e.oid); }
    QuietGood(w, Begin(w, e));
  }

  lemma AdvanceKeeps(s: Sys, c: CallId, n: Next)
    requires Inv(s) && GoodStep(s.store, n)
    ensures Inv(Advance(s.calls, c, n)) && Grows(s.store, n.store)
  {
    var t := Advance(s.calls, c, n);
    forall d | d in t.calls ensures CallOk(t.store, t.calls[d]) {
      if d != c { CallLasts(s.store, n.store, s.calls[d]); }
    }
  }

  lemma StepKeeps(s: Sys, e: Event)
    requires Inv(s)
    ensures Inv(Step(s, e)) && Grows(s.store, Step(s, e).store)
  {
    var t := Step(s, e);
    if Outside(e) {
      QuietGood(s.store, Done(t.store));
      forall c | c in t.calls ensures CallOk(t.store, t.calls[c]) { CallLasts(s.store, t.store, s.calls[c]); }
    } else if Begins(e) && e.c !in s.calls {
      BeginGood(s.store, e);
      AdvanceKeeps(s, e.c, Begin(s.store, e));
    } else if e.c in s.calls && Awaits(s.calls[e.c], e) {
      ContinueGood(s.store, s.calls[e.c], e);
      AdvanceKeeps(s, e.c, Continue(s.store, s.calls[e.c], e));
    } else {
      QuietGood(s.store, Done(s.store));
    }
  }

  lemma {:induction false} Reachable(es: seq<Event>)
    ensures Inv(Run(EMPTY, es))
  {
    if es != [] {
      Reachable(es[..|es| - 1]);
      StepKeeps(Run(EMPTY, es[..|es| - 1]), es[|es| - 1]);
    }
  }

  // ── the life of one order ──

  /** The statuses an order has had, in order. */
  function Journey(es: seq<Event>, oid: OrderId): seq<Status> {
    if es == [] || oid !in Run(EMPTY, es).store.orders then []
    else
      var earlier, now := Journey(es[..|es| - 1], oid), Run(EMPTY, es).store.orders[oid].status;
      if earlier != [] && earlier[|earlier| - 1] == now then earlier else earlier + [now]
  }

  ghost predicate FollowsTable(j: seq<Status>) {
    |j| > 0 && j[0] == New && forall i, k | 0 <= i < k < |j| && k == i + 1 :: j[k] in SellerTransitions(j[i])
  }

  const JOURNEYS: set<seq<Status>> :=
    {[New], [New, InProgress], [New, InProgress, Completed], [New, Cancelled], [New, InProgress, Cancelled]}

  /** From new to in progress to completed, and cancelled from the first two only: there are five journeys. */
  lemma FiveJourneys(j: seq<Status>)
    requires FollowsTable(j)
    ensures j in JOURNEYS
  {
    assert |j| > 1 ==> j[1] in SellerTransitions(j[0]);
    assert |j| > 2 ==> j[2] in SellerTransitions(j[1]);
    assert |j| > 3 ==> j[3] in SellerTransitions(j[2]);
    assert j == if |j| == 1 then [j[0]] else if |j| == 2 then [j[0], j[1]] else [j[0], j[1], j[2]];
  }

  lemma {:induction false} OrdersFollowTheTable(es: seq<Event>, oid: OrderId)
    ensures var orders, j := Run(EMPTY, es).store.orders, Journey(es, oid);
            if oid in orders then FollowsTable(j) && j in JOURNEYS && j[|j| - 1] == orders[oid].status else j == []
  {
    if es != [] {
      var s := Run(EMPTY, es[..|es| - 1]);
      OrdersFollowTheTable(es[..|es| - 1], oid);
      Reachable(es[..|es| - 1]);
      StepKeeps(s, es[|es| - 1]);
      assert OrderGrows(s.store, Run(EMPTY, es).store, oid);
      if oid in Run(EMPTY, es).store.orders {
        if oid !in s.store.orders { BornNew(s, es[|es| - 1], oid); }
        FiveJourneys(Journey(es, oid));
      }
    }
  }

  lemma BornNew(s: Sys, e: Event, oid: OrderId)
    requires oid !in s.store.orders && oid in Step(s, e).store.orders
    ensures Step(s, e).store.orders[oid].status == New
  {
  }

  predicate LandsAs(k: Call, was: Order, now: Order) {
    && k.Moving? && k.from == was.status && k.next in Allowed(k.role, k.from)
    && now == Stamped(was, k.next, k.at)
    && (k.role == Buyer ==> k.from == New && k.next == Cancelled)
  }

  /** A write lands only on the status its caller read; a buyer's is always the cancel of a new order. */
  lemma OnlyAllowedMovesLand(es: seq<Event>, e: Event, oid: OrderId)
    requires var was, now := Run(EMPTY, es).store.orders, Step(Run(EMPTY, es), e).store.orders;
             oid in was && oid in now && now[oid] != was[oid]
    ensures var s := Run(EMPTY, es);
            && e.Moved? && e.c in s.calls && s.calls[e.c].Moving? && s.calls[e.c].oid == oid
            && LandsAs(s.calls[e.c], s.store.orders[oid], Step(s, e).store.orders[oid])
  {
    Reachable(es);
    var s := Run(EMPTY, es);
    assert e.Moved?;
    assert CallOk(s.store, s.calls[e.c]);
  }

  /** The stamps of every order tell its life in order. */
  lemma StampsInOrder(es: seq<Event>, oid: OrderId)
    requires oid in Run(EMPTY, es).store.orders
    ensures StampsOk(Run(EMPTY, es).store.orders[oid], Run(EMPTY, es).store.clock)
  {
    Reachable(es);
    assert OrderOk(Run(EMPTY, es).store, oid);
  }

  // ── one conversation ──

  predicate Enquires(k: Call, ad: AdId, buyer: UserId) {
    k.Creating? && k.isEnquiry && k.ad == ad && k.buyer == buyer
  }

  function Asking(s: Sys, ad: AdId, buyer: UserId): set<CallId> {
    set c | c in s.calls && Enquires(s.calls[c], ad, buyer)
  }

  predicate AsksAbout(e: Event, ad: AdId, buyer: UserId) {
    e.Place? && e.isEnquiry && e.ad == ad && e.buyer == buyer
  }

  ghost predicate OneTalk(s: Sys, ad: AdId, buyer: UserId) {
    && (forall a, b | a in OpenEnquiries(s.store.orders, ad, buyer) && b in OpenEnquiries(s.store.orders, ad, buyer) :: a == b)
    && (forall c, d | c in Asking(s, ad, buyer) && d in Asking(s, ad, buyer) :: c == d)
    && (Asking(s, ad, buyer) != {} ==> OpenEnquiries(s.store.orders, ad, buyer) == {})
  }

  lemma OneTalkStep(s: Sys, e: Event, ad: AdId, buyer: UserId)
    requires Inv(s) && OneTalk(s, ad, buyer) && Grows(s.store, Step(s, e).store)
    requires AsksAbout(e, ad, buyer) ==> Asking(s, ad, buyer) == {}
    ensures OneTalk(Step(s, e), ad, buyer)
  {
    var t := Step(s, e);
    forall a | a in OpenEnquiries(t.store.orders, ad, buyer) && a !in OpenEnquiries(s.store.orders, ad, buyer)
      ensures e.Created? && a == e.oid && e.c in Asking(s, ad, buyer)
    {
      assert OrderGrows(s.store, t.store, a);
    }
    forall c | c in Asking(t, ad, buyer) && c !in Asking(s, ad, buyer)
      ensures e.Place? && e.c == c && e.isEnquiry && e.ad == ad && e.buyer == buyer
    {
    }
    assert e.Created? && e.c in Asking(s, ad, buyer) && e.oid !in s.store.orders ==> e.c !in t.calls;
  }

  /** Two enquiries checked before either was created are both created. */
  lemma OverlapMakesTwo(s: Sys, c: CallId, d: CallId, a: OrderId, b: OrderId, ad: AdId, buyer: UserId)
    requires c in Asking(s, ad, buyer) && d in Asking(s, ad, buyer) && c != d
    requires a !in s.store.orders && b !in s.store.orders && a != b
    ensures {a, b} <= OpenEnquiries(Step(Step(s, Created(c, a)), Created(d, b)).store.orders, ad, buyer)
  {
  }

  /** How many conversations of a buyer about a listing are open or being opened. */
  function Talks(s: Sys, ad: AdId, buyer: UserId): nat {
    |OpenEnquiries(s.store.orders, ad, buyer)| + |Asking(s, ad, buyer)|
  }

  lemma AtMostOneIff<T>(xs: set<T>)
    ensures |xs| <= 1 <==> forall x, y | x in xs && y in xs :: x == y
  {
    if x, y :| x in xs && y in xs && x != y {
      assert {x, y} <= xs;
      Smaller({x, y}, xs);
    } else if xs != {} {
      var x :| x in xs;
      assert xs == {x};
    }
  }

  lemma Smaller<T>(xs: set<T>, ys: set<T>)
    requires xs <= ys
    ensures |xs| <= |ys|
  {
    assert ys == xs + (ys - xs);
  }

  lemma OneTalkIsOne(s: Sys, ad: AdId, buyer: UserId)
    ensures OneTalk(s, ad, buyer) <==> Talks(s, ad, buyer) <= 1
  {
    AtMostOneIff(OpenEnquiries(s.store.orders, ad, buyer));
    AtMostOneIff(Asking(s, ad, buyer));
  }

  /** A tap that is let through while an earlier one of the same buyer about the same listing is still being made. */
  predicate SecondTap(s: Sys, e: Event, ad: AdId, buyer: UserId) {
    && AsksAbout(e, ad, buyer) && Asking(s, ad, buyer) != {}
    && e.c !in s.calls && ad in s.store.ads && s.store.ads[ad].active && s.store.ads[ad].seller != buyer
  }

  lemma SecondTalkIff(s: Sys, e: Event, ad: AdId, buyer: UserId)
    requires Inv(s) && Talks(s, ad, buyer) <= 1
    ensures Talks(Step(s, e), ad, buyer) >= 2 <==> SecondTap(s, e, ad, buyer)
  {
    StepKeeps(s, e);
    OneTalkIsOne(s, ad, buyer);
    OneTalkIsOne(Step(s, e), ad, buyer);
    if AsksAbout(e, ad, buyer) && Asking(s, ad, buyer) != {} {
      TapWhileAsking(s, e);
    } else {
      OneTalkStep(s, e, ad, buyer);
    }
  }

  ghost predicate NeverTwo(es: seq<Event>, ad: AdId, buyer: UserId) {
    (es == [] || NeverTwo(es[..|es| - 1], ad, buyer)) && Talks(Run(EMPTY, es), ad, buyer) <= 1
  }

  predicate NoSecondTap(es: seq<Event>, ad: AdId, buyer: UserId) {
    es == [] || (NoSecondTap(es[..|es| - 1], ad, buyer) && !SecondTap(Run(EMPTY, es[..|es| - 1]), es[|es| - 1], ad, buyer))
  }

  /**
   All along a run a buyer has at most one conversation about a listing, open
   or being opened, if and only if no tap of theirs is let through while an
   earlier one is still being made.
   */
  lemma {:induction false} OneConversation(es: seq<Event>, ad: AdId, buyer: UserId)
    ensures NeverTwo(es, ad, buyer) <==> NoSecondTap(es, ad, buyer)
  {
    if es != [] {
      var rest := es[..|es| - 1];
      OneConversation(rest, ad, buyer);
      Reachable(rest);
      if NeverTwo(rest, ad, buyer) {
        assert Talks(Run(EMPTY, rest), ad, buyer) <= 1;
        SecondTalkIff(Run(EMPTY, rest), es[|es| - 1], ad, buyer);
      }
    }
  }

  lemma TapWhileAsking(s: Sys, e: Event)
    requires e.Place? && e.isEnquiry && Asking(s, e.ad, e.buyer) != {} && OneTalk(s, e.ad, e.buyer)
    ensures !OneTalk(Step(s, e), e.ad, e.buyer) <==>
            e.c !in s.calls && e.ad in s.store.ads && s.store.ads[e.ad].active && s.store.ads[e.ad].seller != e.buyer
  {
    var t := Step(s, e);
    var c :| c in Asking(s, e.ad, e.buyer);
    if t.calls == s.calls {
      assert Asking(t, e.ad, e.buyer) == Asking(s, e.ad, e.buyer);
    } else {
      assert c in Asking(t, e.ad, e.buyer) && e.c in Asking(t, e.ad, e.buyer);
    }
  }

  lemma {:induction false} NoTapsKeepOneTalk(s: Sys, more: seq<Event>, ad: AdId, buyer: UserId)
    requires Inv(s) && OneTalk(s, ad, buyer) && forall e | e in more :: !AsksAbout(e, ad, buyer)
    ensures Inv(Run(s, more)) && OneTalk(Run(s, more), ad, buyer)
  {
    if more != [] {
      var rest := more[..|more| - 1];
      NoTapsKeepOneTalk(s, rest, ad, buyer);
      assert more[|more| - 1] in more;
      StepKeeps(Run(s, rest), more[|more| - 1]);
      OneTalkStep(Run(s, rest), more[|more| - 1], ad, buyer);
    }
  }

  ghost predicate TwoTalks(s: Sys, ad: AdId, buyer: UserId) {
    exists a, b :: a != b && a in OpenEnquiries(s.store.orders, ad, buyer) && b in OpenEnquiries(s.store.orders, ad, buyer)
  }

  lemma TwoAskingCanMakeTwo(s: Sys, c: CallId, d: CallId, ad: AdId, buyer: UserId) returns (more: seq<Event>)
    requires c in Asking(s, ad, buyer) && d in Asking(s, ad, buyer) && c != d
    ensures (forall e | e in more :: !AsksAbout(e, ad, buyer)) && TwoTalks(Run(s, more), ad, buyer)
  {
    var a := Unused(s.store.orders.Keys);
    var b := Unused(s.store.orders.Keys + {a});
    OverlapMakesTwo(s, c, d, a, b, ad, buyer);
    more := [Created(c, a), Created(d, b)];
    assert more[..1] == [Created(c, a)] && Run(s, [Created(c, a)]) == Step(Run(s, []), Created(c, a));
    assert Run(s, more) == Step(Step(s, Created(c, a)), Created(d, b));
  }

  lemma AskingCanMakeSecond(s: Sys, c: CallId, o: OrderId, ad: AdId, buyer: UserId) returns (more: seq<Event>)
    requires c in Asking(s, ad, buyer) && o in OpenEnquiries(s.store.orders, ad, buyer)
    ensures (forall e | e in more :: !AsksAbout(e, ad, buyer)) && TwoTalks(Run(s, more), ad, buyer)
  {
    var a := Unused(s.store.orders.Keys);
    more := [Created(c, a)];
    assert Run(s, more) == Step(Run(s, []), Created(c, a));
    assert {o, a} <= OpenEnquiries(Run(s, more).store.orders, ad, buyer);
  }

  lemma TwoCanBeReached(s: Sys, ad: AdId, buyer: UserId) returns (more: seq<Event>)
    requires !OneTalk(s, ad, buyer)
    ensures (forall e | e in more :: !AsksAbout(e, ad, buyer)) && TwoTalks(Run(s, more), ad, buyer)
  {
    var open, asking := OpenEnquiries(s.store.orders, ad, buyer), Asking(s, ad, buyer);
    if a, b :| a in open && b in open && a != b {
      more := [];
    } else if c, d :| c in asking && d in asking && c != d {
      more := TwoAskingCanMakeTwo(s, c, d, ad, buyer);
    } else {
      var c :| c in asking;
      var o :| o in open;
      more := AskingCanMakeSecond(s, c, o, ad, buyer);
    }
  }

  ghost predicate EndsInTwo(s: Sys, more: seq<Event>, ad: AdId, buyer: UserId) {
    (forall e | e in more :: !AsksAbout(e, ad, buyer)) && TwoTalks(Run(s, more), ad, buyer)
  }

  /**
   In every reachable state, two open enquiries of a buyer about a listing can
   come of it without another tap if and only if two are open or being made.
   */
  lemma TwoTalksIffOverlap(es: seq<Event>, ad: AdId, buyer: UserId)
    ensures (exists more :: EndsInTwo(Run(EMPTY, es), more, ad, buyer)) <==> Talks(Run(EMPTY, es), ad, buyer) >= 2
  {
    var s := Run(EMPTY, es);
    OneTalkIsOne(s, ad, buyer);
    if OneTalk(s, ad, buyer) {
      Reachable(es);
      forall more ensures !EndsInTwo(s, more, ad, buyer) {
        if forall e | e in more :: !AsksAbout(e, ad, buyer) { NoTapsKeepOneTalk(s, more, ad, buyer); }
      }
    } else {
      var more := TwoCanBeReached(s, ad, buyer);
      assert EndsInTwo(s, more, ad, buyer);
    }
  }

  lemma Then(es: seq<Event>, e: Event) returns (longer: seq<Event>)
    ensures longer == es + [e] && Run(EMPTY, longer) == Step(Run(EMPTY, es), e)
  {
    longer := es + [e];
    assert longer[..|longer| - 1] == es;
  }

  lemma TwoTapsInTurn()
    ensures var s := Step(Step(Step(EMPTY, Listed(1, Ad(3, 500, true))), Place(0, 7, 1, true, 1)), Place(1, 7, 1, true, 1));
            s.store.orders == map[] && 0 in Asking(s, 1, 7) && 1 in Asking(s, 1, 7)
  {
    var listing := Ad(3, 500, true);
    var s := Sys(Store(map[1 := listing], map[], 0), map[]);
    assert Step(EMPTY, Listed(1, listing)) == s;
    var t := s.(calls := map[0 := Creating(1, listing, 7, true, 1)]);
    assert Step(s, Place(0, 7, 1, true, 1)) == t;
    assert Step(t, Place(1, 7, 1, true, 1)).calls == t.calls[1 := Creating(1, listing, 7, true, 1)];
  }

  /** Buyer 7 taps twice on listing 1 before either enquiry is stored, and both are. */
  lemma TapsMakeTwo() returns (es: seq<Event>)
    ensures TwoTalks(Run(EMPTY, es), 1, 7)
  {
    es := Then([], Listed(1, Ad(3, 500, true)));
    es := Then(es, Place(0, 7, 1, true, 1));
    es := Then(es, Place(1, 7, 1, true, 1));
    TwoTapsInTurn();
    var taps := Run(EMPTY, es);
    OverlapMakesTwo(taps, 0, 1, 10, 11, 1, 7);
    es := Then(es, Created(0, 10));
    es := Then(es, Created(1, 11));
    var open := OpenEnquiries(Run(EMPTY, es).store.orders, 1, 7);
    assert {10, 11} <= open && 10 in open && 11 in open;
  }
}
