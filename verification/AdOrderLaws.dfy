/** Who moves an order, to where, and what placing and moving one leave on its row. */
module AdOrderLaws {
  import opened Common
  import opened AdOrderProtocol
  import opened AdOrderRuns

  // ── who may ──

  predicate SellerMay(from: Status, next: Status) {
    || (from == New && (next == InProgress || next == Cancelled))
    || (from == InProgress && (next == Completed || next == Cancelled))
  }

  /** A seller, or a moderator who is no party to the order, works it forward; a buyer only cancels a new one. */
  predicate May(o: Order, user: UserId, moderates: bool, next: Status) {
    if user == o.seller || (user != o.buyer && moderates) then SellerMay(o.status, next)
    else user == o.buyer && o.status == New && next == Cancelled
  }

  lemma {:induction false} JudgedWasAsked(es: seq<Event>, c: CallId)
    requires c in Run(EMPTY, es).calls && Run(EMPTY, es).calls[c].Judging?
    ensures var k := Run(EMPTY, es).calls[c]; SetStatus(c, k.user, k.oid, k.next) in es
  {
    var rest, e := es[..|es| - 1], es[|es| - 1];
    assert es == rest + [e];
    if c in Run(EMPTY, rest).calls && Run(EMPTY, rest).calls[c] == Run(EMPTY, es).calls[c] { JudgedWasAsked(rest, c); }
  }

  /** Whose move it is, was asked by that user; and a moderator's was judged one. */
  lemma {:induction false} MovingWasAsked(es: seq<Event>, c: CallId)
    requires c in Run(EMPTY, es).calls && Run(EMPTY, es).calls[c].Moving?
    ensures var k := Run(EMPTY, es).calls[c];
            SetStatus(c, k.user, k.oid, k.next) in es && (k.role == Admin ==> Judged(c, true) in es)
  {
    var rest, e := es[..|es| - 1], es[|es| - 1];
    assert es == rest + [e];
    if c in Run(EMPTY, rest).calls && Run(EMPTY, rest).calls[c] == Run(EMPTY, es).calls[c] {
      MovingWasAsked(rest, c);
    } else {
      assert e.Judged? && e.c == c;
      JudgedWasAsked(rest, c);
    }
  }

  /**
   Over every run, an order changes only because a user asked for that status
   of it: its seller, or someone judged a moderator who is no party to it, for
   a step forward or a cancel of unfinished work; or its buyer, for the cancel
   of a new order.
   */
  lemma OnlyThePartiesMove(es: seq<Event>, e: Event, oid: OrderId)
    requires var was, now := Run(EMPTY, es).store.orders, Step(Run(EMPTY, es), e).store.orders;
             oid in was && oid in now && now[oid] != was[oid]
    ensures e.Moved? && e.c in Run(EMPTY, es).calls && Run(EMPTY, es).calls[e.c].Moving?
    ensures var was := Run(EMPTY, es).store.orders[oid];
            var now := Step(Run(EMPTY, es), e).store.orders[oid];
            var user := Run(EMPTY, es).calls[e.c].user;
            && SetStatus(e.c, user, oid, now.status) in es
            && (user == was.seller ==> SellerMay(was.status, now.status))
            && (user == was.buyer && user != was.seller ==> was.status == New && now.status == Cancelled)
            && (user != was.seller && user != was.buyer ==> Judged(e.c, true) in es && SellerMay(was.status, now.status))
  {
    OnlyAllowedMovesLand(es, e, oid);
    MovingWasAsked(es, e.c);
    Reachable(es);
    assert CallOk(Run(EMPTY, es).store, Run(EMPTY, es).calls[e.c]) && OrderOk(Run(EMPTY, es).store, oid);
  }

  // ── what is left on the row ──

  /** The row after a move: its status, the stamp of that milestone, and everything else as it was. */
  predicate IsMoved(was: Order, now: Order, next: Status, at: int) {
    && now.status == next
    && now.ad == was.ad && now.buyer == was.buyer && now.seller == was.seller
    && now.isEnquiry == was.isEnquiry && now.amount == was.amount && now.createdAt == was.createdAt
    && now.acceptedAt == (if next == InProgress then Some(at) else was.acceptedAt)
    && now.completedAt == (if next == Completed then Some(at) else was.completedAt)
    && now.cancelledAt == (if next == Cancelled then Some(at) else was.cancelledAt)
  }

  /** A change asked for and left alone lands exactly when the user may make it, stamped with the time it was judged. */
  lemma SetStatusAlone(s: Sys, c: CallId, user: UserId, oid: OrderId, next: Status, moderates: bool)
    requires Inv(s) && c !in s.calls && oid in s.store.orders
    ensures var v := Step(Step(Step(s, SetStatus(c, user, oid, next)), Judged(c, moderates)), Moved(c));
            && v.calls == s.calls && oid in v.store.orders
            && v.store == s.store.(orders := s.store.orders[oid := v.store.orders[oid]])
            && (if May(s.store.orders[oid], user, moderates, next)
                then IsMoved(s.store.orders[oid], v.store.orders[oid], next, s.store.clock)
                else v.store.orders[oid] == s.store.orders[oid])
  {
    var o := s.store.orders[oid];
    assert OrderOk(s.store, oid);
    var s1 := Step(s, SetStatus(c, user, oid, next));
    assert s1 == Sys(s.store, s.calls[c := Judging(oid, o, user, next)]);
    var s2 := Step(s1, Judged(c, moderates));
    assert s2.store == s.store && s2.calls - {c} == s.calls;
    if !May(o, user, moderates, next) {
      assert s2.calls == s1.calls - {c};
      assert s.store.orders[oid := o] == s.store.orders;
    }
  }

  /** The conditional write says that it moved the order exactly when it found the status read. */
  lemma WriteSaysIfItMoved(orders: Orders, oid: OrderId, from: Status, next: Status, at: int)
    ensures var (now, moved) := UpdateStatus(orders, oid, from, next, at);
            && (moved <==> oid in orders && orders[oid].status == from)
            && (!moved ==> now == orders)
            && (moved ==> now.Keys == orders.Keys && IsMoved(orders[oid], now[oid], next, at)
                          && forall o | o in orders && o != oid :: now[o] == orders[o])
  {
  }

  /** A write that finds another status than its caller read, or no order at all, changes nothing. */
  lemma LateMoveIsVoid(s: Sys, c: CallId)
    requires c in s.calls && s.calls[c].Moving?
    requires s.calls[c].oid in s.store.orders ==> s.store.orders[s.calls[c].oid].status != s.calls[c].from
    ensures Step(s, Moved(c)) == Sys(s.store, s.calls - {c})
  {
  }

  /**
   Placing an order of someone else's active listing creates it new, at the
   listing's price times the quantity, or for nothing if it is an enquiry;
   unless it is an enquiry and one is open. Nothing else is placed.
   */
  lemma PlaceAlone(s: Sys, c: CallId, buyer: UserId, ad: AdId, isEnquiry: bool, quantity: nat, oid: OrderId)
    requires c !in s.calls && oid !in s.store.orders
    ensures var v := Step(Step(s, Place(c, buyer, ad, isEnquiry, quantity)), Created(c, oid));
            var orderable := ad in s.store.ads && s.store.ads[ad].active && s.store.ads[ad].seller != buyer;
            var reopened := isEnquiry && exists o | o in s.store.orders ::
              && s.store.orders[o].ad == ad && s.store.orders[o].buyer == buyer
              && s.store.orders[o].isEnquiry && s.store.orders[o].status != Cancelled;
            if orderable && !reopened then
              v == Sys(s.store.(orders := s.store.orders[oid := Order(
                     ad, buyer, s.store.ads[ad].seller, isEnquiry,
                     if isEnquiry then 0 else s.store.ads[ad].price * quantity,
                     New, s.store.clock, None, None, None)]), s.calls)
            else v == s
  {
    var seen := Step(s, Place(c, buyer, ad, isEnquiry, quantity));
    if c in seen.calls { assert seen.calls - {c} == s.calls; } else { assert s.calls - {c} == s.calls; }
    if o :| o in s.store.orders && s.store.orders[o].ad == ad && s.store.orders[o].buyer == buyer
            && s.store.orders[o].isEnquiry && s.store.orders[o].status != Cancelled
    {
      assert o in OpenEnquiries(s.store.orders, ad, buyer);
    } else {
      assert OpenEnquiries(s.store.orders, ad, buyer) == {};
    }
  }

  /** What was read of the listing is what is charged, however the listing changes before the order is stored. */
  lemma PriceIsTheOneRead(s: Sys, c: CallId, oid: OrderId)
    requires c in s.calls && s.calls[c].Creating? && oid !in s.store.orders
    ensures var k := s.calls[c];
            var v := Step(s, Created(c, oid));
            && v.calls == s.calls - {c}
            && v.store == s.store.(orders := s.store.orders[oid := Order(
                 k.ad, k.buyer, k.listing.seller, k.isEnquiry, if k.isEnquiry then 0 else k.listing.price * k.quantity,
                 New, s.store.clock, None, None, None)])
  {
  }
}
