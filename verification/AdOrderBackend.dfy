/**
 The ad-orders service over an order table updated in place. Each method is one
 call running alone, save for the one rival write it names, and does exactly
 what its events say in the protocol.
 */
module AdOrderBackend {
  import opened Common
  import opened AdOrderProtocol
  import AdOrderLaws

  datatype Refusal = NotFound | OwnListing | NotYours | InvalidTransition

  /** How one event finds and leaves a call that is alone. */
  function Follow(n: Next, e: Event): Next {
    if Begins(e) then if n.call.None? then Begin(n.store, e) else n
    else if n.call.Some? && Awaits(n.call.value, e) then Continue(n.store, n.call.value, e)
    else n
  }

  function Alone(n: Next): Sys {
    Sys(n.store, if n.call.None? then map[] else map[0 := n.call.value])
  }

  lemma StepFollows(n: Next, e: Event)
    requires !Outside(e) && !e.Crashed? && e.c == 0
    ensures Step(Alone(n), e) == Alone(Follow(n, e))
  {
    var s := Alone(n);
    assert s.calls - {0} == map[];
    if n.call.Some? && Awaits(n.call.value, e) {
      var m := Continue(n.store, n.call.value, e);
      assert m.call.Some? ==> s.calls[0 := m.call.value] == map[0 := m.call.value];
    }
  }

  /** Another call's write to the order, while this one is about to write. */
  function Rivalled(n: Next, oid: OrderId, rival: Option<Status>): Next {
    if rival.None? || oid !in n.store.orders then n
    else n.(store := n.store.(orders :=
      UpdateStatus(n.store.orders, oid, n.store.orders[oid].status, rival.value, n.store.clock).0))
  }

  class AdOrdersService {
    var ads: map<AdId, Ad>
    var orders: Orders
    var clock: int

    function World(): Store
      reads this
    {
      Store(ads, orders, clock)
    }

    constructor ()
      ensures World() == EMPTY.store
    {
      ads, orders, clock := map[], map[], 0;
    }

    // ── the repository ──

    /** The buyer's newest open enquiry about a listing, if there is one. */
    method FindOpenEnquiry(ad: AdId, buyer: UserId) returns (found: Option<OrderId>)
      ensures found.None? <==> OpenEnquiries(orders, ad, buyer) == {}
      ensures found.Some? ==>
                && found.value in OpenEnquiries(orders, ad, buyer)
                && forall other | other in OpenEnquiries(orders, ad, buyer) ::
                     orders[other].createdAt <= orders[found.value].createdAt
    {
      found := None;
      var left := OpenEnquiries(orders, ad, buyer);
      while left != {}
        invariant left <= OpenEnquiries(orders, ad, buyer)
        invariant found.None? ==> left == OpenEnquiries(orders, ad, buyer)
        invariant found.Some? ==>
                    && found.value in OpenEnquiries(orders, ad, buyer)
                    && forall other | other in OpenEnquiries(orders, ad, buyer) && other !in left ::
                         orders[other].createdAt <= orders[found.value].createdAt
        decreases left
      {
        var oid :| oid in left;
        if found.None? || orders[found.value].createdAt <= orders[oid].createdAt {
          found := Some(oid);
        }
        left := left - {oid};
      }
    }

    /** Stamps and moves the row when its status is the one the caller read, and says whether it did. */
    method UpdateRow(oid: OrderId, from: Status, next: Status, at: int) returns (moved: bool)
      modifies this`orders
      ensures (orders, moved) == UpdateStatus(old(orders), oid, from, next, at)
    {
      moved := oid in orders && orders[oid].status == from;
      if moved {
        var o := orders[oid].(status := next);
        if next == InProgress { o := o.(acceptedAt := Some(at)); }
        if next == Completed { o := o.(completedAt := Some(at)); }
        if next == Cancelled { o := o.(cancelledAt := Some(at)); }
        orders := orders[oid := o];
      }
    }

    // ── the service ──

    /** Orders a listing, or reopens the conversation about it. */
    method Place(buyer: UserId, ad: AdId, isEnquiry: bool, quantity: nat, oid: OrderId)
      returns (r: Result<OrderId, Refusal>)
      requires oid !in orders
      modifies this`orders
      ensures Done(World()) ==
              Follow(Follow(Done(old(World())), AdOrderProtocol.Place(0, buyer, ad, isEnquiry, quantity)), Created(0, oid))
      ensures r == Err(NotFound) <==> ad !in ads || !ads[ad].active
      ensures r == Err(OwnListing) <==> ad in ads && ads[ad].active && ads[ad].seller == buyer
      ensures r.Ok? ==> if isEnquiry && OpenEnquiries(old(orders), ad, buyer) != {}
                        then r.value in OpenEnquiries(old(orders), ad, buyer) else r.value == oid
      ensures r.Ok? && r.value == oid ==> orders == old(orders)[oid := Order(
                ad, buyer, ads[ad].seller, isEnquiry, if isEnquiry then 0 else ads[ad].price * quantity,
                New, clock, None, None, None)]
    {
      if ad !in ads || !ads[ad].active { return Err(NotFound); }
      var listing := ads[ad];
      if listing.seller == buyer { return Err(OwnListing); }
      if isEnquiry {
        var existing := FindOpenEnquiry(ad, buyer);
        if existing.Some? { return Ok(existing.value); }
      }
      var amount := if isEnquiry then 0 else listing.price * quantity;
      orders := orders[oid := Order(ad, buyer, listing.seller, isEnquiry, amount, New, clock, None, None, None)];
      return Ok(oid);
    }

    /** One status change: read, check who asks, stamp, write; refused when a rival's write came in between. */
    method SetStatus(user: UserId, oid: OrderId, next: Status, moderates: bool, rival: Option<Status>)
      returns (r: Result<Order, Refusal>)
      modifies this`orders
      ensures var judged := Follow(Follow(Done(old(World())), AdOrderProtocol.SetStatus(0, user, oid, next)), Judged(0, moderates));
              Done(World()) == if judged.call.None? then Done(old(World()))
                               else Follow(Rivalled(judged, oid, rival), Moved(0))
      ensures r.Ok? ==> oid in orders && r.value == orders[oid] && r.value.status == next
      ensures r.Ok? <==> && oid in old(orders) && AdOrderLaws.May(old(orders)[oid], user, moderates, next)
                         && (rival.None? || rival.value == old(orders)[oid].status)
      ensures r.Ok? && rival.None? ==> AdOrderLaws.IsMoved(old(orders)[oid], r.value, next, clock)
      ensures r.Ok? && user == r.value.buyer && user != r.value.seller ==> old(orders)[oid].status == New && next == Cancelled
      ensures r.Ok? ==> user == r.value.seller || user == r.value.buyer || moderates
    {
      if oid !in orders { return Err(NotFound); }
      var order := orders[oid];
      var role := RoleOf(order, user, moderates);
      if role == Stranger { return Err(NotYours); }
      if next !in Allowed(role, order.status) { return Err(InvalidTransition); }
      var now := clock;
      if rival.Some? {
        var _ := UpdateRow(oid, order.status, rival.value, now);
      }
      var moved := UpdateRow(oid, order.status, next, now);
      if !moved { return Err(InvalidTransition); }
      return Ok(orders[oid]);
    }
  }
}
