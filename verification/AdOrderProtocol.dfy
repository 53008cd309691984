/**
 Orders against marketplace listings, as one deterministic machine. Placing an
 order and moving it on are reads and writes with other calls in between; a
 call between two awaits sits in the table of calls, with what it read.
 */
module AdOrderProtocol {
  import opened Common

  type OrderId = nat
  type AdId = nat
  type UserId = nat
  type CallId = nat

  datatype Status = New | InProgress | Completed | Cancelled

  /** The moves a seller has from each status: two from new and from in progress, none from the ends. */
  function SellerTransitions(from: Status): set<Status> {
    match from
    case New => {InProgress, Cancelled}
    case InProgress => {Completed, Cancelled}
    case Completed => {}
    case Cancelled => {}
  }

  function BuyerTransitions(from: Status): set<Status> {
    if from == New then {Cancelled} else {}
  }

  datatype Ad = Ad(seller: UserId, price: nat, active: bool)

  datatype Order = Order(
    ad: AdId,
    buyer: UserId,
    seller: UserId,
    isEnquiry: bool,
    amount: nat,
    status: Status,
    createdAt: int,
    acceptedAt: Option<int>,
    completedAt: Option<int>,
    cancelledAt: Option<int>)

  type Orders = map<OrderId, Order>

  // ── the repository ──

  function Placed(ad: AdId, listing: Ad, buyer: UserId, isEnquiry: bool, quantity: nat, now: int): Order {
    Order(ad, buyer, listing.seller, isEnquiry, if isEnquiry then 0 else listing.price * quantity,
          New, now, None, None, None)
  }

  /** A question about a listing that its buyer has not closed. */
  predicate IsOpenEnquiry(o: Order, ad: AdId, buyer: UserId) {
    o.ad == ad && o.buyer == buyer && o.isEnquiry && o.status != Cancelled
  }

  function OpenEnquiries(orders: Orders, ad: AdId, buyer: UserId): set<OrderId> {
    set oid | oid in orders && IsOpenEnquiry(orders[oid], ad, buyer)
  }

  function Stamped(o: Order, next: Status, at: int): Order {
    match next
    case New => o.(status := New)
    case InProgress => o.(status := InProgress, acceptedAt := Some(at))
    case Completed => o.(status := Completed, completedAt := Some(at))
    case Cancelled => o.(status := Cancelled, cancelledAt := Some(at))
  }

  /** The conditional write: the row changes and the answer is true exactly when its status equals [from]. */
  function UpdateStatus(orders: Orders, oid: OrderId, from: Status, next: Status, at: int): (Orders, bool) {
    if oid in orders && orders[oid].status == from then (orders[oid := Stamped(orders[oid], next, at)], true)
    else (orders, false)
  }

  // ── calls and events ──

  datatype Role = Seller | Buyer | Admin | Stranger

  function RoleOf(o: Order, user: UserId, moderates: bool): Role {
    if o.seller == user then Seller
    else if o.buyer == user then Buyer
    else if moderates then Admin
    else Stranger
  }

  function Allowed(role: Role, from: Status): set<Status> {
    match role
    case Seller => SellerTransitions(from)
    case Admin => SellerTransitions(from)
    case Buyer => BuyerTransitions(from)
    case Stranger => {}
  }

  datatype Call =
    | Creating(ad: AdId, listing: Ad, buyer: UserId, isEnquiry: bool, quantity: nat)   // checked, about to create
    | Judging(oid: OrderId, row: Order, user: UserId, next: Status)                      // row read, asking who this is
    | Moving(oid: OrderId, from: Status, user: UserId, role: Role, next: Status, at: int)   // allowed and stamped, about to write

  datatype Store = Store(ads: map<AdId, Ad>, orders: Orders, clock: int)

  datatype Sys = Sys(store: Store, calls: map<CallId, Call>)

  const EMPTY := Sys(Store(map[], map[], 0), map[])

  datatype Event =
    | Listed(ad: AdId, listing: Ad)
    | Ticked(seconds: nat)
    | Place(c: CallId, buyer: UserId, ad: AdId, isEnquiry: bool, quantity: nat)
    | SetStatus(c: CallId, user: UserId, oid: OrderId, next: Status)
    | Created(c: CallId, oid: OrderId)
    | Judged(c: CallId, moderates: bool)
    | Moved(c: CallId)
    | Crashed(c: CallId)

  /** The store after a step, and where the call that took it now waits; None when it has returned. */
  datatype Next = Next(store: Store, call: Option<Call>)

  function Done(w: Store): Next {
    Next(w, None)
  }

  /** Only an active listing of someone else can be ordered; an open enquiry is reused. */
  function PlaceStep(w: Store, buyer: UserId, ad: AdId, isEnquiry: bool, quantity: nat): Next {
    if ad !in w.ads || !w.ads[ad].active || w.ads[ad].seller == buyer then Done(w)
    else if isEnquiry && OpenEnquiries(w.orders, ad, buyer) != {} then Done(w)
    else Next(w, Some(Creating(ad, w.ads[ad], buyer, isEnquiry, quantity)))
  }

  /** An order id is new when the database makes it. */
  function CreateStep(w: Store, k: Call, oid: OrderId): Next
    requires k.Creating?
  {
    if oid in w.orders then Next(w, Some(k))
    else Done(w.(orders := w.orders[oid := Placed(k.ad, k.listing, k.buyer, k.isEnquiry, k.quantity, w.clock)]))
  }

  function SetStatusStep(w: Store, user: UserId, oid: OrderId, next: Status): Next {
    Next(w, if oid in w.orders then Some(Judging(oid, w.orders[oid], user, next)) else None)
  }

  function JudgeStep(w: Store, k: Call, moderates: bool): Next
    requires k.Judging?
  {
    var role := RoleOf(k.row, k.user, moderates);
    Next(w, if k.next in Allowed(role, k.row.status) then Some(Moving(k.oid, k.row.status, k.user, role, k.next, w.clock)) else None)
  }

  predicate Begins(e: Event) {
    e.Place? || e.SetStatus?
  }

  function Begin(w: Store, e: Event): Next
    requires Begins(e)
  {
    match e
    case Place(_, buyer, ad, isEnquiry, quantity) => PlaceStep(w, buyer, ad, isEnquiry, quantity)
    case SetStatus(_, user, oid, next) => SetStatusStep(w, user, oid, next)
  }

  predicate Awaits(k: Call, e: Event) {
    match e
    case Created(_, _) => k.Creating?
    case Judged(_, _) => k.Judging?
    case Moved(_) => k.Moving?
    case _ => false
  }

  function Continue(w: Store, k: Call, e: Event): Next
    requires Awaits(k, e)
  {
    match e
    case Created(_, oid) => CreateStep(w, k, oid)
    case Judged(_, moderates) => JudgeStep(w, k, moderates)
    case Moved(_) => Done(w.(orders := UpdateStatus(w.orders, k.oid, k.from, k.next, k.at).0))
  }

  predicate Outside(e: Event) {
    e.Listed? || e.Ticked?
  }

  /** Listings change hands, price and state at any time; the clock never runs back. */
  function Environment(w: Store, e: Event): Store
    requires Outside(e)
  {
    match e
    case Listed(ad, listing) => w.(ads := w.ads[ad := listing])
    case Ticked(seconds) => w.(clock := w.clock + seconds)
  }

  function Advance(calls: map<CallId, Call>, c: CallId, n: Next): Sys {
    Sys(n.store, if n.call.None? then calls - {c} else calls[c := n.call.value])
  }

  function Step(s: Sys, e: Event): Sys {
    if Outside(e) then s.(store := Environment(s.store, e))
    else if Begins(e) then if e.c in s.calls then s else Advance(s.calls, e.c, Begin(s.store, e))
    else if e.c !in s.calls then s
    else if e.Crashed? then s.(calls := s.calls - {e.c})
    else if Awaits(s.calls[e.c], e) then Advance(s.calls, e.c, Continue(s.store, s.calls[e.c], e))
    else s
  }

  function Run(s: Sys, es: seq<Event>): Sys {
    if es == [] then s else Step(Run(s, es[..|es| - 1]), es[|es| - 1])
  }
}
