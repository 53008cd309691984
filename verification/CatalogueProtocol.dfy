/**
 The service catalogue and the requests about it, open and decided. Each call
 of the service is one step: it either changes the tables or is refused.
 Money is whole paise.
 */
module CatalogueProtocol {
  import opened Common
  import opened Verticals

  type ServiceId = nat
  type RequestId = nat
  type User = nat

  /** The four numbers of a service that a pending request can be about. */
  datatype Price = Price(minHours: nat, hourlyRate: nat, extraProRate: nat, materialsFee: nat)

  /** What a decision takes snapshots of. */
  datatype Terms = Terms(name: string, vertical: Vertical, category: string, price: Price)

  datatype Service = Service(
    name: string, description: string, vertical: Vertical, category: string, price: Price,
    active: bool, online: bool, approved: bool)

  datatype Kind = NewService | PriceChange

  datatype Status = Pending | Approved | Rejected

  datatype Request = Request(
    kind: Kind,
    status: Status,
    serviceId: Option<ServiceId>,
    openFor: Option<ServiceId>,
    before: Option<Terms>,
    requested: Terms,
    requestedBy: User,
    createdAt: int,
    decidedBy: Option<User>,
    decidedAt: Option<int>,
    note: string)

  type Services = map<ServiceId, Service>
  type Requests = map<RequestId, Request>

  /** The two tables, and the service ids ever given out: an id is never given twice. */
  datatype Catalogue = Catalogue(services: Services, requests: Requests, used: set<ServiceId>)

  const EMPTY := Catalogue(map[], map[], {})

  function TermsOf(s: Service): Terms {
    Terms(s.name, s.vertical, s.category, s.price)
  }

  // ── what a call asks for ──

  datatype PricePatch = PricePatch(
    minHours: Option<nat>, hourlyRate: Option<nat>, extraProRate: Option<nat>, materialsFee: Option<nat>)

  predicate PriceAsked(p: PricePatch) {
    p.minHours.Some? || p.hourlyRate.Some? || p.extraProRate.Some? || p.materialsFee.Some?
  }

  function Overlay(price: Price, p: PricePatch): Price {
    Price(p.minHours.GetOr(price.minHours), p.hourlyRate.GetOr(price.hourlyRate),
          p.extraProRate.GetOr(price.extraProRate), p.materialsFee.GetOr(price.materialsFee))
  }

  datatype Draft = Draft(
    name: string, description: string, vertical: Vertical, category: string, price: Price,
    active: Option<bool>, online: Option<bool>)

  datatype Patch = Patch(
    name: Option<string>, description: Option<string>, vertical: Option<Vertical>, category: Option<string>,
    price: PricePatch, active: Option<bool>, online: Option<bool>)

  datatype Refusal = NotFound | WrongVertical | BadCategory | AlreadyDecided

  datatype Event =
    | Seed(sid: ServiceId, service: Service)
    | Create(sid: ServiceId, rid: RequestId, draft: Draft, admin: User, verticals: set<Vertical>, now: int)
    | Update(sid: ServiceId, patch: Patch, rid: RequestId, admin: User, verticals: set<Vertical>, now: int)
    | Delete(sid: ServiceId, verticals: set<Vertical>)
    | Decide(rid: RequestId, approve: bool, admin: User, note: string, now: int)

  // ── the requests table ──

  /** The request waiting for a service, found by its unique column. */
  ghost function OpenFor(requests: Requests, sid: ServiceId): Option<RequestId> {
    if exists rid :: rid in requests && requests[rid].openFor == Some(sid)
    then var rid :| rid in requests && requests[rid].openFor == Some(sid); Some(rid)
    else None
  }

  function Filed(kind: Kind, sid: ServiceId, requested: Terms, admin: User, now: int): Request {
    Request(kind, Pending, Some(sid), Some(sid), None, requested, admin, now, None, None, "")
  }

  /** The table with a price change open for the service, in the place of an open one if there is one. */
  ghost function Upsert(requests: Requests, sid: ServiceId, requested: Terms, rid: RequestId, admin: User, now: int): Requests {
    match OpenFor(requests, sid)
    case None => requests[rid := Filed(PriceChange, sid, requested, admin, now)]
    case Some(open) =>
      requests[open := requests[open].(requested := requested, requestedBy := admin, createdAt := now)]
  }

  function Withdraw(requests: Requests, sid: ServiceId): Requests {
    map rid | rid in requests && requests[rid].openFor != Some(sid) :: requests[rid]
  }

  function Recorded(r: Request, approve: bool, before: Option<Terms>, requested: Terms, admin: User, note: string, now: int): Request {
    r.(status := if approve then Approved else Rejected, openFor := None, before := before, requested := requested,
       decidedBy := Some(admin), decidedAt := Some(now), note := note)
  }

  /** A deleted service's id is taken off the requests that stay. */
  function Detached(r: Request, sid: ServiceId): Request {
    if r.serviceId == Some(sid) then r.(serviceId := None) else r
  }

  function RemoveService(db: Catalogue, sid: ServiceId): Catalogue {
    var kept := Withdraw(db.requests, sid);
    db.(services := db.services - {sid}, requests := map rid | rid in kept :: Detached(kept[rid], sid))
  }

  // ── the service calls ──

  function CreateService(db: Catalogue, sid: ServiceId, rid: RequestId, d: Draft, admin: User, verticals: set<Vertical>, now: int)
    : Result<Catalogue, Refusal>
  {
    if d.vertical !in verticals then Err(WrongVertical)
    else if d.category !in Categories(d.vertical) then Err(BadCategory)
    else
      var active := d.active.GetOr(true);
      var s := Service(d.name, d.description, d.vertical, d.category, d.price, active, active && d.online.GetOr(true), false);
      Ok(Catalogue(db.services[sid := s], db.requests[rid := Filed(NewService, sid, TermsOf(s), admin, now)], db.used + {sid}))
  }

  /** What saves straight away: everything but, on an approved service, the price. */
  function Patched(s: Service, p: Patch): Service {
    var active := p.active.GetOr(s.active);
    Service(p.name.GetOr(s.name), p.description.GetOr(s.description), p.vertical.GetOr(s.vertical),
            p.category.GetOr(s.category), if s.approved then s.price else Overlay(s.price, p.price),
            active, active && p.online.GetOr(s.online), s.approved)
  }

  /** The price an edit of an approved service builds on: the one already waiting, or the live one. */
  ghost function PriceToEdit(db: Catalogue, sid: ServiceId): Price
    requires sid in db.services
  {
    match OpenFor(db.requests, sid)
    case None => db.services[sid].price
    case Some(rid) => db.requests[rid].requested.price
  }

  ghost function UpdateService(db: Catalogue, sid: ServiceId, p: Patch, rid: RequestId, admin: User, verticals: set<Vertical>, now: int)
    : Result<Catalogue, Refusal>
  {
    if sid !in db.services then Err(NotFound)
    else
      var current := db.services[sid];
      if current.vertical !in verticals || p.vertical.GetOr(current.vertical) !in verticals then Err(WrongVertical)
      else if p.category.GetOr(current.category) !in Categories(p.vertical.GetOr(current.vertical)) then Err(BadCategory)
      else
        var updated := Patched(current, p);
        var wanted := Overlay(PriceToEdit(db, sid), p.price);
        var requests :=
          if !current.approved || !PriceAsked(p.price) then db.requests
          else if wanted == updated.price then Withdraw(db.requests, sid)
          else Upsert(db.requests, sid, TermsOf(updated).(price := wanted), rid, admin, now);
        Ok(db.(services := db.services[sid := updated], requests := requests))
  }

  function DeleteService(db: Catalogue, sid: ServiceId, verticals: set<Vertical>): Result<Catalogue, Refusal> {
    if sid !in db.services then Err(NotFound)
    else if db.services[sid].vertical !in verticals then Err(WrongVertical)
    else Ok(RemoveService(db, sid))
  }

  /** The terms recorded as requested: the live ones, with the request's price if it is a price change. */
  function RequestedTerms(r: Request, live: Terms): Terms {
    if r.kind == NewService then live else live.(price := r.requested.price)
  }

  function DecideRequest(db: Catalogue, rid: RequestId, approve: bool, admin: User, note: string, now: int)
    : Result<Catalogue, Refusal>
  {
    if rid !in db.requests then Err(NotFound)
    else
      var r := db.requests[rid];
      if r.status != Pending || r.serviceId.None? || r.serviceId.value !in db.services then Err(AlreadyDecided)
      else
        var sid := r.serviceId.value;
        var live := TermsOf(db.services[sid]);
        var requested := RequestedTerms(r, live);
        var before := if r.kind == NewService then None else Some(live);
        var claimed := db.(requests := db.requests[rid := Recorded(r, approve, before, requested, admin, note, now)]);
        if !approve then Ok(if r.kind == NewService then RemoveService(claimed, sid) else claimed)
        else
          var s := db.services[sid];
          Ok(claimed.(services := db.services[sid :=
            if r.kind == NewService then s.(approved := true) else s.(price := requested.price)]))
  }

  // ── runs ──

  /** The ids a call draws are new. */
  predicate FreshIds(db: Catalogue, e: Event) {
    match e
    case Seed(sid, _) => sid !in db.used
    case Create(sid, rid, _, _, _, _) => sid !in db.used && rid !in db.requests
    case Update(_, _, rid, _, _, _) => rid !in db.requests
    case _ => true
  }

  /** A service put in by the seed is approved, sits under a tile of its vertical, and is not shown while inactive. */
  predicate Seeded(s: Service) {
    s.approved && s.category in Categories(s.vertical) && (s.online ==> s.active)
  }

  ghost function Call(db: Catalogue, e: Event): Result<Catalogue, Refusal> {
    match e
    case Seed(sid, s) =>
      Ok(if Seeded(s) then Catalogue(db.services[sid := s], db.requests, db.used + {sid}) else db)
    case Create(sid, rid, d, admin, verticals, now) => CreateService(db, sid, rid, d, admin, verticals, now)
    case Update(sid, p, rid, admin, verticals, now) => UpdateService(db, sid, p, rid, admin, verticals, now)
    case Delete(sid, verticals) => DeleteService(db, sid, verticals)
    case Decide(rid, approve, admin, note, now) => DecideRequest(db, rid, approve, admin, note, now)
  }

  ghost predicate Lands(db: Catalogue, e: Event) {
    FreshIds(db, e) && Call(db, e).Ok?
  }

  ghost function Step(db: Catalogue, e: Event): Catalogue {
    if Lands(db, e) then Call(db, e).value else db
  }

  ghost function Run(db: Catalogue, es: seq<Event>): Catalogue {
    if es == [] then db else Step(Run(db, es[..|es| - 1]), es[|es| - 1])
  }
}
