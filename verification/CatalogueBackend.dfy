/**
 The catalogue and approvals services over two tables updated in place. Each
 method does what its call does in the protocol, or refuses and changes nothing.
 */
module CatalogueBackend {
  import opened Common
  import opened Verticals
  import opened CatalogueProtocol
  import CatalogueRuns
  import CatalogueLaws

  /** A call that the protocol lets through leaves the tables it says; one it refuses leaves them alone. */
  predicate Answers(said: Result<Catalogue, Refusal>, was: Catalogue, now: Catalogue, r: Result<bool, Refusal>) {
    match said
    case Ok(db) => r == Ok(true) && now == db
    case Err(why) => r == Err(why) && now == was
  }

  class Catalog {
    var services: Services
    var requests: Requests
    var used: set<ServiceId>

    function Tables(): Catalogue
      reads this
    {
      Catalogue(services, requests, used)
    }

    ghost predicate Valid()
      reads this
    {
      CatalogueRuns.Inv(Tables())
    }

    constructor ()
      ensures Valid() && Tables() == EMPTY
    {
      services, requests, used := map[], map[], {};
    }

    // ── the requests table ──

    method OpenRequest(sid: ServiceId) returns (open: Option<RequestId>)
      requires Valid()
      ensures open == OpenFor(requests, sid)
    {
      var left := requests.Keys;
      while left != {}
        invariant left <= requests.Keys
        invariant forall rid | rid in requests && rid !in left :: requests[rid].openFor != Some(sid)
        decreases left
      {
        var rid :| rid in left;
        if requests[rid].openFor == Some(sid) {
          CatalogueRuns.OpenIsThe(Tables(), rid, sid);
          return Some(rid);
        }
        left := left - {rid};
      }
      return None;
    }

    method RequestPriceChange(sid: ServiceId, requested: Terms, rid: RequestId, admin: User, now: int)
      requires Valid()
      modifies this`requests
      ensures requests == Upsert(old(requests), sid, requested, rid, admin, now)
    {
      var open := OpenRequest(sid);
      if open.None? {
        requests := requests[rid := Filed(PriceChange, sid, requested, admin, now)];
      } else {
        requests := requests[open.value :=
          requests[open.value].(requested := requested, requestedBy := admin, createdAt := now)];
      }
    }

    method WithdrawRequest(sid: ServiceId)
      modifies this`requests
      ensures requests == Withdraw(old(requests), sid)
    {
      requests := map rid | rid in requests && requests[rid].openFor != Some(sid) :: requests[rid];
    }

    /** Closes and records a request that is pending; false, and no change, for any other. */
    method Claim(rid: RequestId, approve: bool, before: Option<Terms>, requested: Terms, admin: User, note: string, now: int)
      returns (claimed: bool)
      modifies this`requests
      ensures claimed <==> old(rid in requests && requests[rid].status == Pending)
      ensures requests == if claimed then old(requests)[rid :=
                Recorded(old(requests)[rid], approve, before, requested, admin, note, now)] else old(requests)
    {
      claimed := rid in requests && requests[rid].status == Pending;
      if claimed {
        requests := requests[rid := Recorded(requests[rid], approve, before, requested, admin, note, now)];
      }
    }

    /** Takes a service and its open request out, and its id off the requests that remain. */
    method DeleteRow(sid: ServiceId)
      modifies this`services, this`requests
      ensures Tables() == RemoveService(old(Tables()), sid)
    {
      WithdrawRequest(sid);
      services := services - {sid};
      requests := map rid | rid in requests :: Detached(requests[rid], sid);
    }

    // ── the admin's side ──

    method CreateService(sid: ServiceId, rid: RequestId, d: Draft, admin: User, verticals: set<Vertical>, now: int)
      returns (r: Result<bool, Refusal>)
      requires Valid() && sid !in used && rid !in requests
      modifies this
      ensures Valid()
      ensures Answers(CatalogueProtocol.CreateService(old(Tables()), sid, rid, d, admin, verticals, now),
                      old(Tables()), Tables(), r)
    {
      CatalogueRuns.StepKeeps(Tables(), Create(sid, rid, d, admin, verticals, now));
      if d.vertical !in verticals { return Err(WrongVertical); }
      if d.category !in Categories(d.vertical) { return Err(BadCategory); }
      var active := d.active.GetOr(true);
      var s := Service(d.name, d.description, d.vertical, d.category, d.price, active, active && d.online.GetOr(true), false);
      services, used := services[sid := s], used + {sid};
      requests := requests[rid := Filed(NewService, sid, TermsOf(s), admin, now)];
      return Ok(true);
    }

    method UpdateService(sid: ServiceId, p: Patch, rid: RequestId, admin: User, verticals: set<Vertical>, now: int)
      returns (r: Result<bool, Refusal>)
      requires Valid() && rid !in requests
      modifies this
      ensures Valid()
      ensures Answers(CatalogueProtocol.UpdateService(old(Tables()), sid, p, rid, admin, verticals, now),
                      old(Tables()), Tables(), r)
      ensures r.Ok? ==>
                && sid in old(services) && sid in services
                && CatalogueLaws.IsEdited(p, old(services)[sid], services[sid])
                && CatalogueLaws.EachMoves(p.price, CatalogueRuns.PendingPrice(old(Tables()), sid),
                                           CatalogueRuns.PendingPrice(Tables(), sid))
                && (if services[sid].approved then services[sid].price == old(services)[sid].price
                    else CatalogueLaws.EachMoves(p.price, old(services)[sid].price, services[sid].price))
    {
      ghost var e := Update(sid, p, rid, admin, verticals, now);
      CatalogueRuns.StepKeeps(Tables(), e);
      CatalogueLaws.UpdateLands(Tables(), e);
      if Lands(Tables(), e) { CatalogueLaws.EachFigureMoves(Tables(), e); }
      if sid !in services { return Err(NotFound); }
      var current := services[sid];
      if current.vertical !in verticals { return Err(WrongVertical); }
      if p.vertical.Some? && p.vertical.value !in verticals { return Err(WrongVertical); }
      if p.category.GetOr(current.category) !in Categories(p.vertical.GetOr(current.vertical)) { return Err(BadCategory); }
      var waiting := OpenRequest(sid);
      var updated := Patched(current, p);
      if current.approved && PriceAsked(p.price) {
        var wanted := Overlay(if waiting.Some? then requests[waiting.value].requested.price else current.price, p.price);
        if wanted == updated.price {
          WithdrawRequest(sid);
        } else {
          RequestPriceChange(sid, TermsOf(updated).(price := wanted), rid, admin, now);
        }
      }
      services := services[sid := updated];
      return Ok(true);
    }

    method DeleteService(sid: ServiceId, verticals: set<Vertical>) returns (r: Result<bool, Refusal>)
      requires Valid()
      modifies this
      ensures Valid()
      ensures Answers(CatalogueProtocol.DeleteService(old(Tables()), sid, verticals),
                      old(Tables()), Tables(), r)
    {
      CatalogueRuns.StepKeeps(Tables(), Delete(sid, verticals));
      if sid !in services { return Err(NotFound); }
      if services[sid].vertical !in verticals { return Err(WrongVertical); }
      DeleteRow(sid);
      return Ok(true);
    }

    // ── deciding ──

    method DecideRequest(rid: RequestId, approve: bool, admin: User, note: string, now: int)
      returns (r: Result<bool, Refusal>)
      requires Valid()
      modifies this
      ensures Valid()
      ensures Answers(CatalogueProtocol.DecideRequest(old(Tables()), rid, approve, admin, note, now),
                      old(Tables()), Tables(), r)
    {
      CatalogueRuns.StepKeeps(Tables(), Decide(rid, approve, admin, note, now));
      if rid !in requests { return Err(NotFound); }
      var change := requests[rid];
      if change.status != Pending || change.serviceId.None? || change.serviceId.value !in services {
        return Err(AlreadyDecided);
      }
      var sid := change.serviceId.value;
      var isNew := change.kind == NewService;
      var live := TermsOf(services[sid]);
      var requested := RequestedTerms(change, live);
      var claimed := Claim(rid, approve, if isNew then None else Some(live), requested, admin, note, now);
      assert claimed;
      if approve {
        services := services[sid := if isNew then services[sid].(approved := true)
                                    else services[sid].(price := requested.price)];
      } else if isNew {
        DeleteRow(sid);
      }
      return Ok(true);
    }
  }
}
