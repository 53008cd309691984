/** What each catalogue call stores and when it is refused, field by field. */
module CatalogueLaws {
  import opened Common
  import opened Verticals
  import opened CatalogueProtocol
  import opened CatalogueRuns

  // ── prices, field by field ──

  /** A field of an edit: what it gives, or what was there. */
  predicate Moves(given: Option<nat>, was: nat, now: nat) {
    now == match given { case Some(x) => x case None => was }
  }

  predicate EachMoves(p: PricePatch, was: Price, now: Price) {
    && Moves(p.minHours, was.minHours, now.minHours)
    && Moves(p.hourlyRate, was.hourlyRate, now.hourlyRate)
    && Moves(p.extraProRate, was.extraProRate, now.extraProRate)
    && Moves(p.materialsFee, was.materialsFee, now.materialsFee)
  }

  /**
   A landed edit gives each of the four pending figures the value it names for
   that figure, and leaves those it does not name; so it does with the live
   ones while the service is not approved, and with none of them once it is.
   */
  lemma EachFigureMoves(db: Catalogue, e: Event)
    requires Inv(db) && e.Update? && Lands(db, e)
    ensures e.sid in db.services && e.sid in Step(db, e).services
    ensures var v := Step(db, e);
            && EachMoves(e.patch.price, PendingPrice(db, e.sid), PendingPrice(v, e.sid))
            && (if db.services[e.sid].approved then v.services[e.sid].price == db.services[e.sid].price
                else EachMoves(e.patch.price, db.services[e.sid].price, v.services[e.sid].price))
  {
    StepKeeps(db, e);
    if EditsPrice(db, e, e.sid) { EditMerges(db, e); } else { QuietKeepsPending(db, e, e.sid); }
  }

  datatype Figure = MinHours | HourlyRate | ExtraProRate | MaterialsFee

  function Of(price: Price, f: Figure): nat {
    match f
    case MinHours => price.minHours
    case HourlyRate => price.hourlyRate
    case ExtraProRate => price.extraProRate
    case MaterialsFee => price.materialsFee
  }

  function Given(p: PricePatch, f: Figure): Option<nat> {
    match f
    case MinHours => p.minHours
    case HourlyRate => p.hourlyRate
    case ExtraProRate => p.extraProRate
    case MaterialsFee => p.materialsFee
  }

  /** The value an edit last gave for one figure of a service, since a price change of it was last rejected. */
  ghost function LastGiven(es: seq<Event>, sid: ServiceId, f: Figure): Option<nat> {
    if es == [] then None
    else
      var db, e := Run(EMPTY, es[..|es| - 1]), es[|es| - 1];
      if RejectsPrice(db, e, sid) then None
      else if e.Update? && e.sid == sid && Lands(db, e) && Given(e.patch.price, f).Some? then Given(e.patch.price, f)
      else LastGiven(es[..|es| - 1], sid, f)
  }

  lemma {:induction false} LastGivenIsMerged(es: seq<Event>, sid: ServiceId, f: Figure)
    ensures LastGiven(es, sid, f) == Given(Merged(PriceEdits(es, sid)), f)
  {
    if es != [] {
      var db, e, earlier := Run(EMPTY, es[..|es| - 1]), es[|es| - 1], PriceEdits(es[..|es| - 1], sid);
      LastGivenIsMerged(es[..|es| - 1], sid, f);
      if e.Update? { assert (earlier + [e.patch.price])[..|earlier|] == earlier; }
    }
  }

  /** Over every run, each pending figure is the one last given for it since the last rejection, or else the live one. */
  lemma PendingIsLastGiven(es: seq<Event>, sid: ServiceId, f: Figure)
    requires sid in Run(EMPTY, es).services
    ensures var db := Run(EMPTY, es);
            Of(PendingPrice(db, sid), f) == LastGiven(es, sid, f).GetOr(Of(db.services[sid].price, f))
  {
    var db := Run(EMPTY, es);
    MergeIsFold(es, sid);
    FoldIsMerge(db.services[sid].price, PriceEdits(es, sid));
    LastGivenIsMerged(es, sid, f);
  }

  // ── creating ──

  /** A draft is saved as asked, hidden, and shown to nobody while inactive; and its request asks for just that. */
  lemma CreateLands(db: Catalogue, e: Event)
    requires e.Create? && FreshIds(db, e)
    ensures Call(db, e).Ok? <==> e.draft.vertical in e.verticals && e.draft.category in Categories(e.draft.vertical)
    ensures Call(db, e) == Err(WrongVertical) <==> e.draft.vertical !in e.verticals
    ensures Lands(db, e) ==>
              var d, v := e.draft, Step(db, e);
              && v.used == db.used + {e.sid}
              && v.services.Keys == db.services.Keys + {e.sid} && v.requests.Keys == db.requests.Keys + {e.rid}
              && (forall sid | sid in db.services && sid != e.sid :: v.services[sid] == db.services[sid])
              && (forall rid | rid in db.requests :: v.requests[rid] == db.requests[rid])
              && IsDraft(d, v.services[e.sid]) && IsFiled(v.requests[e.rid], NewService, e.sid, e.admin, e.now)
              && IsTermsOf(v.requests[e.rid].requested, v.services[e.sid], d.price)
  {
  }

  predicate IsDraft(d: Draft, s: Service) {
    && s.name == d.name && s.description == d.description && s.vertical == d.vertical && s.category == d.category
    && s.price == d.price && !s.approved
    && (s.active <==> d.active != Some(false))
    && (s.online <==> d.active != Some(false) && d.online != Some(false))
  }

  predicate IsFiled(r: Request, kind: Kind, sid: ServiceId, admin: User, now: int) {
    && r.kind == kind && r.status == Pending && r.serviceId == Some(sid) && r.openFor == Some(sid)
    && r.before.None? && r.requestedBy == admin && r.createdAt == now
    && r.decidedBy.None? && r.decidedAt.None? && r.note == ""
  }

  /** The name and tile of a service, with a price. */
  predicate IsTermsOf(t: Terms, s: Service, price: Price) {
    t.name == s.name && t.vertical == s.vertical && t.category == s.category && t.price == price
  }

  // ── editing ──

  predicate EditAllowed(db: Catalogue, e: Event)
    requires e.Update?
  {
    && e.sid in db.services && db.services[e.sid].vertical in e.verticals
    && (e.patch.vertical.None? || e.patch.vertical.value in e.verticals)
    && e.patch.category.GetOr(db.services[e.sid].category) in Categories(e.patch.vertical.GetOr(db.services[e.sid].vertical))
  }

  /** What an edit names is saved and the rest stays; the switches as well, and offline follows inactive. */
  predicate IsEdited(p: Patch, was: Service, now: Service) {
    && now.name == (if p.name.Some? then p.name.value else was.name)
    && now.description == (if p.description.Some? then p.description.value else was.description)
    && now.vertical == (if p.vertical.Some? then p.vertical.value else was.vertical)
    && now.category == (if p.category.Some? then p.category.value else was.category)
    && now.approved == was.approved
    && (now.active <==> if p.active.Some? then p.active.value else was.active)
    && (now.online <==> now.active && if p.online.Some? then p.online.value else was.online)
  }

  /** An edit lands exactly for a service, and towards a vertical and tile, that the admin runs; and touches one service. */
  lemma UpdateLands(db: Catalogue, e: Event)
    requires Inv(db) && e.Update? && FreshIds(db, e)
    ensures Call(db, e).Ok? <==> EditAllowed(db, e)
    ensures Call(db, e) == Err(NotFound) <==> e.sid !in db.services
    ensures Call(db, e) == Err(WrongVertical) <==>
              && e.sid in db.services
              && !(db.services[e.sid].vertical in e.verticals && (e.patch.vertical.None? || e.patch.vertical.value in e.verticals))
    ensures Lands(db, e) ==>
              var v := Step(db, e);
              && v.used == db.used && v.services.Keys == db.services.Keys
              && (forall sid | sid in db.services && sid != e.sid :: v.services[sid] == db.services[sid])
              && IsEdited(e.patch, db.services[e.sid], v.services[e.sid])
  {
  }

  /** The requests stay as they are unless the service is approved and the edit names a figure. */
  lemma QuietEditFilesNothing(db: Catalogue, e: Event)
    requires e.Update? && Lands(db, e)
    requires !db.services[e.sid].approved || forall f :: Given(e.patch.price, f).None?
    ensures Step(db, e).requests == db.requests
  {
    assert Given(e.patch.price, MinHours) == e.patch.price.minHours && Given(e.patch.price, HourlyRate) == e.patch.price.hourlyRate;
    assert Given(e.patch.price, ExtraProRate) == e.patch.price.extraProRate && Given(e.patch.price, MaterialsFee) == e.patch.price.materialsFee;
  }

  /**
   Naming a figure of an approved service leaves a request open exactly when
   what is then pending is not the live price: the one that was open, under its
   own id, or a new one; of the new name and tile, by this admin, from now.
   Every other request stays as it is.
   */
  lemma PriceEditFiles(db: Catalogue, e: Event, f: Figure)
    requires Inv(db) && e.Update? && Lands(db, e) && db.services[e.sid].approved && Given(e.patch.price, f).Some?
    ensures e.sid in Step(db, e).services
    ensures var v := Step(db, e);
            var was, now := OpenFor(db.requests, e.sid), OpenFor(v.requests, e.sid);
            && (now.Some? <==> PendingPrice(v, e.sid) != v.services[e.sid].price)
            && (now.Some? ==>
                  && now.value == was.GetOr(e.rid)
                  && IsFiled(v.requests[now.value], PriceChange, e.sid, e.admin, e.now)
                  && IsTermsOf(v.requests[now.value].requested, v.services[e.sid], PendingPrice(v, e.sid)))
            && (forall rid | rid in db.requests && db.requests[rid].openFor != Some(e.sid) ::
                  rid in v.requests && v.requests[rid] == db.requests[rid])
  {
    var v := Step(db, e);
    StepKeeps(db, e);
    assert ServiceOk(db, e.sid) && ServiceOk(v, e.sid);
    var was, now := OpenFor(db.requests, e.sid), OpenFor(v.requests, e.sid);
    assert PriceAsked(e.patch.price);
    if was.Some? {
      assert RequestOk(db, was.value) && !WaitsHere(db, was.value, e.sid);
      FiledIsPlain(db, was.value);
    }
    if now.Some? {
      assert RequestOk(v, now.value) && !WaitsHere(v, now.value, e.sid);
      if was.Some? && now.value in db.requests { assert OneOpen(db, was.value, now.value); }
    }
    WantedIsOpen(db, e);
  }

  /** Until it is decided a request has no trace of a decision. */
  lemma FiledIsPlain(db: Catalogue, rid: RequestId)
    requires Inv(db) && rid in db.requests && db.requests[rid].openFor.Some?
    ensures db.requests[rid].before.None? && db.requests[rid].decidedBy.None? && db.requests[rid].decidedAt.None?
            && db.requests[rid].note == ""
  {
    assert RequestOk(db, rid);
  }

  lemma WantedIsOpen(db: Catalogue, e: Event)
    requires Inv(db) && e.Update? && Lands(db, e) && db.services[e.sid].approved && PriceAsked(e.patch.price)
    ensures var v := Step(db, e);
            OpenFor(v.requests, e.sid).Some? <==> Overlay(PriceToEdit(db, e.sid), e.patch.price) != v.services[e.sid].price
  {
    var v := Step(db, e);
    var was := OpenFor(db.requests, e.sid);
    if Overlay(PriceToEdit(db, e.sid), e.patch.price) != v.services[e.sid].price {
      assert was.GetOr(e.rid) in v.requests && v.requests[was.GetOr(e.rid)].openFor == Some(e.sid);
    }
  }

  // ── deleting and deciding ──

  /** Deleting lands for a service of the admin's verticals; its open request goes, and its id off the others. */
  lemma DeleteLands(db: Catalogue, e: Event)
    requires e.Delete?
    ensures Lands(db, e) <==> e.sid in db.services && db.services[e.sid].vertical in e.verticals
    ensures Call(db, e) == Err(NotFound) <==> e.sid !in db.services
    ensures Call(db, e) == Err(WrongVertical) <==> e.sid in db.services && db.services[e.sid].vertical !in e.verticals
    ensures Lands(db, e) ==>
              var v := Step(db, e);
              && v.used == db.used && v.services == db.services - {e.sid}
              && (forall rid :: rid in v.requests <==> rid in db.requests && db.requests[rid].openFor != Some(e.sid))
              && (forall rid | rid in v.requests ::
                    v.requests[rid] == if db.requests[rid].serviceId == Some(e.sid) then db.requests[rid].(serviceId := None)
                                       else db.requests[rid])
  {
  }

  /** What a decision leaves on its request: who, when, why, what was live and what was asked for. */
  predicate IsDecided(was: Request, now: Request, e: Event, live: Service)
    requires e.Decide?
  {
    && now.kind == was.kind && now.requestedBy == was.requestedBy && now.createdAt == was.createdAt
    && now.openFor.None? && now.decidedBy == Some(e.admin) && now.decidedAt == Some(e.now) && now.note == e.note
    && now.status == (if e.approve then Approved else Rejected)
    && (was.kind == NewService ==> now.before.None? && IsTermsOf(now.requested, live, live.price))
    && (was.kind == PriceChange ==>
          && now.before.Some? && IsTermsOf(now.before.value, live, live.price)
          && IsTermsOf(now.requested, live, was.requested.price))
  }

  /**
   A decision lands exactly on a pending request whose service is still there.
   Approving shows the new service or makes the new price live; rejecting
   deletes the new service or leaves the live one alone. Nothing else moves.
   */
  lemma DecideLands(db: Catalogue, e: Event)
    requires Inv(db) && e.Decide?
    ensures Lands(db, e) <==> e.rid in db.requests && db.requests[e.rid].status == Pending
    ensures Call(db, e) == Err(NotFound) <==> e.rid !in db.requests
    ensures Call(db, e) == Err(AlreadyDecided) <==> e.rid in db.requests && db.requests[e.rid].status != Pending
    ensures Lands(db, e) ==>
              && db.requests[e.rid].openFor.Some? && db.requests[e.rid].openFor.value in db.services
              && var sid := db.requests[e.rid].openFor.value;
              && var was, v := db.requests[e.rid], Step(db, e);
              && var live := db.services[sid];
              && v.used == db.used
              && v.services == (if e.approve && was.kind == NewService then db.services[sid := live.(approved := true)]
                                else if e.approve then db.services[sid := live.(price := was.requested.price)]
                                else if was.kind == NewService then db.services - {sid} else db.services)
              && v.requests.Keys == db.requests.Keys
              && IsDecided(was, v.requests[e.rid], e, live)
              && (forall rid | rid in db.requests && rid != e.rid :: SameRecord(db.requests[rid], v.requests[rid]))
              && v.requests[e.rid].serviceId == if was.kind == NewService && !e.approve then None else Some(sid)
  {
    if e.rid in db.requests {
      assert RequestOk(db, e.rid);
      if Lands(db, e) { OthersOpenElsewhere(db, e); }
    }
  }

  lemma OthersOpenElsewhere(db: Catalogue, e: Event)
    requires Inv(db) && e.Decide? && Lands(db, e)
    ensures forall rid | rid in db.requests && rid != e.rid :: db.requests[rid].openFor != db.requests[e.rid].openFor
  {
    assert RequestOk(db, e.rid);
    forall rid | rid in db.requests && rid != e.rid ensures db.requests[rid].openFor != db.requests[e.rid].openFor {
      assert OneOpen(db, e.rid, rid);
    }
  }
}
