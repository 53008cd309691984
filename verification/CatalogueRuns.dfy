/** What every run of catalogue edits and decisions keeps, records and adds up to. */
module CatalogueRuns {
  import opened Common
  import opened Verticals
  import opened CatalogueProtocol

  // ── the tables agree ──

  predicate WaitsHere(db: Catalogue, rid: RequestId, sid: ServiceId) {
    rid in db.requests && db.requests[rid].openFor == Some(sid) && db.requests[rid].kind == NewService
  }

  ghost predicate WaitsAsNew(db: Catalogue, sid: ServiceId) {
    exists rid :: WaitsHere(db, rid, sid)
  }

  ghost predicate ServiceOk(db: Catalogue, sid: ServiceId) {
    sid in db.services ==>
      var s := db.services[sid];
      && sid in db.used
      && s.category in Categories(s.vertical)
      && (s.online ==> s.active)
      && (!s.approved <==> WaitsAsNew(db, sid))
  }

  /** A decision about a price records the same name and tile before and after, and two different prices. */
  predicate OnlyPriceDiffers(before: Terms, requested: Terms) {
    before.(price := requested.price) == requested && before.price != requested.price
  }

  /** No trace of a decision. */
  predicate Undecided(r: Request) {
    r.before.None? && r.decidedBy.None? && r.decidedAt.None? && r.note == ""
  }

  predicate RequestOk(db: Catalogue, rid: RequestId) {
    rid in db.requests ==>
      var r := db.requests[rid];
      && (r.openFor.Some? <==> r.status == Pending)
      && (r.serviceId.Some? ==> r.serviceId.value in db.services)
      && (r.openFor.Some? ==> r.serviceId == r.openFor)
      && (r.openFor.Some? && r.kind == PriceChange ==> r.requested.price != db.services[r.openFor.value].price)
      && (r.status != Pending ==> r.decidedBy.Some? && r.decidedAt.Some? && (r.before.None? <==> r.kind == NewService))
      && (r.status != Pending && r.before.Some? ==> OnlyPriceDiffers(r.before.value, r.requested))
      && (r.status == Pending ==> Undecided(r))
  }

  predicate OneOpen(db: Catalogue, a: RequestId, b: RequestId) {
    a in db.requests && b in db.requests && db.requests[a].openFor.Some?
    && db.requests[a].openFor == db.requests[b].openFor
    ==> a == b
  }

  ghost predicate Inv(db: Catalogue) {
    && (forall sid :: ServiceOk(db, sid))
    && (forall rid :: RequestOk(db, rid))
    && (forall a, b :: OneOpen(db, a, b))
  }

  lemma OpenIsThe(db: Catalogue, rid: RequestId, sid: ServiceId)
    requires Inv(db) && rid in db.requests && db.requests[rid].openFor == Some(sid)
    ensures OpenFor(db.requests, sid) == Some(rid)
  {
    assert OneOpen(db, rid, OpenFor(db.requests, sid).value);
  }

  lemma StepKeeps(db: Catalogue, e: Event)
    requires Inv(db)
    ensures Inv(Step(db, e))
  {
    if Lands(db, e) {
      match e
      case Seed(_, _) => SeedKeeps(db, e);
      case Create(_, _, _, _, _, _) => CreateKeeps(db, e);
      case Update(_, _, _, _, _, _) => UpdateKeeps(db, e);
      case Delete(sid, _) => RemoveKeeps(db, sid);
      case Decide(_, _, _, _, _) => DecideKeeps(db, e);
    }
  }

  lemma SeedKeeps(db: Catalogue, e: Event)
    requires Inv(db) && Lands(db, e) && e.Seed?
    ensures Inv(Step(db, e))
  {
    var v := Step(db, e);
    forall sid ensures ServiceOk(v, sid) {
      assert ServiceOk(db, sid);
      forall rid ensures WaitsHere(db, rid, sid) <==> WaitsHere(v, rid, sid) { }
      forall rid | WaitsHere(db, rid, sid) ensures sid in db.used { assert RequestOk(db, rid) && ServiceOk(db, sid); }
    }
    assert ServiceOk(db, e.sid);
    forall rid ensures RequestOk(v, rid) { assert RequestOk(db, rid); }
    forall a, b ensures OneOpen(v, a, b) { assert OneOpen(db, a, b); }
  }

  lemma CreateKeeps(db: Catalogue, e: Event)
    requires Inv(db) && Lands(db, e) && e.Create?
    ensures Inv(Step(db, e))
  {
    var v := Step(db, e);
    assert ServiceOk(db, e.sid);
    forall sid ensures ServiceOk(v, sid) {
      assert ServiceOk(db, sid);
      if sid == e.sid { assert WaitsHere(v, e.rid, sid); }
      assert sid != e.sid ==> forall rid :: WaitsHere(db, rid, sid) <==> WaitsHere(v, rid, sid);
    }
    forall rid ensures RequestOk(v, rid) { assert RequestOk(db, rid); }
    forall a, b ensures OneOpen(v, a, b) {
      assert OneOpen(db, a, b) && RequestOk(db, a) && RequestOk(db, b);
    }
  }

  lemma UpdateKeeps(db: Catalogue, e: Event)
    requires Inv(db) && Lands(db, e) && e.Update?
    ensures Inv(Step(db, e))
  {
    var v := Step(db, e);
    forall rid ensures RequestOk(v, rid) { UpdateKeepsRequest(db, e, rid); }
    forall a, b ensures OneOpen(v, a, b) {
      assert OneOpen(db, a, b) && RequestOk(db, a) && RequestOk(db, b);
    }
    forall sid ensures ServiceOk(v, sid) {
      assert ServiceOk(db, sid);
      UpdateKeepsKinds(db, e, sid);
    }
  }

  lemma UpdateKeepsRequest(db: Catalogue, e: Event, rid: RequestId)
    requires Inv(db) && Lands(db, e) && e.Update?
    ensures RequestOk(Step(db, e), rid)
  {
    var open := OpenFor(db.requests, e.sid);
    assert ServiceOk(db, e.sid) && RequestOk(db, rid) && OneOpen(db, rid, open.GetOr(rid));
    if open.Some? { assert RequestOk(db, open.value); }
    if !db.services[e.sid].approved {
      var w :| WaitsHere(db, w, e.sid);
      OpenIsThe(db, w, e.sid);
    }
  }

  /** No edit files, withdraws or replaces the request of a service that is not approved yet. */
  lemma UpdateKeepsKinds(db: Catalogue, e: Event, sid: ServiceId)
    requires Inv(db) && Lands(db, e) && e.Update?
    ensures WaitsAsNew(Step(db, e), sid) <==> WaitsAsNew(db, sid)
  {
    var v := Step(db, e);
    assert ServiceOk(db, e.sid);
    forall rid ensures WaitsHere(db, rid, sid) <==> WaitsHere(v, rid, sid) {
      var open := OpenFor(db.requests, e.sid);
      assert OneOpen(db, rid, open.GetOr(rid));
    }
  }

  /** Removing a service takes its waiting request along, so nothing else has to be known of it. */
  lemma RemoveKeeps(db: Catalogue, sid: ServiceId)
    requires forall other | other != sid :: ServiceOk(db, other)
    requires (forall rid :: RequestOk(db, rid)) && forall a, b :: OneOpen(db, a, b)
    ensures Inv(RemoveService(db, sid))
  {
    var v := RemoveService(db, sid);
    forall rid ensures RequestOk(v, rid) { assert RequestOk(db, rid); }
    forall a, b ensures OneOpen(v, a, b) { assert OneOpen(db, a, b); }
    forall other ensures ServiceOk(v, other) {
      if other != sid {
        assert ServiceOk(db, other);
        assert forall rid :: WaitsHere(db, rid, other) <==> WaitsHere(v, rid, other);
      }
    }
  }

  lemma DecideKeeps(db: Catalogue, e: Event)
    requires Inv(db) && Lands(db, e) && e.Decide?
    ensures Inv(Step(db, e))
  {
    var sid := db.requests[e.rid].serviceId.value;
    var r := db.requests[e.rid];
    var live := TermsOf(db.services[sid]);
    assert RequestOk(db, e.rid) && ServiceOk(db, sid);
    assert r.kind == NewService ==> WaitsHere(db, e.rid, sid);
    var claimed := db.(requests := db.requests[e.rid := Recorded(r, e.approve,
      if r.kind == NewService then None else Some(live), RequestedTerms(r, live), e.admin, e.note, e.now)]);
    var v := if e.approve || r.kind == PriceChange then Step(db, e) else claimed;
    forall rid ensures RequestOk(v, rid) { assert RequestOk(db, rid) && OneOpen(db, rid, e.rid); }
    forall a, b ensures OneOpen(v, a, b) { assert OneOpen(db, a, b); }
    forall other | other != sid || v != claimed || r.kind == PriceChange ensures ServiceOk(v, other) {
      assert ServiceOk(db, other);
      forall rid ensures WaitsHere(v, rid, other) <==> WaitsHere(db, rid, other) && other != sid {
        assert OneOpen(db, rid, e.rid);
      }
    }
    if r.kind == NewService && !e.approve { RemoveKeeps(claimed, sid); }
  }

  lemma {:induction false} Reachable(es: seq<Event>)
    ensures Inv(Run(EMPTY, es))
  {
    if es != [] {
      Reachable(es[..|es| - 1]);
      StepKeeps(Run(EMPTY, es[..|es| - 1]), es[|es| - 1]);
    }
  }

  // ── decided requests ──

  predicate Decided(db: Catalogue, rid: RequestId) {
    rid in db.requests && db.requests[rid].status != Pending
  }

  /** The same record, except that its service may have been deleted since. */
  predicate SameRecord(was: Request, now: Request) {
    now == was || now == was.(serviceId := None)
  }

  lemma DecidedStays(db: Catalogue, e: Event, rid: RequestId)
    requires Inv(db) && Decided(db, rid)
    ensures Decided(Step(db, e), rid) && SameRecord(db.requests[rid], Step(db, e).requests[rid])
  {
    assert RequestOk(db, rid);
  }

  /** No later call changes or deletes a decided request, even when its service is deleted. */
  lemma {:induction false} DecidedForever(db: Catalogue, more: seq<Event>, rid: RequestId)
    requires Inv(db) && Decided(db, rid)
    ensures Inv(Run(db, more))
    ensures Decided(Run(db, more), rid) && SameRecord(db.requests[rid], Run(db, more).requests[rid])
  {
    if more != [] {
      DecidedForever(db, more[..|more| - 1], rid);
      DecidedStays(Run(db, more[..|more| - 1]), more[|more| - 1], rid);
      StepKeeps(Run(db, more[..|more| - 1]), more[|more| - 1]);
    }
  }

  /** What a decided price change records is a change of price and of nothing else. */
  lemma DecisionsRecordAChange(es: seq<Event>, rid: RequestId)
    requires Decided(Run(EMPTY, es), rid) && Run(EMPTY, es).requests[rid].kind == PriceChange
    ensures var row := Run(EMPTY, es).requests[rid];
            && row.before.Some? && OnlyPriceDiffers(row.before.value, row.requested)
            && row.openFor.None? && row.decidedBy.Some? && row.decidedAt.Some?
  {
    Reachable(es);
    assert RequestOk(Run(EMPTY, es), rid);
  }

  ghost predicate Rules(db: Catalogue, e: Event, rid: RequestId) {
    e.Decide? && e.rid == rid && Lands(db, e)
  }

  /** How many decisions of a request have landed. */
  ghost function Verdicts(es: seq<Event>, rid: RequestId): nat {
    if es == [] then 0
    else Verdicts(es[..|es| - 1], rid) + (if Rules(Run(EMPTY, es[..|es| - 1]), es[|es| - 1], rid) then 1 else 0)
  }

  /** A request is decided once, and only a decision decides it. */
  lemma {:induction false} DecidedOnce(es: seq<Event>, rid: RequestId)
    ensures Verdicts(es, rid) == if Decided(Run(EMPTY, es), rid) then 1 else 0
  {
    if es != [] {
      var db, e := Run(EMPTY, es[..|es| - 1]), es[|es| - 1];
      DecidedOnce(es[..|es| - 1], rid);
      Reachable(es[..|es| - 1]);
      if Decided(db, rid) { DecidedStays(db, e, rid); } else { OnlyRulingDecides(db, e, rid); }
    }
  }

  lemma OnlyRulingDecides(db: Catalogue, e: Event, rid: RequestId)
    requires Inv(db) && !Decided(db, rid)
    ensures Decided(Step(db, e), rid) <==> Rules(db, e, rid)
  {
    if rid in db.requests { assert RequestOk(db, rid); }
    if e.Update? && e.sid in db.services && OpenFor(db.requests, e.sid).Some? {
      assert RequestOk(db, OpenFor(db.requests, e.sid).value);
    }
  }

  // ── one price, moved only by approval ──

  /** An approved service's price changes only when its own waiting price change is approved, and to that price. */
  lemma PriceMovesByApproval(es: seq<Event>, e: Event, sid: ServiceId)
    requires var db, v := Run(EMPTY, es), Step(Run(EMPTY, es), e);
             && sid in db.services && sid in v.services && db.services[sid].approved
             && v.services[sid].price != db.services[sid].price
    ensures var db, v := Run(EMPTY, es), Step(Run(EMPTY, es), e);
            && e.Decide? && e.approve && OpenFor(db.requests, sid) == Some(e.rid)
            && db.requests[e.rid].kind == PriceChange
            && v.services[sid] == db.services[sid].(price := db.requests[e.rid].requested.price)
  {
    var db := Run(EMPTY, es);
    Reachable(es);
    assert ServiceOk(db, sid);
    if e.Decide? {
      assert RequestOk(db, e.rid);
      OpenIsThe(db, e.rid, sid);
      assert !WaitsHere(db, e.rid, sid);
    }
  }

  // ── the record of decisions ──

  ghost predicate RulesFor(db: Catalogue, e: Event, sid: ServiceId) {
    e.Decide? && Lands(db, e) && db.requests[e.rid].serviceId == Some(sid)
  }

  /** The rows decided for a service, each as it was recorded, in the order of the decisions. */
  ghost function Rulings(es: seq<Event>, sid: ServiceId): seq<Request> {
    if es == [] then []
    else
      var db, e := Run(EMPTY, es[..|es| - 1]), es[|es| - 1];
      Rulings(es[..|es| - 1], sid) +
      if RulesFor(db, e, sid) then [RuledRow(db, e)] else []
  }

  ghost function RuledRow(db: Catalogue, e: Event): Request
    requires e.Decide? && Lands(db, e)
  {
    var r := db.requests[e.rid];
    var live := TermsOf(db.services[r.serviceId.value]);
    Recorded(r, e.approve, if r.kind == NewService then None else Some(live), RequestedTerms(r, live), e.admin, e.note, e.now)
  }

  /** The ids of those rows. */
  ghost function RulingIds(es: seq<Event>, sid: ServiceId): seq<RequestId> {
    if es == [] then []
    else
      var db, e := Run(EMPTY, es[..|es| - 1]), es[|es| - 1];
      RulingIds(es[..|es| - 1], sid) + if RulesFor(db, e, sid) then [e.rid] else []
  }

  /** The rows are those the table holds under these ids, but for a service deleted since. */
  ghost predicate AreKept(db: Catalogue, ids: seq<RequestId>, rows: seq<Request>) {
    && |ids| == |rows|
    && (forall i | 0 <= i < |ids| :: Decided(db, ids[i]) && SameRecord(rows[i], db.requests[ids[i]]))
    && (forall i, j | 0 <= i < j < |ids| :: ids[i] != ids[j])
  }

  lemma RulingIsKept(db: Catalogue, e: Event, sid: ServiceId)
    requires RulesFor(db, e, sid)
    ensures !Decided(db, e.rid) && Decided(Step(db, e), e.rid)
    ensures SameRecord(RuledRow(db, e), Step(db, e).requests[e.rid])
  {
  }

  lemma StepKeepsRows(db: Catalogue, e: Event, ids: seq<RequestId>, rows: seq<Request>)
    requires Inv(db) && AreKept(db, ids, rows)
    ensures AreKept(Step(db, e), ids, rows)
  {
    forall i | 0 <= i < |ids| ensures Decided(Step(db, e), ids[i]) && SameRecord(rows[i], Step(db, e).requests[ids[i]]) {
      assert Decided(db, ids[i]);
      DecidedStays(db, e, ids[i]);
    }
  }

  /** Every row of the record is in the table after the run, under an id of its own. */
  lemma {:induction false} RulingsAreKept(es: seq<Event>, sid: ServiceId)
    ensures AreKept(Run(EMPTY, es), RulingIds(es, sid), Rulings(es, sid))
  {
    if es != [] {
      var db, e := Run(EMPTY, es[..|es| - 1]), es[|es| - 1];
      var ids, rows := RulingIds(es[..|es| - 1], sid), Rulings(es[..|es| - 1], sid);
      RulingsAreKept(es[..|es| - 1], sid);
      Reachable(es[..|es| - 1]);
      StepKeepsRows(db, e, ids, rows);
      if RulesFor(db, e, sid) {
        RulingIsKept(db, e, sid);
        assert forall i | 0 <= i < |ids| :: Decided(db, ids[i]);
      }
    }
  }

  /** The price a service came with: none if it was requested, its own if it was seeded. */
  ghost function StartPrice(es: seq<Event>, sid: ServiceId): Option<Price> {
    if es == [] then None
    else
      var e := es[|es| - 1];
      if e.Seed? && e.sid == sid && Seeded(e.service) && Lands(Run(EMPTY, es[..|es| - 1]), e) then Some(e.service.price)
      else StartPrice(es[..|es| - 1], sid)
  }

  /** The price last approved, given the price started with. */
  function LastApproved(start: Option<Price>, rows: seq<Request>): Option<Price> {
    if rows == [] then start
    else if rows[|rows| - 1].status == Approved then Some(rows[|rows| - 1].requested.price)
    else LastApproved(start, rows[..|rows| - 1])
  }

  function PriceBefore(r: Request): Option<Price> {
    if r.before.None? then None else Some(r.before.value.price)
  }

  ghost predicate Chained(start: Option<Price>, rows: seq<Request>) {
    forall i | 0 <= i < |rows| :: PriceBefore(rows[i]) == LastApproved(start, rows[..i])
  }

  function LivePrice(db: Catalogue, sid: ServiceId): Option<Price> {
    if sid in db.services && db.services[sid].approved then Some(db.services[sid].price) else None
  }

  lemma ChainGrows(start: Option<Price>, rows: seq<Request>, r: Request)
    requires Chained(start, rows) && PriceBefore(r) == LastApproved(start, rows)
    ensures Chained(start, rows + [r])
    ensures LastApproved(start, rows + [r]) ==
            if r.status == Approved then Some(r.requested.price) else LastApproved(start, rows)
  {
    var longer := rows + [r];
    assert longer[..|rows|] == rows;
    forall i | 0 <= i < |longer| ensures PriceBefore(longer[i]) == LastApproved(start, longer[..i]) {
      if i < |rows| { assert longer[..i] == rows[..i]; }
    }
  }

  lemma {:induction false} UnknownHasNoRulings(es: seq<Event>, sid: ServiceId)
    requires sid !in Run(EMPTY, es).used
    ensures Rulings(es, sid) == [] && StartPrice(es, sid) == None
  {
    if es != [] {
      var db := Run(EMPTY, es[..|es| - 1]);
      Reachable(es[..|es| - 1]);
      UnknownHasNoRulings(es[..|es| - 1], sid);
      assert ServiceOk(db, sid);
    }
  }

  /**
   The audit chain. Every decision about a service, approved or rejected,
   recorded as the price before it the price last approved before it, which a
   service not yet approved does not have; what is live now is the price last
   approved; and the records are the rows the table of requests still holds.
   */
  lemma AuditChain(es: seq<Event>, sid: ServiceId)
    ensures var db, rows, start := Run(EMPTY, es), Rulings(es, sid), StartPrice(es, sid);
            && AreKept(db, RulingIds(es, sid), rows)
            && Chained(start, rows)
            && (sid in db.services ==> LivePrice(db, sid) == LastApproved(start, rows))
  {
    RulingsAreKept(es, sid);
    PricesChain(es, sid);
  }

  lemma {:induction false} PricesChain(es: seq<Event>, sid: ServiceId)
    ensures var db, rows, start := Run(EMPTY, es), Rulings(es, sid), StartPrice(es, sid);
            && Chained(start, rows)
            && (sid in db.services ==> LivePrice(db, sid) == LastApproved(start, rows))
  {
    if es != [] {
      var db, e := Run(EMPTY, es[..|es| - 1]), es[|es| - 1];
      PricesChain(es[..|es| - 1], sid);
      Reachable(es[..|es| - 1]);
      assert ServiceOk(db, sid);
      if RulesFor(db, e, sid) {
        assert RequestOk(db, e.rid);
        RulingTellsLive(db, e, sid);
        ChainGrows(StartPrice(es[..|es| - 1], sid), Rulings(es[..|es| - 1], sid), RuledRow(db, e));
      } else {
        assert Rulings(es, sid) == Rulings(es[..|es| - 1], sid);
        if sid !in db.used { UnknownHasNoRulings(es[..|es| - 1], sid); }
        if sid in Step(db, e).services { QuietKeepsLive(db, e, sid); }
      }
    }
  }

  lemma RulingTellsLive(db: Catalogue, e: Event, sid: ServiceId)
    requires Inv(db) && RulesFor(db, e, sid)
    ensures PriceBefore(RuledRow(db, e)) == LivePrice(db, sid)
    ensures sid in Step(db, e).services ==>
              LivePrice(Step(db, e), sid) == if e.approve then Some(RuledRow(db, e).requested.price) else LivePrice(db, sid)
  {
    assert ServiceOk(db, sid) && RequestOk(db, e.rid);
    if db.services[sid].approved { assert !WaitsHere(db, e.rid, sid); }
    else {
      var rid :| WaitsHere(db, rid, sid);
      assert OneOpen(db, rid, e.rid);
    }
  }

  lemma QuietKeepsLive(db: Catalogue, e: Event, sid: ServiceId)
    requires Inv(db) && !RulesFor(db, e, sid) && sid in Step(db, e).services
    ensures sid in db.services ==> LivePrice(Step(db, e), sid) == LivePrice(db, sid)
    ensures sid !in db.services ==>
              && (e.Seed? || e.Create?) && sid == e.sid && sid !in db.used
              && LivePrice(Step(db, e), sid) == if e.Seed? then Some(e.service.price) else None
  {
    assert ServiceOk(db, sid);
  }

  // ── merging is a fold ──

  /** What a service would cost if everything waiting were approved now. */
  ghost function PendingPrice(db: Catalogue, sid: ServiceId): Price
    requires sid in db.services
  {
    var open := OpenFor(db.requests, sid);
    if open.Some? && db.requests[open.value].kind == PriceChange then db.requests[open.value].requested.price
    else db.services[sid].price
  }

  function FoldEdits(price: Price, edits: seq<PricePatch>): Price {
    if edits == [] then price else Overlay(FoldEdits(price, edits[..|edits| - 1]), edits[|edits| - 1])
  }

  ghost predicate EditsPrice(db: Catalogue, e: Event, sid: ServiceId) {
    e.Update? && e.sid == sid && Lands(db, e) && PriceAsked(e.patch.price)
  }

  ghost predicate RejectsPrice(db: Catalogue, e: Event, sid: ServiceId) {
    RulesFor(db, e, sid) && !e.approve && db.requests[e.rid].kind == PriceChange
  }

  /** The price edits of a service since the last rejection of one, oldest first. */
  ghost function PriceEdits(es: seq<Event>, sid: ServiceId): seq<PricePatch> {
    if es == [] then []
    else
      var db, e, earlier := Run(EMPTY, es[..|es| - 1]), es[|es| - 1], PriceEdits(es[..|es| - 1], sid);
      if RejectsPrice(db, e, sid) then []
      else if EditsPrice(db, e, sid) then earlier + [e.patch.price]
      else earlier
  }

  /** The last word of a sequence of edits on each field. */
  function Last<T>(older: Option<T>, newer: Option<T>): Option<T> {
    if newer.Some? then newer else older
  }

  function Merged(edits: seq<PricePatch>): PricePatch {
    if edits == [] then PricePatch(None, None, None, None)
    else
      var a, b := Merged(edits[..|edits| - 1]), edits[|edits| - 1];
      PricePatch(Last(a.minHours, b.minHours), Last(a.hourlyRate, b.hourlyRate),
                 Last(a.extraProRate, b.extraProRate), Last(a.materialsFee, b.materialsFee))
  }

  lemma {:induction false} FoldIsMerge(price: Price, edits: seq<PricePatch>)
    ensures FoldEdits(price, edits) == Overlay(price, Merged(edits))
  {
    if edits != [] { FoldIsMerge(price, edits[..|edits| - 1]); }
  }

  /** Edits already in a price change nothing when they are laid over it again. */
  lemma FoldAgain(price: Price, edits: seq<PricePatch>)
    ensures FoldEdits(FoldEdits(price, edits), edits) == FoldEdits(price, edits)
  {
    FoldIsMerge(price, edits);
    FoldIsMerge(FoldEdits(price, edits), edits);
  }

  lemma FoldOfNext(price: Price, edits: seq<PricePatch>, p: PricePatch)
    ensures FoldEdits(price, edits + [p]) == Overlay(FoldEdits(price, edits), p)
    ensures FoldEdits(price, edits) == price ==> FoldEdits(Overlay(price, p), edits + [p]) == Overlay(price, p)
  {
    assert (edits + [p])[..|edits|] == edits;
    FoldIsMerge(price, edits);
    FoldIsMerge(Overlay(price, p), edits);
  }

  lemma {:induction false} UnknownHasNoEdits(es: seq<Event>, sid: ServiceId)
    requires sid !in Run(EMPTY, es).used
    ensures PriceEdits(es, sid) == []
  {
    if es != [] {
      Reachable(es[..|es| - 1]);
      UnknownHasNoEdits(es[..|es| - 1], sid);
      assert ServiceOk(Run(EMPTY, es[..|es| - 1]), sid);
    }
  }

  /**
   Merging, withdrawing and replacing requests come to a plain fold: the price
   waiting, or the live one, is always the live price with every edit since the
   last rejection laid over it in order.
   */
  lemma {:induction false} MergeIsFold(es: seq<Event>, sid: ServiceId)
    requires sid in Run(EMPTY, es).services
    ensures var db := Run(EMPTY, es);
            PendingPrice(db, sid) == FoldEdits(db.services[sid].price, PriceEdits(es, sid))
  {
    if es != [] {
      var db, e, edits := Run(EMPTY, es[..|es| - 1]), es[|es| - 1], PriceEdits(es[..|es| - 1], sid);
      Reachable(es[..|es| - 1]);
      Reachable(es);
      if sid in db.services {
        MergeIsFold(es[..|es| - 1], sid);
        FoldStep(db, e, sid, edits);
      } else {
        assert ServiceOk(db, sid);
        UnknownHasNoEdits(es[..|es| - 1], sid);
        NewHasNothingWaiting(db, e, sid);
      }
    }
  }

  lemma NewHasNothingWaiting(db: Catalogue, e: Event, sid: ServiceId)
    requires Inv(db) && sid !in db.services && sid in Step(db, e).services
    ensures PendingPrice(Step(db, e), sid) == Step(db, e).services[sid].price
    ensures !RejectsPrice(db, e, sid) && !EditsPrice(db, e, sid)
  {
    var open := OpenFor(Step(db, e).requests, sid);
    if open.Some? { assert RequestOk(db, open.value); }
  }

  lemma FoldStep(db: Catalogue, e: Event, sid: ServiceId, edits: seq<PricePatch>)
    requires Inv(db) && Inv(Step(db, e)) && sid in db.services && sid in Step(db, e).services
    requires PendingPrice(db, sid) == FoldEdits(db.services[sid].price, edits)
    ensures var v := Step(db, e);
            var now := if RejectsPrice(db, e, sid) then []
                       else if EditsPrice(db, e, sid) then edits + [e.patch.price] else edits;
            PendingPrice(v, sid) == FoldEdits(v.services[sid].price, now)
  {
    var v := Step(db, e);
    var price := db.services[sid].price;
    assert ServiceOk(db, sid);
    if RulesFor(db, e, sid) {
      DecisionSettles(db, e, sid);
      FoldAgain(price, edits);
      assert RejectsPrice(db, e, sid) <==> !e.approve;
    } else if EditsPrice(db, e, sid) {
      EditMerges(db, e);
      FoldOfNext(price, edits, e.patch.price);
    } else {
      QuietKeepsPending(db, e, sid);
    }
  }

  /** A decision leaves nothing waiting; approving makes live what was waiting. */
  lemma DecisionSettles(db: Catalogue, e: Event, sid: ServiceId)
    requires Inv(db) && Inv(Step(db, e)) && RulesFor(db, e, sid) && sid in Step(db, e).services
    ensures var v := Step(db, e);
            && PendingPrice(v, sid) == v.services[sid].price
            && v.services[sid].price == if e.approve then PendingPrice(db, sid) else db.services[sid].price
  {
    assert RequestOk(db, e.rid);
    OpenIsThe(db, e.rid, sid);
    var v := Step(db, e);
    var open := OpenFor(v.requests, sid);
    assert OneOpen(db, open.GetOr(e.rid), e.rid);
  }

  /** A price edit moves what is pending by exactly what it asks. */
  lemma EditMerges(db: Catalogue, e: Event)
    requires Inv(db) && Inv(Step(db, e)) && e.Update? && EditsPrice(db, e, e.sid)
    ensures var v := Step(db, e);
            && PendingPrice(v, e.sid) == Overlay(PendingPrice(db, e.sid), e.patch.price)
            && (!db.services[e.sid].approved ==> PendingPrice(db, e.sid) == db.services[e.sid].price)
            && v.services[e.sid].price ==
               if db.services[e.sid].approved then db.services[e.sid].price
               else Overlay(db.services[e.sid].price, e.patch.price)
  {
    var v := Step(db, e);
    assert ServiceOk(db, e.sid) && ServiceOk(v, e.sid);
    var was, now := OpenFor(db.requests, e.sid), OpenFor(v.requests, e.sid);
    if was.Some? {
      assert RequestOk(db, was.value);
      if was.value in v.requests && v.requests[was.value].openFor == Some(e.sid) { OpenIsThe(v, was.value, e.sid); }
    } else if e.rid in v.requests { OpenIsThe(v, e.rid, e.sid); }
    if now.Some? && now.value in db.requests { OpenIsThe(db, now.value, e.sid); }
    if !db.services[e.sid].approved {
      var rid :| WaitsHere(db, rid, e.sid);
      OpenIsThe(db, rid, e.sid);
    } else if was.Some? {
      assert !WaitsHere(db, was.value, e.sid);
    }
  }

  /** A call that neither decides about a service nor edits its price leaves its waiting request as it is. */
  lemma WaitingStays(db: Catalogue, e: Event, sid: ServiceId, rid: RequestId)
    requires Inv(db) && !RulesFor(db, e, sid) && !EditsPrice(db, e, sid)
    requires sid in Step(db, e).services && rid in db.requests && db.requests[rid].openFor == Some(sid)
    ensures rid in Step(db, e).requests && Step(db, e).requests[rid] == db.requests[rid]
  {
    assert RequestOk(db, rid);
  }

  lemma NothingFiled(db: Catalogue, e: Event, sid: ServiceId, rid: RequestId)
    requires Inv(db) && sid in db.services && !EditsPrice(db, e, sid)
    requires rid in Step(db, e).requests && Step(db, e).requests[rid].openFor == Some(sid)
    ensures rid in db.requests && db.requests[rid].openFor == Some(sid)
  {
    assert ServiceOk(db, sid);
  }

  lemma QuietKeepsPending(db: Catalogue, e: Event, sid: ServiceId)
    requires Inv(db) && Inv(Step(db, e)) && sid in db.services && sid in Step(db, e).services
    requires !RulesFor(db, e, sid) && !EditsPrice(db, e, sid)
    ensures var v := Step(db, e);
            PendingPrice(v, sid) == PendingPrice(db, sid) && v.services[sid].price == db.services[sid].price
  {
    var v := Step(db, e);
    QuietKeepsPrice(db, e, sid);
    var was, now := OpenFor(db.requests, sid), OpenFor(v.requests, sid);
    if was.Some? {
      WaitingStays(db, e, sid, was.value);
      OpenIsThe(v, was.value, sid);
    } else if now.Some? {
      NothingFiled(db, e, sid, now.value);
    }
  }

  lemma QuietKeepsPrice(db: Catalogue, e: Event, sid: ServiceId)
    requires Inv(db) && sid in db.services && sid in Step(db, e).services
    requires !RulesFor(db, e, sid) && !EditsPrice(db, e, sid)
    ensures Step(db, e).services[sid].price == db.services[sid].price
  {
    assert ServiceOk(db, sid);
  }
}
