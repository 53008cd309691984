/**
 Booking a home service: the checks in their order, the bill, and the checkout
 that the payment protocol goes on with.
 */
module BookingDesk {
  import opened Common
  import opened PricingRules
  import AreaMatching
  import BookingStatus
  import PaymentProtocol
  import PaymentBackend

  /** A service row, as far as booking it looks at one. */
  datatype Offer = Offer(price: ServicePrice, minHours: nat, approved: bool, active: bool, online: bool)

  /** A booking request; [code] is None when no code was typed, and else what the code was found to be. */
  datatype Wish = Wish(hours: nat, professionals: nat, withMaterials: bool, day: int, code: Option<Option<PromoRule>>)

  /** Where and when it is asked. */
  datatype Scene = Scene(
    address: Option<AreaMatching.Address>, areas: seq<AreaMatching.Area>, distance: AreaMatching.Distance,
    today: int, paymentsEnabled: bool)

  datatype Bill = Bill(base: nat, materials: nat, discount: nat, total: int)

  datatype Refused = NoService | TooFewHours | DayPassed | NoAddress | NotServed
                   | CodeRejected(why: PricingRules.Refusal) | PaymentsUnavailable | CheckoutFailed

  /** Materials are charged only where the service has any; the discount is the code's, if one was typed. */
  function BillFor(price: ServicePrice, w: Wish, today: int): Result<Bill, PricingRules.Refusal>
    requires w.professionals >= 1
  {
    var q := QuoteFor(price, w.hours, w.professionals, w.withMaterials && price.materialsFee > 0);
    if w.code.None? then Ok(Bill(q.base, q.materials, 0, q.subtotal))
    else
      match ApplyPromo(w.code.value, q.subtotal, today)
      case Err(why) => Err(why)
      case Ok(a) => Ok(Bill(q.base, q.materials, a.discount, q.subtotal - a.discount))
  }

  // ── what stands between a customer and a booking ──

  predicate Bookable(offer: Option<Offer>) {
    offer.Some? && offer.value.approved && offer.value.active && offer.value.online
  }

  predicate InTime(offer: Offer, w: Wish, scene: Scene) {
    offer.minHours <= w.hours && scene.today <= w.day
  }

  /** Some area covers the address, or is named in it. */
  ghost predicate Served(scene: Scene) {
    && scene.address.Some?
    && (AreaMatching.Pinned(scene.distance, scene.areas, scene.address.value)
        || exists j :: 0 <= j < |scene.areas| && AreaMatching.IsPincodeOf(scene.address.value.text, scene.areas[j].pincode))
  }

  /** What the team and the materials asked for come to. */
  function Subtotal(price: ServicePrice, w: Wish): nat {
    TeamCost(price, w.hours, w.professionals) + if w.withMaterials then price.materialsFee else 0
  }

  /** No code was typed, or it was found, is switched on and not past its last day, and the order reaches its minimum. */
  predicate CodeTaken(price: ServicePrice, w: Wish, today: int) {
    w.code.Some? ==>
      && w.code.value.Some? && today <= w.code.value.value.validTill && w.code.value.value.active
      && w.code.value.value.minOrder <= Subtotal(price, w)
  }

  predicate Payable(bill: Bill, scene: Scene) {
    bill.total <= 0 || scene.paymentsEnabled
  }

  /** The first check that fails, or the area that takes the booking and its bill. */
  function Screened(offer: Option<Offer>, w: Wish, scene: Scene): Result<(AreaMatching.Area, Bill), Refused>
    requires w.professionals >= 1
  {
    if offer.None? || !offer.value.approved || !offer.value.active || !offer.value.online then Err(NoService)
    else if w.hours < offer.value.minHours then Err(TooFewHours)
    else if w.day < scene.today then Err(DayPassed)
    else if scene.address.None? then Err(NoAddress)
    else
      var area := AreaMatching.MatchArea(scene.distance, scene.areas, scene.address.value);
      if area.None? then Err(NotServed)
      else
        match BillFor(offer.value.price, w, scene.today)
        case Err(why) => Err(CodeRejected(why))
        case Ok(bill) =>
          if bill.total > 0 && !scene.paymentsEnabled then Err(PaymentsUnavailable) else Ok((area.value, bill))
  }

  /** The store after the booking call has run alone: how the checkout went is [made] and [stored]. */
  function AfterBooking(w: PaymentProtocol.Store, id: nat, user: nat, total: int, now: int, made: Option<nat>, stored: bool)
    : PaymentProtocol.Next
  {
    PaymentBackend.FollowAll(PaymentProtocol.Done(w),
      PaymentProtocol.Book(0, id, user, total, now), PaymentProtocol.OrderOpened(0, made),
      PaymentProtocol.PaymentStored(0, stored), PaymentProtocol.BookingClosed(0))
  }

  lemma BillIffCodeTaken(price: ServicePrice, w: Wish, today: int)
    requires w.professionals >= 1
    ensures BillFor(price, w, today).Ok? <==> CodeTaken(price, w, today)
  {
    QuoteIsPerProfessionalPerHour(price, w.hours, w.professionals, w.withMaterials && price.materialsFee > 0);
    if w.code.Some? && w.code.value.Some? { AcceptedDiscount(w.code.value.value, Subtotal(price, w), today); }
  }

  lemma MatchedIffServed(scene: Scene)
    requires scene.address.Some?
    ensures AreaMatching.MatchArea(scene.distance, scene.areas, scene.address.value).Some? <==> Served(scene)
  {
    AreaMatching.MatchAreaIsRight(scene.distance, scene.areas, scene.address.value);
  }

  /**
   A booking is let through exactly when the service can be booked, for enough
   hours and a day not passed, the address is served, any typed code is taken,
   and what is to be paid can be; and each refusal is given exactly when its
   own condition is the first that fails.
   */
  lemma LetThroughIff(offer: Option<Offer>, w: Wish, scene: Scene)
    requires w.professionals >= 1
    ensures var r := Screened(offer, w, scene);
            && (r == Err(NoService) <==> !Bookable(offer))
            && (r == Err(TooFewHours) <==> Bookable(offer) && w.hours < offer.value.minHours)
            && (r == Err(DayPassed) <==> Bookable(offer) && offer.value.minHours <= w.hours && w.day < scene.today)
            && (r == Err(NoAddress) <==> Bookable(offer) && InTime(offer.value, w, scene) && scene.address.None?)
            && (r == Err(NotServed) <==>
                  Bookable(offer) && InTime(offer.value, w, scene) && scene.address.Some? && !Served(scene))
            && (r.Err? && r.error.CodeRejected? <==>
                  && Bookable(offer) && InTime(offer.value, w, scene) && Served(scene)
                  && !CodeTaken(offer.value.price, w, scene.today))
            && (r == Err(PaymentsUnavailable) <==>
                  && Bookable(offer) && InTime(offer.value, w, scene) && Served(scene)
                  && BillFor(offer.value.price, w, scene.today).Ok?
                  && !Payable(BillFor(offer.value.price, w, scene.today).value, scene))
            && (r.Ok? <==>
                  && Bookable(offer) && InTime(offer.value, w, scene) && Served(scene)
                  && CodeTaken(offer.value.price, w, scene.today) && BillFor(offer.value.price, w, scene.today).Ok?
                  && Payable(BillFor(offer.value.price, w, scene.today).value, scene))
            && (r.Ok? ==> r.value.1 == BillFor(offer.value.price, w, scene.today).value)
  {
    if offer.Some? { BillIffCodeTaken(offer.value.price, w, scene.today); }
    if scene.address.Some? { MatchedIffServed(scene); }
  }

  /** Books a service; a refusal before the booking is stored changes nothing. */
  method BookService(
      backend: PaymentBackend.Backend, id: nat, user: nat, now: int, offer: Option<Offer>, w: Wish, scene: Scene,
      made: Option<nat>, stored: bool)
    returns (r: Result<Bill, Refused>)
    requires w.professionals >= 1
    requires id !in backend.bookings && (made.Some? ==> made.value !in backend.issued)
    modifies backend
    ensures match Screened(offer, w, scene)
            case Err(why) => r == Err(why) && backend.World() == old(backend.World())
            case Ok((_, bill)) =>
              && PaymentProtocol.Done(backend.World()) == AfterBooking(old(backend.World()), id, user, bill.total, now, made, stored)
              && r == if bill.total > 0 && (made.None? || !stored) then Err(CheckoutFailed) else Ok(bill)
    ensures r == Err(NoService) <==> !Bookable(offer)
    ensures r == Err(TooFewHours) <==> Bookable(offer) && w.hours < offer.value.minHours
    ensures r == Err(DayPassed) <==> Bookable(offer) && offer.value.minHours <= w.hours && w.day < scene.today
    ensures r.Ok? ==> && Bookable(offer) && InTime(offer.value, w, scene) && Served(scene)
                      && CodeTaken(offer.value.price, w, scene.today) && Payable(r.value, scene)
  {
    LetThroughIff(offer, w, scene);
    if offer.None? { return Err(NoService); }
    var service := offer.value;
    if !service.approved || !service.active || !service.online { return Err(NoService); }
    if w.hours < service.minHours { return Err(TooFewHours); }
    if w.day < scene.today { return Err(DayPassed); }
    if scene.address.None? { return Err(NoAddress); }
    var area := AreaMatching.MatchArea(scene.distance, scene.areas, scene.address.value);
    if area.None? { return Err(NotServed); }
    var withMaterials := w.withMaterials && service.price.materialsFee > 0;
    var q := QuoteFor(service.price, w.hours, w.professionals, withMaterials);
    var discount := 0;
    if w.code.Some? {
      var result := ApplyPromo(w.code.value, q.subtotal, scene.today);
      if result.Err? { return Err(CodeRejected(result.error)); }
      discount := result.value.discount;
    }
    var total := q.subtotal - discount;
    if total > 0 && !scene.paymentsEnabled { return Err(PaymentsUnavailable); }
    var booked := backend.Book(id, user, total, now, made, stored);
    if booked.Err? { return Err(CheckoutFailed); }
    return Ok(Bill(q.base, q.materials, discount, total));
  }

  // ── what a booking comes to ──

  /** The nearest whole rupee to the code's percentage, or its cap where that is lower. */
  predicate TakesOff(promo: PromoRule, subtotal: nat, discount: nat) {
    || (discount % 100 == 0 && subtotal * promo.percent - 5000 < 100 * discount <= subtotal * promo.percent + 5000
        && (promo.maxDiscount == 0 || discount <= promo.maxDiscount))
    || (discount == promo.maxDiscount > 0 && 100 * discount <= subtotal * promo.percent + 5000)
  }

  /**
   A bill is the team's hours, one professional and one hour at a time, plus
   the materials asked for, less a discount only a typed code gives. Its total
   is not negative exactly when no code was typed or the code's discount fits.
   */
  lemma BillAddsUp(price: ServicePrice, w: Wish, today: int)
    requires w.professionals >= 1 && BillFor(price, w, today).Ok?
    ensures var bill := BillFor(price, w, today).value;
            && bill.base == TeamCost(price, w.hours, w.professionals)
            && bill.materials == (if w.withMaterials then price.materialsFee else 0)
            && bill.total == bill.base + bill.materials - bill.discount
            && (w.code.None? ==> bill.discount == 0)
            && bill.base + bill.materials == Subtotal(price, w)
            && (w.code.Some? ==> w.code.value.Some? && TakesOff(w.code.value.value, Subtotal(price, w), bill.discount))
            && (bill.total >= 0 <==> w.code.None? || DiscountFits(w.code.value.value, bill.base + bill.materials))
  {
    QuoteIsPerProfessionalPerHour(price, w.hours, w.professionals, w.withMaterials && price.materialsFee > 0);
    if w.code.Some? && w.code.value.Some? {
      AcceptedDiscount(w.code.value.value, Subtotal(price, w), today);
      RawDiscountIsNearestRupee(Subtotal(price, w), w.code.value.value.percent);
    }
    if w.code.Some? {
      RefusedFor(w.code.value, BillFor(price, w, today).value.base + BillFor(price, w, today).value.materials, today);
      DiscountWithinSubtotal(w.code.value.value, BillFor(price, w, today).value.base + BillFor(price, w, today).value.materials, today);
    }
  }

  /** A booking let through has a served address and a day not passed, and gets the area that address matches. */
  lemma ScreenedIsServed(offer: Option<Offer>, w: Wish, scene: Scene)
    requires w.professionals >= 1 && Screened(offer, w, scene).Ok?
    ensures offer.Some? && scene.address.Some? && scene.today <= w.day && offer.value.minHours <= w.hours
    ensures var area := Screened(offer, w, scene).value.0;
            if AreaMatching.Pinned(scene.distance, scene.areas, scene.address.value) then
              exists k :: AreaMatching.IsNearest(scene.distance,
                            AreaMatching.Point(scene.address.value.lat.value, scene.address.value.lng.value), scene.areas, k)
                          && scene.areas[k] == area
            else
              exists k :: AreaMatching.IsFirstNamed(scene.areas, scene.address.value.text, k) && scene.areas[k] == area
  {
    AreaMatching.MatchAreaIsRight(scene.distance, scene.areas, scene.address.value);
  }

  /**
   A booking of no cost starts pending; any other waits for a payment of
   exactly its total when the checkout opened, and is closed when it did not;
   and nothing else in the tables moves.
   */
  lemma BookingStartsAsBilled(w: PaymentProtocol.Store, id: nat, user: nat, total: int, now: int, made: Option<nat>, stored: bool)
    requires id !in w.db.bookings && (made.Some? ==> made.value !in w.issued)
    ensures var n := AfterBooking(w, id, user, total, now, made, stored);
            var open := total > 0 && made.Some? && stored;
            var status := if total <= 0 then BookingStatus.Pending
                          else if open then BookingStatus.AwaitingPayment else BookingStatus.Cancelled;
            && n.call.None?
            && n.store.db.bookings == w.db.bookings[id := PaymentProtocol.Booking(user, total, now, status, 0)]
            && n.store.db.payments == (if open then w.db.payments[id :=
                 PaymentProtocol.Payment(PaymentProtocol.Created, total, made.value, None, None, None)] else w.db.payments)
            && n.store.gateway == w.gateway && n.store.jobs == w.jobs
  {
  }
}
