/** When each call about a professional or a booking is let through, and what it leaves on the rows. */
module AssignmentLaws {
  import opened Common
  import opened Verticals
  import opened BookingStatus
  import opened AssignmentProtocol
  import opened AssignmentRuns

  /** Only this row of the professionals, and nothing else, is written. */
  predicate OnlyPro(d: Desk, v: Desk, pid: ProId) {
    && pid in v.pros && v.bookings == d.bookings
    && v.pros == d.pros[pid := v.pros[pid]]
  }

  predicate OnlyBooking(d: Desk, v: Desk, bid: BookingId) {
    && bid in v.bookings && v.pros == d.pros && v.used == d.used
    && v.bookings == d.bookings[bid := v.bookings[bid]]
  }

  ghost predicate TilesOf(categories: set<string>, verticals: set<Vertical>) {
    forall c | c in categories ::
      (Cleaning in verticals && c in Categories(Cleaning)) || (Repair in verticals && c in Categories(Repair))
  }

  // ── professionals ──

  /** A professional is added waiting, with a normalised phone, exactly for tiles of verticals the admin runs. */
  lemma HireLands(d: Desk, e: Event)
    requires e.Hire? && FreshIds(d, e)
    ensures Call(d, e).Ok? <==> TilesOf(e.categories, e.verticals)
    ensures Lands(d, e) ==>
              var v := Step(d, e);
              && OnlyPro(d, v, e.pid) && v.used == d.used + {e.pid}
              && v.pros[e.pid] == Professional(e.company, e.name, Contact(ToE164(e.phone), e.email), e.categories,
                                               Waiting, None, None, "")
  {
    if TilesOf(e.categories, e.verticals) {
      forall c | c in e.categories ensures exists v | v in e.verticals :: c in Categories(v) {
        if Cleaning in e.verticals && c in Categories(Cleaning) { assert Cleaning in e.verticals; } else { assert Repair in e.verticals; }
      }
    }
  }

  /** What an edit names is saved, a phone normalised. */
  predicate IsEdited(p: Patch, was: Professional, now: Professional) {
    && now.company == was.company
    && now.name == (if p.name.Some? then p.name.value else was.name)
    && now.contact.phone == (if p.phone.Some? then ToE164(p.phone.value) else was.contact.phone)
    && now.contact.email == (if p.email.Some? then p.email.value else was.contact.email)
    && now.categories == (if p.categories.Some? then p.categories.value else was.categories)
  }

  /**
   An edit lands exactly for a professional of the company and tiles the admin
   runs. It sends back to waiting, with the last decision gone, a rejected
   professional always and an approved one exactly when the phone or the email
   differs; and keeps any other as decided as before.
   */
  lemma EditLands(d: Desk, e: Event)
    requires e.Edit?
    ensures Call(d, e).Ok? <==>
              && e.pid in d.pros && d.pros[e.pid].company == e.company
              && (e.patch.categories.Some? ==> TilesOf(e.patch.categories.value, e.verticals))
    ensures Call(d, e) == Err(NotFound) <==> !(e.pid in d.pros && d.pros[e.pid].company == e.company)
    ensures Lands(d, e) ==>
              var v := Step(d, e);
              && OnlyPro(d, v, e.pid) && v.used == d.used
              && var was, now := d.pros[e.pid], v.pros[e.pid];
              && IsEdited(e.patch, was, now)
              && (if was.status == Rejected || (was.status == Approved && now.contact != was.contact)
                  then now.status == Waiting && now.decidedBy == None && now.decidedAt == None && now.note == ""
                  else now.status == was.status && now.decidedBy == was.decidedBy
                       && now.decidedAt == was.decidedAt && now.note == was.note)
  {
    if e.patch.categories.Some? && TilesOf(e.patch.categories.value, e.verticals) {
      forall c | c in e.patch.categories.value ensures exists v | v in e.verticals :: c in Categories(v) {
        if Cleaning in e.verticals && c in Categories(Cleaning) { assert Cleaning in e.verticals; } else { assert Repair in e.verticals; }
      }
    }
  }

  /** A professional goes exactly when no confirmed or started booking names them; the others forget their id only. */
  lemma DismissLands(d: Desk, e: Event)
    requires e.Dismiss?
    ensures var busy := exists bid | bid in d.bookings ::
              d.bookings[bid].professional == Some(e.pid) && d.bookings[bid].status in {Confirmed, InProgress};
            var own := e.pid in d.pros && d.pros[e.pid].company == e.company;
            && (Call(d, e).Ok? <==> own && !busy)
            && (Call(d, e) == Err(NotFound) <==> !own)
            && (Call(d, e) == Err(HasAssignments) <==> own && busy)
    ensures Lands(d, e) ==>
              var v := Step(d, e);
              && v.used == d.used && v.pros == d.pros - {e.pid} && v.bookings.Keys == d.bookings.Keys
              && forall bid | bid in d.bookings ::
                   v.bookings[bid] == if d.bookings[bid].professional == Some(e.pid) then d.bookings[bid].(professional := None)
                                      else d.bookings[bid]
  {
    if bid :| bid in d.bookings && d.bookings[bid].professional == Some(e.pid) && d.bookings[bid].status in {Confirmed, InProgress} {
      assert Active(d.bookings[bid], e.pid);
    }
    if bid :| bid in d.bookings && Active(d.bookings[bid], e.pid) {
      assert d.bookings[bid].professional == Some(e.pid) && d.bookings[bid].status in {Confirmed, InProgress};
    }
  }

  /** A decision lands exactly on a professional who is waiting, and says who decided, when and why. */
  lemma DecideLands(d: Desk, e: Event)
    requires e.Decide?
    ensures Call(d, e).Ok? <==> e.pid in d.pros && d.pros[e.pid].status == Waiting
    ensures Call(d, e) == Err(NotFound) <==> e.pid !in d.pros
    ensures Lands(d, e) ==>
              var v := Step(d, e);
              && OnlyPro(d, v, e.pid) && v.used == d.used
              && v.pros[e.pid].status == (if e.approve then Approved else Rejected)
              && v.pros[e.pid].decidedBy == Some(e.admin) && v.pros[e.pid].decidedAt == Some(e.now)
              && v.pros[e.pid].note == e.note
              && IsEdited(Patch(None, None, None, None), d.pros[e.pid], v.pros[e.pid])
  {
  }

  // ── bookings ──

  /**
   Assigning lands exactly on a pending or confirmed booking of the company and
   the admin's verticals, for an approved professional of the company who does
   its category; the booking is then confirmed, with the time it first was.
   */
  lemma AssignLands(d: Desk, e: Event)
    requires e.Assigning?
    ensures var found := e.bid in d.bookings && d.bookings[e.bid].company == e.company;
            var open := found && d.bookings[e.bid].vertical in e.verticals && d.bookings[e.bid].status in {Pending, Confirmed};
            var own := e.pid in d.pros && d.pros[e.pid].company == e.company;
            && (Call(d, e).Ok? <==> open && own && d.pros[e.pid].status == Approved
                                    && d.bookings[e.bid].category in d.pros[e.pid].categories)
            && (Call(d, e) == Err(NotFound) <==> !found || (open && !own))
            && (Call(d, e) == Err(WrongVertical) <==> found && d.bookings[e.bid].vertical !in e.verticals)
            && (Call(d, e) == Err(NotApproved) <==> open && own && d.pros[e.pid].status != Approved)
            && (Call(d, e) == Err(WrongCategory) <==>
                  open && own && d.pros[e.pid].status == Approved && d.bookings[e.bid].category !in d.pros[e.pid].categories)
    ensures Lands(d, e) ==>
              var v := Step(d, e);
              && OnlyBooking(d, v, e.bid)
              && var was, now := d.bookings[e.bid], v.bookings[e.bid];
              now == was.(professional := Some(e.pid), professionalName := d.pros[e.pid].name,
                          professionalPhone := d.pros[e.pid].contact.phone, status := Confirmed,
                          confirmedAt := if was.confirmedAt.Some? then was.confirmedAt else Some(e.now))
  {
  }

  /** The three moves an admin has, and the stamp each leaves. */
  lemma MoveLands(d: Desk, e: Event)
    requires e.Moving? && Inv(d)
    ensures var found := e.bid in d.bookings && d.bookings[e.bid].company == e.company;
            && (Call(d, e).Ok? <==> && found && d.bookings[e.bid].vertical in e.verticals
                                    && var from := d.bookings[e.bid].status;
                                       || (from == Confirmed && e.next == InProgress)
                                       || (from == InProgress && e.next == Completed)
                                       || ((from == Pending || from == Confirmed) && e.next == Cancelled))
            && (Call(d, e) == Err(NotFound) <==> !found)
            && (Call(d, e) == Err(WrongVertical) <==> found && d.bookings[e.bid].vertical !in e.verticals)
    ensures Lands(d, e) ==>
              var v := Step(d, e);
              && OnlyBooking(d, v, e.bid)
              && var was, now := d.bookings[e.bid], v.bookings[e.bid];
              && now == was.(status := e.next, startedAt := now.startedAt, completedAt := now.completedAt)
              && now.startedAt == (if e.next == InProgress then Some(e.now) else was.startedAt)
              && now.completedAt == (if e.next == Completed then Some(e.now) else was.completedAt)
  {
    assert BookingOk(d, e.bid);
  }

  /** What customers do to a booking, and from which statuses. */
  lemma CustomersLand(d: Desk, bid: BookingId)
    requires bid in d.bookings
    ensures var row := d.bookings[bid];
            && Step(d, Pay(bid)) == (if row.status == AwaitingPayment then d.(bookings := d.bookings[bid := row.(status := Pending)]) else d)
            && Step(d, GiveUp(bid)) == (if row.status == AwaitingPayment then d.(bookings := d.bookings[bid := row.(status := Cancelled)]) else d)
            && Step(d, Cancel(bid)) == (if row.status in {Pending, Confirmed} then d.(bookings := d.bookings[bid := row.(status := Cancelled)]) else d)
  {
  }

  lemma BookLands(d: Desk, e: Event)
    requires e.Book? && e.bid !in d.bookings
    ensures Step(d, e) == d.(bookings := d.bookings[e.bid := Booking(
              e.company, e.vertical, e.category, if e.free then Pending else AwaitingPayment, None, "", "", None, None, None)])
  {
  }

  /** Resending takes the professional's own number, for a booking of the company and the admin's verticals. */
  lemma ResendTells(d: Desk, company: CompanyId, bid: BookingId, verticals: set<Vertical>)
    requires Inv(d)
    ensures var found := bid in d.bookings && d.bookings[bid].company == company;
            var r := Resend(d, company, bid, verticals);
            && (r == Err(NotFound) <==> !found)
            && (r == Err(WrongVertical) <==> found && d.bookings[bid].vertical !in verticals)
            && (r == Err(NotAssigned) <==> found && d.bookings[bid].vertical in verticals
                                           && d.bookings[bid].status !in {Confirmed, InProgress})
            && (r.Ok? ==> && d.bookings[bid].professional.Some? && d.bookings[bid].professional.value in d.pros
                          && r.value == d.pros[d.bookings[bid].professional.value].contact.phone)
  {
    assert BookingOk(d, bid);
  }

  // ── telephone numbers ──

  /** The ten digits of a number are kept and everything else is dropped. */
  lemma OnlyDigitsCount(a: string, c: char, b: string)
    ensures Digits(a + [c] + b) == Digits(a) + (if c in "0123456789" then [c] else "") + Digits(b)
  {
    DigitsOfBoth(a + [c], b);
    DigitsOfBoth(a, [c]);
    TheTenDigits(c);
  }

  lemma {:induction false} DigitsOfBoth(a: string, b: string)
    ensures Digits(a + b) == Digits(a) + Digits(b)
  {
    if a == "" { assert a + b == b; } else {
      DigitsOfBoth(a[1..], b);
      assert (a + b)[1..] == a[1..] + b;
    }
  }

  /** A plus, the Indian country code if there are ten digits, and the digits. */
  lemma E164Form(phone: string)
    ensures ToE164(phone)[0] == '+'
    ensures ToE164(phone)[1..] == (if |Digits(phone)| == 10 then ['9', '1'] else []) + Digits(phone)
  {
  }
}
