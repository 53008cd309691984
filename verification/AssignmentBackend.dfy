/**
 The professional and assignment services over two tables updated in place.
 Each method does what its call does in the protocol, or refuses and changes nothing.
 */
module AssignmentBackend {
  import opened Common
  import opened Verticals
  import opened BookingStatus
  import opened AssignmentProtocol
  import AssignmentRuns

  /** A call that the protocol lets through leaves the tables it says; one it refuses leaves them alone. */
  predicate Answers(said: Result<Desk, Refusal>, was: Desk, now: Desk, r: Result<bool, Refusal>) {
    match said
    case Ok(d) => r == Ok(true) && now == d
    case Err(why) => r == Err(why) && now == was
  }

  class CompanyDesk {
    var pros: map<ProId, Professional>
    var bookings: map<BookingId, Booking>
    var used: set<ProId>

    function Tables(): Desk
      reads this
    {
      Desk(pros, bookings, used)
    }

    ghost predicate Valid()
      reads this
    {
      AssignmentRuns.Inv(Tables())
    }

    constructor ()
      ensures Valid() && Tables() == EMPTY
    {
      pros, bookings, used := map[], map[], {};
    }

    // ── professionals ──

    method CreateProfessional(company: CompanyId, pid: ProId, name: string, phone: string, email: string,
                              categories: set<string>, verticals: set<Vertical>)
      returns (r: Result<bool, Refusal>)
      requires Valid() && pid !in used
      modifies this`pros, this`used
      ensures Valid()
      ensures Answers(CreatePro(old(Tables()), company, pid, name, phone, email, categories, verticals),
                      old(Tables()), Tables(), r)
    {
      AssignmentRuns.StepKeeps(Tables(), Hire(company, pid, name, phone, email, categories, verticals));
      if !RunsAll(verticals, categories) { return Err(UnknownCategory); }
      var pro := Professional(company, name, Contact(ToE164(phone), email), categories, Waiting, None, None, "");
      pros, used := pros[pid := pro], used + {pid};
      return Ok(true);
    }

    method UpdateProfessional(company: CompanyId, pid: ProId, p: Patch, verticals: set<Vertical>)
      returns (r: Result<bool, Refusal>)
      requires Valid()
      modifies this`pros
      ensures Valid()
      ensures Answers(UpdatePro(old(Tables()), company, pid, p, verticals), old(Tables()), Tables(), r)
    {
      AssignmentRuns.StepKeeps(Tables(), Edit(company, pid, p, verticals));
      if pid !in pros || pros[pid].company != company { return Err(NotFound); }
      if p.categories.Some? && !RunsAll(verticals, p.categories.value) { return Err(UnknownCategory); }
      var current := pros[pid];
      var phone := if p.phone.Some? then Some(ToE164(p.phone.value)) else None;
      var contactChanged :=
        || (phone.Some? && phone.value != current.contact.phone)
        || (p.email.Some? && p.email.value != current.contact.email);
      var resubmit := current.status == Rejected || (current.status == Approved && contactChanged);
      var updated := current.(
        name := p.name.GetOr(current.name),
        contact := Contact(phone.GetOr(current.contact.phone), p.email.GetOr(current.contact.email)),
        categories := p.categories.GetOr(current.categories));
      if resubmit {
        updated := updated.(status := Waiting, decidedBy := None, decidedAt := None, note := "");
      }
      pros := pros[pid := updated];
      return Ok(true);
    }

    method HasActiveAssignments(pid: ProId) returns (active: bool)
      ensures active <==> HasActive(bookings, pid)
    {
      var busy := set bid | bid in bookings && Active(bookings[bid], pid);
      active := busy != {};
      assert active ==> exists bid :: bid in busy;
      assert forall bid | bid in bookings && Active(bookings[bid], pid) :: bid in busy;
    }

    /** Deleting a professional takes them off their finished bookings; with a job still to do they stay. */
    method DeleteProfessional(company: CompanyId, pid: ProId) returns (r: Result<bool, Refusal>)
      requires Valid()
      modifies this`pros, this`bookings
      ensures Valid()
      ensures Answers(DeletePro(old(Tables()), company, pid), old(Tables()), Tables(), r)
    {
      AssignmentRuns.StepKeeps(Tables(), Dismiss(company, pid));
      if pid !in pros || pros[pid].company != company { return Err(NotFound); }
      var busy := HasActiveAssignments(pid);
      if busy { return Err(HasAssignments); }
      pros := pros - {pid};
      bookings := map bid | bid in bookings :: Unassigned(bookings[bid], pid);
      return Ok(true);
    }

    /** Of two super admins deciding at once only the first does. */
    method DecideProfessional(pid: ProId, approve: bool, admin: UserId, note: string, now: int)
      returns (r: Result<bool, Refusal>)
      requires Valid()
      modifies this`pros
      ensures Valid()
      ensures Answers(DecidePro(old(Tables()), pid, approve, admin, note, now), old(Tables()), Tables(), r)
    {
      AssignmentRuns.StepKeeps(Tables(), Decide(pid, approve, admin, note, now));
      if pid !in pros { return Err(NotFound); }
      if pros[pid].status != Waiting { return Err(AlreadyDecided); }
      pros := pros[pid := pros[pid].(status := if approve then Approved else Rejected,
                                     decidedBy := Some(admin), decidedAt := Some(now), note := note)];
      return Ok(true);
    }

    // ── bookings ──

    /** Puts an approved professional on a pending or confirmed booking, which is confirmed after it. */
    method AssignProfessional(company: CompanyId, bid: BookingId, pid: ProId, verticals: set<Vertical>, now: int)
      returns (r: Result<bool, Refusal>)
      requires Valid()
      modifies this`bookings
      ensures Valid()
      ensures Answers(Assign(old(Tables()), company, bid, pid, verticals, now), old(Tables()), Tables(), r)
    {
      AssignmentRuns.StepKeeps(Tables(), Assigning(company, bid, pid, verticals, now));
      if bid !in bookings || bookings[bid].company != company { return Err(NotFound); }
      var booking := bookings[bid];
      if booking.vertical !in verticals { return Err(WrongVertical); }
      if booking.status != Pending && booking.status != Confirmed { return Err(InvalidTransition); }
      if pid !in pros || pros[pid].company != company { return Err(NotFound); }
      var pro := pros[pid];
      if pro.status != Approved { return Err(NotApproved); }
      if booking.category !in pro.categories { return Err(WrongCategory); }
      var confirmedAt := if booking.confirmedAt.Some? then booking.confirmedAt else Some(now);
      bookings := bookings[bid := booking.(
        professional := Some(pid), professionalName := pro.name, professionalPhone := pro.contact.phone,
        status := Confirmed, confirmedAt := confirmedAt)];
      return Ok(true);
    }

    /** Starts, completes or cancels; nobody assigned, which stops a start in the source, cannot happen here. */
    method SetStatus(company: CompanyId, bid: BookingId, next: Status, verticals: set<Vertical>, now: int)
      returns (r: Result<bool, Refusal>)
      requires Valid()
      modifies this`bookings
      ensures Valid()
      ensures Answers(MoveBooking(old(Tables()), company, bid, next, verticals, now), old(Tables()), Tables(), r)
      ensures r != Err(NotAssigned)
    {
      AssignmentRuns.StepKeeps(Tables(), Moving(company, bid, next, verticals, now));
      if bid !in bookings || bookings[bid].company != company { return Err(NotFound); }
      var booking := bookings[bid];
      assert AssignmentRuns.BookingOk(Tables(), bid);
      if booking.vertical !in verticals { return Err(WrongVertical); }
      if next !in AdminTransitions(booking.status) { return Err(InvalidTransition); }
      if next == InProgress && booking.professional.None? { return Err(NotAssigned); }
      booking := booking.(status := next);
      if next == InProgress { booking := booking.(startedAt := Some(now)); }
      if next == Completed { booking := booking.(completedAt := Some(now)); }
      bookings := bookings[bid := booking];
      return Ok(true);
    }
  }
}
