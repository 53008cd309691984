/** Who does a job, and whose number it goes to, over every run. */
module AssignmentRuns {
  import opened Common
  import opened Verticals
  import opened BookingStatus
  import opened AssignmentProtocol

  // ── telephone numbers ──

  lemma {:induction false} DigitsOfDigits(s: string)
    requires forall i | 0 <= i < |s| :: IsDigit(s[i])
    ensures Digits(s) == s
  {
    if s != "" { DigitsOfDigits(s[1..]); }
  }

  lemma {:induction false} DigitsAreDigits(s: string)
    ensures forall i | 0 <= i < |Digits(s)| :: IsDigit(Digits(s)[i])
  {
    if s != "" { DigitsAreDigits(s[1..]); }
  }

  lemma DigitsOfE164(phone: string)
    ensures Digits(ToE164(phone)) == ToE164(phone)[1..]
  {
    var e := ToE164(phone);
    DigitsAreDigits(phone);
    DigitsOfDigits(e[1..]);
    assert !IsDigit(e[0]) && Digits(e) == Digits(e[1..]);
  }

  /** Normalising a number again changes nothing. */
  lemma E164Again(phone: string)
    ensures ToE164(ToE164(phone)) == ToE164(phone)
  {
    DigitsOfE164(phone);
    assert |Digits(phone)| == 10 ==> |ToE164(phone)[1..]| == 12;
  }

  /** Two spellings are one number when their digits agree, the country code of an Indian one aside. */
  lemma SameNumber(a: string, b: string)
    ensures ToE164(a) == ToE164(b) <==>
            || Digits(a) == Digits(b)
            || (|Digits(a)| == 10 && Digits(b) == "91" + Digits(a))
            || (|Digits(b)| == 10 && Digits(a) == "91" + Digits(b))
  {
    var x, y := Digits(a), Digits(b);
    assert ToE164(a)[1..] == if |x| == 10 then "91" + x else x;
    assert ToE164(b)[1..] == if |y| == 10 then "91" + y else y;
    assert ("91" + x)[2..] == x && ("91" + y)[2..] == y;
    assert ToE164(a) == "+" + ToE164(a)[1..] && ToE164(b) == "+" + ToE164(b)[1..];
  }

  // ── the invariant ──

  /** A booking on its way to be done names an existing professional of its own company. */
  predicate BookingOk(d: Desk, bid: BookingId) {
    bid in d.bookings ==>
      var b := d.bookings[bid];
      && (b.professional.Some? ==> HasPro(d, b.company, b.professional.value))
      && (b.status in {Confirmed, InProgress} ==> b.professional.Some?)
      && (b.status in {AwaitingPayment, Pending} ==> b.professional.None? && b.confirmedAt.None?)
      && (b.status in {Confirmed, InProgress, Completed} ==> b.confirmedAt.Some?)
  }

  predicate ProOk(d: Desk, pid: ProId) {
    pid in d.pros ==>
      && pid in d.used
      && (d.pros[pid].status == Waiting <==> d.pros[pid].decidedAt.None?)
      && RunsAll({Cleaning, Repair}, d.pros[pid].categories)
      && ToE164(d.pros[pid].contact.phone) == d.pros[pid].contact.phone
  }

  ghost predicate Inv(d: Desk) {
    (forall bid :: BookingOk(d, bid)) && (forall pid :: ProOk(d, pid))
  }

  lemma RunsAllGrows(verticals: set<Vertical>, categories: set<string>)
    requires RunsAll(verticals, categories)
    ensures RunsAll({Cleaning, Repair}, categories)
  {
  }

  lemma ProKeeps(d: Desk, e: Event, pid: ProId)
    requires ProOk(d, pid)
    ensures ProOk(Step(d, e), pid)
  {
    if e.Hire? && Lands(d, e) {
      E164Again(e.phone);
      RunsAllGrows(e.verticals, e.categories);
    } else if e.Edit? && Lands(d, e) {
      if e.patch.phone.Some? { E164Again(e.patch.phone.value); }
      if e.patch.categories.Some? { RunsAllGrows(e.verticals, e.patch.categories.value); }
    }
  }

  lemma BookingKeeps(d: Desk, e: Event, bid: BookingId)
    requires BookingOk(d, bid) && forall pid :: ProOk(d, pid)
    ensures BookingOk(Step(d, e), bid)
  {
    if e.Hire? { assert ProOk(d, e.pid); }
    if e.Dismiss? && Lands(d, e) && bid in d.bookings {
      assert !Active(d.bookings[bid], e.pid);
    }
  }

  lemma StepKeeps(d: Desk, e: Event)
    requires Inv(d)
    ensures Inv(Step(d, e))
  {
    forall bid ensures BookingOk(Step(d, e), bid) { BookingKeeps(d, e, bid); }
    forall pid ensures ProOk(Step(d, e), pid) { ProKeeps(d, e, pid); }
  }

  lemma {:induction false} Reachable(es: seq<Event>)
    ensures Inv(Run(EMPTY, es))
  {
    if es != [] {
      Reachable(es[..|es| - 1]);
      StepKeeps(Run(EMPTY, es[..|es| - 1]), es[|es| - 1]);
    }
  }

  /** Every confirmed or started booking names an existing professional of the same company. */
  lemma JobsAreAssigned(es: seq<Event>, bid: BookingId)
    requires var d := Run(EMPTY, es); bid in d.bookings && d.bookings[bid].status in {Confirmed, InProgress}
    ensures var d := Run(EMPTY, es);
            d.bookings[bid].professional.Some? && HasPro(d, d.bookings[bid].company, d.bookings[bid].professional.value)
  {
    Reachable(es);
    assert BookingOk(Run(EMPTY, es), bid);
  }

  /** So starting a job never finds nobody assigned, and resending one never finds the professional gone. */
  lemma JobsCanStart(es: seq<Event>, company: CompanyId, bid: BookingId, next: Status, verticals: set<Vertical>, now: int)
    ensures MoveBooking(Run(EMPTY, es), company, bid, next, verticals, now) != Err(NotAssigned)
    ensures var d := Run(EMPTY, es);
            Resend(d, company, bid, verticals).Ok? <==>
              HasBooking(d, company, bid) && d.bookings[bid].vertical in verticals && d.bookings[bid].status in {Confirmed, InProgress}
  {
    Reachable(es);
    assert BookingOk(Run(EMPTY, es), bid);
  }

  // ── approved contacts ──

  ghost predicate Approves(d: Desk, e: Event, pid: ProId) {
    e.Decide? && e.pid == pid && e.approve && Lands(d, e)
  }

  /** The contact of a professional when the super admin last approved them. */
  ghost function LastApproved(es: seq<Event>, pid: ProId): Option<Contact> {
    if es == [] then None
    else
      var d, e := Run(EMPTY, es[..|es| - 1]), es[|es| - 1];
      if Approves(d, e, pid) then Some(d.pros[pid].contact) else LastApproved(es[..|es| - 1], pid)
  }

  /** Every phone the super admin ever approved for a professional. */
  ghost function ApprovedPhones(es: seq<Event>, pid: ProId): set<string> {
    if es == [] then {}
    else
      var d, e := Run(EMPTY, es[..|es| - 1]), es[|es| - 1];
      ApprovedPhones(es[..|es| - 1], pid) + NewlyApproved(d, e, pid)
  }

  ghost function NewlyApproved(d: Desk, e: Event, pid: ProId): set<string> {
    if Approves(d, e, pid) then {d.pros[pid].contact.phone} else {}
  }

  /** While a professional is approved, their contact is the very one last approved. */
  lemma {:induction false} ApprovedContactStands(es: seq<Event>, pid: ProId)
    requires pid in Run(EMPTY, es).pros && Run(EMPTY, es).pros[pid].status == Approved
    ensures LastApproved(es, pid) == Some(Run(EMPTY, es).pros[pid].contact)
    ensures Run(EMPTY, es).pros[pid].contact.phone in ApprovedPhones(es, pid)
  {
    var d, e := Run(EMPTY, es[..|es| - 1]), es[|es| - 1];
    if !Approves(d, e, pid) {
      ApprovedContactStands(es[..|es| - 1], pid);
    }
  }

  /** The number copied on a booking when its professional was assigned is one the super admin had approved. */
  lemma {:induction false} CopiedPhoneWasApproved(es: seq<Event>, bid: BookingId)
    requires bid in Run(EMPTY, es).bookings && Run(EMPTY, es).bookings[bid].professional.Some?
    ensures var b := Run(EMPTY, es).bookings[bid];
            b.professionalPhone in ApprovedPhones(es, b.professional.value)
  {
    var d, e := Run(EMPTY, es[..|es| - 1]), es[|es| - 1];
    if e.Assigning? && e.bid == bid && Lands(d, e) {
      ApprovedContactStands(es[..|es| - 1], e.pid);
    } else {
      CopiedPhoneWasApproved(es[..|es| - 1], bid);
    }
  }

  /** An assignment that lands copies the phone last approved, and changes one booking only. */
  lemma JobsGoToApproved(es: seq<Event>, company: CompanyId, bid: BookingId, pid: ProId, verticals: set<Vertical>, now: int)
    requires Assign(Run(EMPTY, es), company, bid, pid, verticals, now).Ok?
    ensures var d := Assign(Run(EMPTY, es), company, bid, pid, verticals, now).value;
            && LastApproved(es, pid).Some? && d.bookings[bid].professionalPhone == LastApproved(es, pid).value.phone
            && d.bookings[bid].status == Confirmed && d.bookings[bid].professional == Some(pid)
            && d.bookings[bid].category in d.pros[pid].categories && d.pros[pid].company == company
            && forall other | other in d.bookings && other != bid :: d.bookings[other] == Run(EMPTY, es).bookings[other]
  {
    ApprovedContactStands(es, pid);
  }

  /** The phone last given in an edit since the super admin last approved the professional, if any was. */
  ghost function GivenSince(es: seq<Event>, pid: ProId): Option<string> {
    if es == [] then None
    else
      var d, e := Run(EMPTY, es[..|es| - 1]), es[|es| - 1];
      if Approves(d, e, pid) then None
      else if e.Edit? && e.pid == pid && Lands(d, e) && e.patch.phone.Some? then Some(ToE164(e.patch.phone.value))
      else GivenSince(es[..|es| - 1], pid)
  }

  lemma PhoneMovesByEdit(d: Desk, e: Event, pid: ProId)
    requires pid in d.pros && pid in Step(d, e).pros && ProOk(d, pid)
    ensures Step(d, e).pros[pid].contact.phone ==
            if e.Edit? && e.pid == pid && Lands(d, e) && e.patch.phone.Some? then ToE164(e.patch.phone.value)
            else d.pros[pid].contact.phone
  {
  }

  /** A professional once approved has the phone then approved, or the one given since. */
  lemma {:induction false} PhoneIsLastGiven(es: seq<Event>, pid: ProId)
    requires pid in Run(EMPTY, es).pros && LastApproved(es, pid).Some?
    ensures Run(EMPTY, es).pros[pid].contact.phone == GivenSince(es, pid).GetOr(LastApproved(es, pid).value.phone)
  {
    var d, e := Run(EMPTY, es[..|es| - 1]), es[|es| - 1];
    if !Approves(d, e, pid) {
      if pid in d.pros {
        PhoneIsLastGiven(es[..|es| - 1], pid);
        assert ProOk(d, pid) by { Reachable(es[..|es| - 1]); }
        PhoneMovesByEdit(d, e, pid);
      } else {
        ApprovedIsUsed(es[..|es| - 1], pid);
      }
    }
  }

  lemma {:induction false} ApprovedIsUsed(es: seq<Event>, pid: ProId)
    requires LastApproved(es, pid).Some? || ApprovedPhones(es, pid) != {}
    ensures pid in Run(EMPTY, es).used && LastApproved(es, pid).Some?
  {
    var d, e := Run(EMPTY, es[..|es| - 1]), es[|es| - 1];
    Reachable(es[..|es| - 1]);
    assert ProOk(d, pid);
    if !Approves(d, e, pid) { ApprovedIsUsed(es[..|es| - 1], pid); }
  }

  /**
   Resending goes to the phone the super admin last approved if and only if no
   edit since has given another; while the professional is approved it always does.
   */
  lemma ResendToApproved(es: seq<Event>, company: CompanyId, bid: BookingId, verticals: set<Vertical>, pid: ProId)
    requires var d := Run(EMPTY, es);
             Resend(d, company, bid, verticals).Ok? && d.bookings[bid].professional == Some(pid)
    ensures var d := Run(EMPTY, es);
            var phone := Resend(d, company, bid, verticals).value;
            && pid in d.pros && LastApproved(es, pid).Some?
            && var approved := LastApproved(es, pid).value.phone;
            && (phone == approved <==> GivenSince(es, pid) in {None, Some(approved)})
            && (d.pros[pid].status == Approved ==> phone == approved)
            && (phone == d.bookings[bid].professionalPhone ==> phone in ApprovedPhones(es, pid))
  {
    CopiedPhoneWasApproved(es, bid);
    ApprovedIsUsed(es, pid);
    PhoneIsLastGiven(es, pid);
    if Run(EMPTY, es).pros[pid].status == Approved { ApprovedContactStands(es, pid); }
  }

  /**
   What a company can see before it edits an approved professional: their
   phone stays the one last approved, and their jobs are resent to it, if and
   only if the edit gives no phone or the one they have.
   */
  lemma EditKeepsApprovedPhoneIff(es: seq<Event>, e: Event, bid: BookingId, verticals: set<Vertical>)
    requires var d := Run(EMPTY, es);
             && e.Edit? && Lands(d, e) && d.pros[e.pid].status == Approved
             && Resend(d, e.company, bid, verticals).Ok? && d.bookings[bid].professional == Some(e.pid)
    ensures var d, after := Run(EMPTY, es), Run(EMPTY, es + [e]);
            && LastApproved(es + [e], e.pid).Some?
            && (Resend(after, e.company, bid, verticals) == Ok(LastApproved(es + [e], e.pid).value.phone)
                <==> e.patch.phone.None? || ToE164(e.patch.phone.value) == d.pros[e.pid].contact.phone)
  {
    ApprovedContactStands(es, e.pid);
    assert (es + [e])[..|es|] == es;
  }

  lemma Then(es: seq<Event>, e: Event) returns (longer: seq<Event>)
    ensures longer == es + [e] && Run(EMPTY, longer) == Step(Run(EMPTY, es), e)
    ensures forall pid :: ApprovedPhones(longer, pid) == ApprovedPhones(es, pid) + NewlyApproved(Run(EMPTY, es), e, pid)
  {
    longer := es + [e];
    assert longer[..|longer| - 1] == es;
  }

  const VETTED := Professional(1, "A", Contact("+1", "a@b"), {"ac"}, Approved, Some(0), Some(0), "")

  const GIVEN := Booking(1, Repair, "ac", Confirmed, Some(9), "A", "+1", Some(0), None, None)

  lemma OneVetted() returns (es: seq<Event>)
    ensures Run(EMPTY, es) == Desk(map[9 := VETTED], map[], {9}) && ApprovedPhones(es, 9) <= {"+1"}
  {
    DigitsOfDigits("1");
    assert ToE164("1") == "+1";
    assert RunsAll({Repair}, {"ac"}) by { assert Repair in {Repair} && Categories(Repair)[0] == "ac"; }
    es := Then([], Hire(1, 9, "A", "1", "a@b", {"ac"}, {Repair}));
    assert Run(EMPTY, []) == EMPTY;
    assert Run(EMPTY, es).pros == map[9 := VETTED.(status := Waiting, decidedBy := None, decidedAt := None)];
    es := Then(es, Decide(9, true, 0, "", 0));
  }

  lemma OneGiven() returns (es: seq<Event>)
    ensures Run(EMPTY, es) == Desk(map[9 := VETTED], map[5 := GIVEN], {9}) && ApprovedPhones(es, 9) <= {"+1"}
  {
    es := OneVetted();
    es := Then(es, Book(5, 1, Repair, "ac", true));
    assert Run(EMPTY, es).bookings == map[5 := Booked(1, Repair, "ac", true)];
    es := Then(es, Assigning(1, 5, 9, {Repair}, 0));
  }

  /**
   But not for ever: a professional whose phone was changed after the
   assignment keeps the job, and resending it goes to a number nobody approved.
   */
  lemma ResendCanReachUnapproved() returns (es: seq<Event>)
    ensures Resend(Run(EMPTY, es), 1, 5, {Repair}) == Ok("+2")
    ensures Run(EMPTY, es).bookings[5].professional == Some(9) && "+2" !in ApprovedPhones(es, 9)
  {
    DigitsOfDigits("2");
    assert ToE164("2") == "+2";
    es := OneGiven();
    var e := Edit(1, 9, Patch(None, Some("2"), None, None), {Repair});
    assert Step(Run(EMPTY, es), e).pros[9].contact.phone == "+2";
    assert Step(Run(EMPTY, es), e).bookings == map[5 := GIVEN];
    es := Then(es, e);
  }
}
