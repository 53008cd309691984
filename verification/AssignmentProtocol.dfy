/**
 Companies' professionals, who approves them, and the bookings they are put on.
 Each call of a service is one step: it either changes the tables or is refused.
 */
module AssignmentProtocol {
  import opened Common
  import opened Verticals
  import opened BookingStatus

  type ProId = nat
  type BookingId = nat
  type CompanyId = nat
  type UserId = nat

  // ── telephone numbers ──

  function Digits(phone: string): string {
    if phone == "" then ""
    else if IsDigit(phone[0]) then [phone[0]] + Digits(phone[1..])
    else Digits(phone[1..])
  }

  /** Ten digits are Indian. */
  function ToE164(phone: string): string {
    var digits := Digits(phone);
    if |digits| == 10 then "+91" + digits else "+" + digits
  }

  // ── the tables ──

  datatype Approval = Waiting | Approved | Rejected

  datatype Contact = Contact(phone: string, email: string)

  datatype Professional = Professional(
    company: CompanyId,
    name: string,
    contact: Contact,
    categories: set<string>,
    status: Approval,
    decidedBy: Option<UserId>,
    decidedAt: Option<int>,
    note: string)

  datatype Booking = Booking(
    company: CompanyId,
    vertical: Vertical,
    category: string,
    status: Status,
    professional: Option<ProId>,
    professionalName: string,
    professionalPhone: string,
    confirmedAt: Option<int>,
    startedAt: Option<int>,
    completedAt: Option<int>)

  /** The two tables, and the professional ids ever given out: an id is never given twice. */
  datatype Desk = Desk(pros: map<ProId, Professional>, bookings: map<BookingId, Booking>, used: set<ProId>)

  const EMPTY := Desk(map[], map[], {})

  datatype Patch = Patch(name: Option<string>, phone: Option<string>, email: Option<string>, categories: Option<set<string>>)

  datatype Refusal = NotFound | WrongVertical | UnknownCategory | InvalidTransition | NotApproved | WrongCategory
                   | NotAssigned | HasAssignments | AlreadyDecided

  /** Each category belongs to one of the given verticals. */
  predicate RunsAll(verticals: set<Vertical>, categories: set<string>) {
    forall c | c in categories :: exists v | v in verticals :: c in Categories(v)
  }

  /** A professional as its own company finds it. */
  predicate HasPro(d: Desk, company: CompanyId, pid: ProId) {
    pid in d.pros && d.pros[pid].company == company
  }

  predicate HasBooking(d: Desk, company: CompanyId, bid: BookingId) {
    bid in d.bookings && d.bookings[bid].company == company
  }

  // ── the professionals ──

  function CreatePro(d: Desk, company: CompanyId, pid: ProId, name: string, phone: string, email: string,
                     categories: set<string>, verticals: set<Vertical>): Result<Desk, Refusal>
  {
    if !RunsAll(verticals, categories) then Err(UnknownCategory)
    else
      var pro := Professional(company, name, Contact(ToE164(phone), email), categories, Waiting, None, None, "");
      Ok(d.(pros := d.pros[pid := pro], used := d.used + {pid}))
  }

  /** The row after an edit: back to waiting from rejected always, from approved when the contact differs. */
  function Edited(pro: Professional, p: Patch): Professional {
    var contact := Contact(if p.phone.Some? then ToE164(p.phone.value) else pro.contact.phone, p.email.GetOr(pro.contact.email));
    var edited := pro.(name := p.name.GetOr(pro.name), contact := contact, categories := p.categories.GetOr(pro.categories));
    if pro.status == Rejected || (pro.status == Approved && contact != pro.contact)
    then edited.(status := Waiting, decidedBy := None, decidedAt := None, note := "")
    else edited
  }

  function UpdatePro(d: Desk, company: CompanyId, pid: ProId, p: Patch, verticals: set<Vertical>): Result<Desk, Refusal> {
    if !HasPro(d, company, pid) then Err(NotFound)
    else if p.categories.Some? && !RunsAll(verticals, p.categories.value) then Err(UnknownCategory)
    else Ok(d.(pros := d.pros[pid := Edited(d.pros[pid], p)]))
  }

  /** A booking that a professional still has to do. */
  predicate Active(b: Booking, pid: ProId) {
    b.professional == Some(pid) && b.status in {Confirmed, InProgress}
  }

  predicate HasActive(bookings: map<BookingId, Booking>, pid: ProId) {
    exists bid | bid in bookings :: Active(bookings[bid], pid)
  }

  /** A booking without its reference to a deleted professional; what was copied from them is kept. */
  function Unassigned(b: Booking, pid: ProId): Booking {
    if b.professional == Some(pid) then b.(professional := None) else b
  }

  function DeletePro(d: Desk, company: CompanyId, pid: ProId): Result<Desk, Refusal> {
    if !HasPro(d, company, pid) then Err(NotFound)
    else if HasActive(d.bookings, pid) then Err(HasAssignments)
    else Ok(d.(pros := d.pros - {pid}, bookings := map bid | bid in d.bookings :: Unassigned(d.bookings[bid], pid)))
  }

  /** Records a decision only while the professional is waiting for one. */
  function DecidePro(d: Desk, pid: ProId, approve: bool, admin: UserId, note: string, now: int): Result<Desk, Refusal> {
    if pid !in d.pros then Err(NotFound)
    else if d.pros[pid].status != Waiting then Err(AlreadyDecided)
    else Ok(d.(pros := d.pros[pid := d.pros[pid].(
      status := if approve then Approved else Rejected, decidedBy := Some(admin), decidedAt := Some(now), note := note)]))
  }

  // ── the bookings ──

  function Assign(d: Desk, company: CompanyId, bid: BookingId, pid: ProId, verticals: set<Vertical>, now: int)
    : Result<Desk, Refusal>
  {
    if !HasBooking(d, company, bid) then Err(NotFound)
    else
      var b := d.bookings[bid];
      if b.vertical !in verticals then Err(WrongVertical)
      else if b.status !in ASSIGNABLE then Err(InvalidTransition)
      else if !HasPro(d, company, pid) then Err(NotFound)
      else
        var pro := d.pros[pid];
        if pro.status != Approved then Err(NotApproved)
        else if b.category !in pro.categories then Err(WrongCategory)
        else Ok(d.(bookings := d.bookings[bid := b.(
          professional := Some(pid), professionalName := pro.name, professionalPhone := pro.contact.phone,
          status := Confirmed, confirmedAt := Some(b.confirmedAt.GetOr(now)))]))
  }

  function MoveBooking(d: Desk, company: CompanyId, bid: BookingId, next: Status, verticals: set<Vertical>, now: int)
    : Result<Desk, Refusal>
  {
    if !HasBooking(d, company, bid) then Err(NotFound)
    else
      var b := d.bookings[bid];
      if b.vertical !in verticals then Err(WrongVertical)
      else if next !in AdminTransitions(b.status) then Err(InvalidTransition)
      else if next == InProgress && b.professional.None? then Err(NotAssigned)
      else Ok(d.(bookings := d.bookings[bid := b.(
        status := next,
        startedAt := if next == InProgress then Some(now) else b.startedAt,
        completedAt := if next == Completed then Some(now) else b.completedAt)]))
  }

  /** The number a job message is sent to again, or why it is not. */
  function Resend(d: Desk, company: CompanyId, bid: BookingId, verticals: set<Vertical>): Result<string, Refusal> {
    if !HasBooking(d, company, bid) then Err(NotFound)
    else
      var b := d.bookings[bid];
      if b.vertical !in verticals then Err(WrongVertical)
      else if b.professional.None? || b.status !in {Confirmed, InProgress} then Err(NotAssigned)
      else if !HasPro(d, company, b.professional.value) then Err(NotFound)
      else Ok(d.pros[b.professional.value].contact.phone)
  }

  /** What customers do: book, pay, give up paying, cancel. */
  function Outside(d: Desk, bid: BookingId, from: set<Status>, next: Status): Result<Desk, Refusal> {
    if bid !in d.bookings then Err(NotFound)
    else if d.bookings[bid].status !in from then Err(InvalidTransition)
    else Ok(d.(bookings := d.bookings[bid := d.bookings[bid].(status := next)]))
  }

  function Booked(company: CompanyId, vertical: Vertical, category: string, free: bool): Booking {
    Booking(company, vertical, category, if free then Pending else AwaitingPayment, None, "", "", None, None, None)
  }

  // ── runs ──

  datatype Event =
    | Hire(company: CompanyId, pid: ProId, name: string, phone: string, email: string, categories: set<string>, verticals: set<Vertical>)
    | Edit(company: CompanyId, pid: ProId, patch: Patch, verticals: set<Vertical>)
    | Dismiss(company: CompanyId, pid: ProId)
    | Decide(pid: ProId, approve: bool, admin: UserId, note: string, now: int)
    | Book(bid: BookingId, company: CompanyId, vertical: Vertical, category: string, free: bool)
    | Pay(bid: BookingId)
    | GiveUp(bid: BookingId)
    | Cancel(bid: BookingId)
    | Assigning(company: CompanyId, bid: BookingId, pid: ProId, verticals: set<Vertical>, now: int)
    | Moving(company: CompanyId, bid: BookingId, next: Status, verticals: set<Vertical>, now: int)

  /** The ids a call draws are new. */
  predicate FreshIds(d: Desk, e: Event) {
    (e.Hire? ==> e.pid !in d.used) && (e.Book? ==> e.bid !in d.bookings)
  }

  function Call(d: Desk, e: Event): Result<Desk, Refusal> {
    match e
    case Hire(company, pid, name, phone, email, categories, verticals) =>
      CreatePro(d, company, pid, name, phone, email, categories, verticals)
    case Edit(company, pid, patch, verticals) => UpdatePro(d, company, pid, patch, verticals)
    case Dismiss(company, pid) => DeletePro(d, company, pid)
    case Decide(pid, approve, admin, note, now) => DecidePro(d, pid, approve, admin, note, now)
    case Book(bid, company, vertical, category, free) =>
      Ok(d.(bookings := d.bookings[bid := Booked(company, vertical, category, free)]))
    case Pay(bid) => Outside(d, bid, {AwaitingPayment}, Pending)
    case GiveUp(bid) => Outside(d, bid, {AwaitingPayment}, Cancelled)
    case Cancel(bid) => Outside(d, bid, CUSTOMER_CANCELLABLE, Cancelled)
    case Assigning(company, bid, pid, verticals, now) => Assign(d, company, bid, pid, verticals, now)
    case Moving(company, bid, next, verticals, now) => MoveBooking(d, company, bid, next, verticals, now)
  }

  predicate Lands(d: Desk, e: Event) {
    FreshIds(d, e) && Call(d, e).Ok?
  }

  function Step(d: Desk, e: Event): Desk {
    if Lands(d, e) then Call(d, e).value else d
  }

  function Run(d: Desk, es: seq<Event>): Desk {
    if es == [] then d else Step(Run(d, es[..|es| - 1]), es[|es| - 1])
  }
}
