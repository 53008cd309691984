/** What every step of the payment protocol keeps, and so every reachable state satisfies. */
module PaymentSafety {
  import opened Common
  import opened BookingStatus
  import opened PaymentProtocol
  import PricingRules

  const WORKED: set<Status> := {Pending, Confirmed, InProgress, Completed}

  predicate FeeAllowed(total: int, fee: int) {
    fee == 0 || fee == PricingRules.LateFee(total)
  }

  predicate Claimed(row: Payment) {
    row.status in {RefundPending, Refunded}
  }

  /** The gateway holds a captured rupee payment for this row's exact order and amount. */
  predicate PaidFor(w: Store, row: Payment, pid: PaymentId) {
    && pid in w.gateway
    && w.gateway[pid].order == row.order
    && w.gateway[pid].amount == row.amount
    && w.gateway[pid].inr
    && w.gateway[pid].status in {GwCaptured, GwRefunded}
  }

  // ── the store invariant, row by row ──

  /** A booking keeps a fee only once cancelled; one that is worked on and costs something has a payment. */
  predicate BookingOk(w: Store, b: BookingId)
    requires b in w.db.bookings
  {
    var k := w.db.bookings[b];
    && (k.status == Cancelled ==> FeeAllowed(k.total, k.fee))
    && (k.status != Cancelled ==> k.fee == 0)
    && (k.status == AwaitingPayment ==> k.total > 0)
    && (k.status in WORKED && k.total > 0 ==> b in w.db.payments)
  }

  predicate RowOk(w: Store, b: BookingId)
    requires b in w.db.payments
  {
    var row := w.db.payments[b];
    && b in w.db.bookings
    && w.db.bookings[b].total == row.amount > 0
    && row.order in w.db.orders && w.db.orders[row.order] == b && row.order in w.issued
    && (row.status == Created <==> w.db.bookings[b].status == AwaitingPayment)
    && (row.status == Created <==> row.paymentId.None?)
    && (row.paymentId.Some? ==> PaidFor(w, row, row.paymentId.value))
    && (Claimed(row) <==> row.refundAmount.Some?)
    && (Claimed(row) ==> w.db.bookings[b].status == Cancelled
                         && row.refundAmount == Some(row.amount - w.db.bookings[b].fee))
    && (row.refundId.Some? ==> Claimed(row)
                               && w.gateway[row.paymentId.value].refunds
                                  == [Refund(row.refundId.value, row.refundAmount.value)])
    && (row.status == Refunded ==> row.refundId.Some?)
  }

  predicate IndexOk(w: Store, order: OrderId)
    requires order in w.db.orders
  {
    w.db.orders[order] in w.db.payments && w.db.payments[w.db.orders[order]].order == order
  }

  /** The gateway has accepted no refund, or just the one the payment row claimed. */
  predicate GatewayOk(w: Store, pid: PaymentId)
    requires pid in w.gateway
  {
    var p := w.gateway[pid];
    && (p.status == GwRefunded ==> p.refunds != [])
    && (p.refunds != [] ==>
          && p.order in w.db.orders
          && w.db.orders[p.order] in w.db.payments
          && var row := w.db.payments[w.db.orders[p.order]];
          && row.paymentId == Some(pid)
          && |p.refunds| == 1
          && row.refundAmount == Some(p.refunds[0].amount))
  }

  predicate JobOk(w: Store, b: BookingId)
    requires b in w.jobs
  {
    b in w.db.payments && Claimed(w.db.payments[b]) && (w.jobs[b].finished ==> w.db.payments[b].refundId.Some?)
  }

  ghost predicate StoreOk(w: Store) {
    && (forall b | b in w.db.bookings :: BookingOk(w, b))
    && (forall b | b in w.db.payments :: RowOk(w, b))
    && (forall order | order in w.db.orders :: IndexOk(w, order))
    && (forall pid | pid in w.gateway :: GatewayOk(w, pid))
    && (forall b | b in w.jobs :: JobOk(w, b))
  }

  // ── what only grows ──

  function Rank(status: PaymentStatus): nat {
    match status
    case Created => 0
    case Captured => 1
    case RefundPending => 2
    case Refunded => 3
  }

  predicate Kept<T(==)>(was: Option<T>, now: Option<T>) {
    was.Some? ==> now == was
  }

  /** Who booked, what it cost and when never change; a cancelled booking stays so, with its fee. */
  predicate BookingGrows(w: Store, v: Store, b: BookingId) {
    b in w.db.bookings ==>
      && b in v.db.bookings
      && var was, now := w.db.bookings[b], v.db.bookings[b];
      && now.user == was.user && now.total == was.total && now.createdAt == was.createdAt
      && (was.status == Cancelled ==> now.status == Cancelled && now.fee == was.fee)
  }

  /** A payment row keeps its amount and order, only moves on, and never loses a gateway id or an amount. */
  predicate RowGrows(w: Store, v: Store, b: BookingId) {
    b in w.db.payments ==>
      && b in v.db.payments
      && var was, now := w.db.payments[b], v.db.payments[b];
      && now.amount == was.amount && now.order == was.order
      && Rank(was.status) <= Rank(now.status)
      && Kept(was.paymentId, now.paymentId) && Kept(was.refundAmount, now.refundAmount)
      && Kept(was.refundId, now.refundId)
  }

  predicate GatewayGrows(w: Store, v: Store, pid: PaymentId) {
    pid in w.gateway ==>
      && pid in v.gateway
      && var was, now := w.gateway[pid], v.gateway[pid];
      && now.order == was.order && now.amount == was.amount && now.inr == was.inr
      && (was.status in {GwCaptured, GwRefunded} ==> now.status in {GwCaptured, GwRefunded})
      && was.refunds <= now.refunds
  }

  ghost predicate Grows(w: Store, v: Store) {
    && (forall b :: BookingGrows(w, v, b))
    && (forall b :: RowGrows(w, v, b))
    && (forall pid :: GatewayGrows(w, v, pid))
    && w.db.bookings.Keys <= v.db.bookings.Keys
    && w.db.payments.Keys <= v.db.payments.Keys
    && w.gateway.Keys <= v.gateway.Keys
    && w.jobs.Keys <= v.jobs.Keys
    && w.issued <= v.issued
  }

  // ── what a waiting call has established ──

  /** A part of a booking's story that only one call may hold, and the fact it rests on. */
  datatype Role = Opener(b: BookingId) | Holder(order: OrderId) | Claimer(b: BookingId) | Scheduler(b: BookingId)

  function RolesOf(k: Call): set<Role> {
    match k
    case OpeningOrder(b) => {Opener(b)}
    case StoringPayment(b, order) => {Opener(b), Holder(order)}
    case ClosingBooking(b) => {Opener(b)}
    case ClaimingRefund(b, _) => {Claimer(b)}
    case SchedulingRefund(b) => {Scheduler(b)}
    case _ => {}
  }

  predicate RoleOk(w: Store, role: Role) {
    match role
    case Opener(b) => b in w.db.bookings && w.db.bookings[b].status == AwaitingPayment && b !in w.db.payments
    case Holder(order) => order in w.issued && order !in w.db.orders
    case Claimer(b) =>
      && b in w.db.bookings && w.db.bookings[b].status == Cancelled
      && b in w.db.payments && w.db.payments[b].status == Captured
    case Scheduler(b) =>
      && b in w.db.payments && w.db.payments[b].status == RefundPending
      && w.db.payments[b].refundId.None? && b !in w.jobs
  }

  predicate Matches(w: Store, b: BookingId, order: OrderId, amount: int) {
    b in w.db.payments && w.db.payments[b].order == order && w.db.payments[b].amount == amount
  }

  predicate Agrees(w: Store, b: BookingId, order: OrderId, amount: int, pid: PaymentId) {
    Matches(w, b, order, amount) && pid in w.gateway
    && w.gateway[pid].order == order && w.gateway[pid].amount == amount && w.gateway[pid].inr
  }

  /** The facts a call carries that no other call can take away. */
  predicate CallOk(w: Store, k: Call) {
    match k
    case FetchingPayment(b, order, amount, _) => Matches(w, b, order, amount)
    case CapturingPayment(b, order, amount, pid) => Agrees(w, b, order, amount, pid)
    case RefetchingPayment(b, order, amount, pid) => Agrees(w, b, order, amount, pid)
    case ConfirmingPayment(b, order, pid) =>
      b in w.db.payments && w.db.payments[b].order == order && PaidFor(w, w.db.payments[b], pid)
    case Cancelling(b, from, fee) =>
      b in w.db.bookings && from <= CUSTOMER_CANCELLABLE && FeeAllowed(w.db.bookings[b].total, fee)
    case ClaimingRefund(b, amount) =>
      b in w.db.bookings && w.db.bookings[b].status == Cancelled
      && amount == w.db.bookings[b].total - w.db.bookings[b].fee > 0
    case AskingRefund(b, pid, amount) =>
      b in w.jobs && b in w.db.payments
      && w.db.payments[b].paymentId == Some(pid) && w.db.payments[b].refundAmount == Some(amount)
    case StoringRefund(b, rid, _) =>
      b in w.jobs && b in w.db.payments
      && w.db.payments[b].paymentId.Some? && w.db.payments[b].refundAmount.Some?
      && w.db.payments[b].paymentId.value in w.gateway
      && [Refund(rid, w.db.payments[b].refundAmount.value)] <= w.gateway[w.db.payments[b].paymentId.value].refunds
    case MarkingRefunded(b) => b in w.jobs && b in w.db.payments && w.db.payments[b].refundId.Some?
    case _ => true
  }

  ghost predicate CallsOk(w: Store, calls: map<CallId, Call>) {
    && (forall c | c in calls :: CallOk(w, calls[c]))
    && (forall c, role | c in calls && role in RolesOf(calls[c]) :: RoleOk(w, role))
    && (forall c, d, role | c in calls && d in calls && role in RolesOf(calls[c]) && role in RolesOf(calls[d]) :: c == d)
  }

  ghost predicate Inv(s: Sys) {
    StoreOk(s.store) && CallsOk(s.store, s.calls)
  }

  // ── one step ──

  lemma CallStays(w: Store, v: Store, k: Call)
    requires Grows(w, v) && CallOk(w, k)
    ensures CallOk(v, k)
  {
    match k
    case FetchingPayment(b, _, _, _) => assert RowGrows(w, v, b);
    case CapturingPayment(b, _, _, pid) => assert RowGrows(w, v, b) && GatewayGrows(w, v, pid);
    case RefetchingPayment(b, _, _, pid) => assert RowGrows(w, v, b) && GatewayGrows(w, v, pid);
    case ConfirmingPayment(b, _, pid) => assert RowGrows(w, v, b) && GatewayGrows(w, v, pid);
    case Cancelling(b, _, _) => assert BookingGrows(w, v, b);
    case ClaimingRefund(b, _) => assert BookingGrows(w, v, b);
    case AskingRefund(b, pid, _) => assert RowGrows(w, v, b) && GatewayGrows(w, v, pid);
    case StoringRefund(b, _, _) => assert RowGrows(w, v, b) && GatewayGrows(w, v, w.db.payments[b].paymentId.value);
    case MarkingRefunded(b) => assert RowGrows(w, v, b);
    case _ =>
  }

  function HeldBy(calls: map<CallId, Call>, c: CallId): set<Role> {
    if c in calls then RolesOf(calls[c]) else {}
  }

  /**
   What one step of a call must deliver: the store stays sound and only grows,
   the call's next point is established, the roles it does not hold stay as
   they were for their holders, and a role it takes up was nobody's.
   */
  ghost predicate GoodStep(w: Store, held: set<Role>, n: Next) {
    && StoreOk(n.store)
    && Grows(w, n.store)
    && (forall role | RoleOk(w, role) && role !in held :: RoleOk(n.store, role))
    && (n.call.Some? ==>
          && CallOk(n.store, n.call.value)
          && (forall role | role in RolesOf(n.call.value) ::
                RoleOk(n.store, role) && (role in held || !RoleOk(w, role))))
  }

  lemma AdvanceKeepsFacts(w: Store, calls: map<CallId, Call>, c: CallId, n: Next)
    requires CallsOk(w, calls) && GoodStep(w, HeldBy(calls, c), n)
    ensures forall d | d in Advance(calls, c, n).calls :: CallOk(n.store, Advance(calls, c, n).calls[d])
  {
    var s := Advance(calls, c, n);
    forall d | d in s.calls ensures CallOk(s.store, s.calls[d]) {
      if d != c { CallStays(w, n.store, calls[d]); }
    }
  }

  lemma AdvanceKeepsRoles(w: Store, calls: map<CallId, Call>, c: CallId, n: Next, d: CallId, role: Role)
    requires CallsOk(w, calls) && GoodStep(w, HeldBy(calls, c), n)
    requires d in Advance(calls, c, n).calls && role in RolesOf(Advance(calls, c, n).calls[d])
    ensures RoleOk(n.store, role)
    ensures d != c ==> role !in HeldBy(calls, c) && RoleOk(w, role)
    ensures d == c ==> role in HeldBy(calls, c) || !RoleOk(w, role)
  {
    if d != c { assert RoleOk(w, role); }
  }

  lemma AdvanceKeepsCalls(w: Store, calls: map<CallId, Call>, c: CallId, n: Next)
    requires CallsOk(w, calls) && GoodStep(w, HeldBy(calls, c), n)
    ensures CallsOk(n.store, Advance(calls, c, n).calls)
  {
    var now := Advance(calls, c, n).calls;
    AdvanceKeepsFacts(w, calls, c, n);
    forall d, role | d in now && role in RolesOf(now[d]) ensures RoleOk(n.store, role) {
      AdvanceKeepsRoles(w, calls, c, n, d, role);
    }
    forall d, e, role | d in now && e in now && role in RolesOf(now[d]) && role in RolesOf(now[e]) ensures d == e {
      AdvanceKeepsRoles(w, calls, c, n, d, role);
      AdvanceKeepsRoles(w, calls, c, n, e, role);
    }
  }

  // ── steps that write the rows of one booking ──

  predicate SameRows(w: Store, v: Store, b: BookingId) {
    && (b in w.db.bookings <==> b in v.db.bookings)
    && (b in w.db.bookings ==> v.db.bookings[b] == w.db.bookings[b])
    && (b in w.db.payments <==> b in v.db.payments)
    && (b in w.db.payments ==> v.db.payments[b] == w.db.payments[b])
    && (b in w.jobs <==> b in v.jobs)
    && (b in w.jobs ==> v.jobs[b] == w.jobs[b])
  }

  ghost predicate OnlyBooking(w: Store, v: Store, b: BookingId) {
    && v.gateway == w.gateway && v.issued == w.issued && v.db.orders == w.db.orders
    && (forall x | x != b :: SameRows(w, v, x))
    && (b in v.db.payments <==> b in w.db.payments)
    && (b in w.jobs ==> b in v.jobs)
    && BookingGrows(w, v, b) && RowGrows(w, v, b)
  }

  predicate RowsOk(w: Store, b: BookingId) {
    && (b in w.db.bookings ==> BookingOk(w, b))
    && (b in w.db.payments ==> RowOk(w, b))
    && (b in w.jobs ==> JobOk(w, b))
  }

  lemma OtherBookingStays(w: Store, v: Store, b: BookingId, x: BookingId)
    requires StoreOk(w) && OnlyBooking(w, v, b) && x != b
    ensures RowsOk(v, x) && BookingGrows(w, v, x) && RowGrows(w, v, x)
  {
    assert SameRows(w, v, x);
    assert RowsOk(w, x);
  }

  lemma OtherGatewayStays(w: Store, v: Store, b: BookingId, pid: PaymentId)
    requires StoreOk(w) && OnlyBooking(w, v, b) && RowsOk(v, b) && pid in v.gateway
    ensures GatewayOk(v, pid)
  {
    assert GatewayOk(w, pid);
    if w.gateway[pid].refunds != [] {
      var x := w.db.orders[w.gateway[pid].order];
      assert RowOk(w, x);
      if x != b { assert SameRows(w, v, x); }
    }
  }

  lemma OtherIndexStays(w: Store, v: Store, b: BookingId, order: OrderId)
    requires StoreOk(w) && OnlyBooking(w, v, b) && order in v.db.orders
    ensures IndexOk(v, order)
  {
    assert IndexOk(w, order);
    var x := w.db.orders[order];
    if x != b { assert SameRows(w, v, x); }
  }

  lemma OnlyBookingGrows(w: Store, v: Store, b: BookingId)
    requires StoreOk(w) && OnlyBooking(w, v, b) && RowsOk(v, b)
    ensures Grows(w, v)
  {
    forall x ensures BookingGrows(w, v, x) && RowGrows(w, v, x) {
      if x != b { OtherBookingStays(w, v, b, x); }
    }
    forall x | x in w.jobs ensures x in v.jobs { if x != b { assert SameRows(w, v, x); } }
    forall x | x in w.db.bookings ensures x in v.db.bookings { assert BookingGrows(w, v, x); }
    forall x | x in w.db.payments ensures x in v.db.payments { assert RowGrows(w, v, x); }
  }

  lemma OnlyBookingOk(w: Store, v: Store, b: BookingId)
    requires StoreOk(w) && OnlyBooking(w, v, b) && RowsOk(v, b)
    ensures StoreOk(v)
  {
    forall x ensures RowsOk(v, x) { if x != b { OtherBookingStays(w, v, b, x); } }
    forall x | x in v.db.bookings ensures BookingOk(v, x) { assert RowsOk(v, x); }
    forall x | x in v.db.payments ensures RowOk(v, x) { assert RowsOk(v, x); }
    forall x | x in v.jobs ensures JobOk(v, x) { assert RowsOk(v, x); }
    forall pid | pid in v.gateway ensures GatewayOk(v, pid) { OtherGatewayStays(w, v, b, pid); }
    forall order | order in v.db.orders ensures IndexOk(v, order) { OtherIndexStays(w, v, b, order); }
  }

  predicate RolesStay(w: Store, v: Store, held: set<Role>, b: BookingId) {
    && (RoleOk(w, Opener(b)) && Opener(b) !in held ==> RoleOk(v, Opener(b)))
    && (RoleOk(w, Claimer(b)) && Claimer(b) !in held ==> RoleOk(v, Claimer(b)))
    && (RoleOk(w, Scheduler(b)) && Scheduler(b) !in held ==> RoleOk(v, Scheduler(b)))
  }

  lemma OnlyBookingRole(w: Store, v: Store, held: set<Role>, b: BookingId, role: Role)
    requires OnlyBooking(w, v, b) && RolesStay(w, v, held, b)
    requires RoleOk(w, role) && role !in held
    ensures RoleOk(v, role)
  {
    if !role.Holder? && role.b != b { assert SameRows(w, v, role.b); }
  }

  /** A step that writes the rows of [b] only, and leaves them sound. */
  ghost predicate RowsStep(w: Store, held: set<Role>, n: Next, b: BookingId) {
    && OnlyBooking(w, n.store, b) && RowsOk(n.store, b) && RolesStay(w, n.store, held, b)
    && (n.call.Some? ==>
          && CallOk(n.store, n.call.value)
          && (forall role | role in RolesOf(n.call.value) ::
                RoleOk(n.store, role) && (role in held || !RoleOk(w, role))))
  }

  lemma RowsStepGood(w: Store, held: set<Role>, n: Next, b: BookingId)
    requires StoreOk(w) && RowsStep(w, held, n, b)
    ensures GoodStep(w, held, n)
  {
    OnlyBookingOk(w, n.store, b);
    OnlyBookingGrows(w, n.store, b);
    forall role | RoleOk(w, role) && role !in held ensures RoleOk(n.store, role) {
      OnlyBookingRole(w, n.store, held, b, role);
    }
  }

  lemma BookRows(w: Store, b: BookingId, user: UserId, total: int, now: int)
    requires RowsOk(w, b)
    ensures RowsStep(w, {}, BookStep(w, b, user, total, now), b)
  {
  }

  lemma CloseRows(w: Store, k: Call)
    requires RowsOk(w, k.b) && k.ClosingBooking? && CallOk(w, k) && (forall role | role in RolesOf(k) :: RoleOk(w, role))
    ensures RowsStep(w, RolesOf(k), Done(w.(db := CancelBooking(w.db, k.b, {AwaitingPayment}, 0).0)), k.b)
  {
  }

  lemma ConfirmRows(w: Store, k: Call)
    requires RowsOk(w, k.b) && k.ConfirmingPayment? && CallOk(w, k) && (forall role | role in RolesOf(k) :: RoleOk(w, role))
    ensures RowsStep(w, RolesOf(k), Done(w.(db := CapturePayment(w.db, k.order, k.pid).0)), k.b)
  {
  }

  lemma CancelLandedRows(w: Store, b: BookingId, from: set<Status>, fee: int)
    requires RowsOk(w, b) && CallOk(w, Cancelling(b, from, fee)) && CancelBooking(w.db, b, from, fee).1
    ensures RowsStep(w, {}, CancelStep(w, b, from, fee), b)
  {
  }

  lemma CancelMissedRows(w: Store, b: BookingId, from: set<Status>, fee: int)
    requires RowsOk(w, b) && !CancelBooking(w.db, b, from, fee).1
    ensures RowsStep(w, {}, CancelStep(w, b, from, fee), b)
  {
  }

  lemma CancelRows(w: Store, k: Call)
    requires RowsOk(w, k.b) && k.Cancelling? && CallOk(w, k)
    ensures RowsStep(w, {}, CancelStep(w, k.b, k.from, k.fee), k.b)
  {
    if CancelBooking(w.db, k.b, k.from, k.fee).1 { CancelLandedRows(w, k.b, k.from, k.fee); }
    else { CancelMissedRows(w, k.b, k.from, k.fee); }
  }

  lemma ClaimRows(w: Store, k: Call)
    requires RowsOk(w, k.b) && k.ClaimingRefund? && CallOk(w, k) && (forall role | role in RolesOf(k) :: RoleOk(w, role))
    ensures RowsStep(w, RolesOf(k), ClaimStep(w, k.b, k.amount), k.b)
  {
  }

  lemma ScheduleRows(w: Store, k: Call)
    requires RowsOk(w, k.b) && k.SchedulingRefund? && CallOk(w, k) && (forall role | role in RolesOf(k) :: RoleOk(w, role))
    ensures RowsStep(w, RolesOf(k), ScheduleStep(w, k.b), k.b)
  {
  }

  lemma StoreRefundRows(w: Store, k: Call, c: CallId)
    requires RowsOk(w, k.b) && k.StoringRefund? && CallOk(w, k) && (forall role | role in RolesOf(k) :: RoleOk(w, role))
    requires GatewayOk(w, w.db.payments[k.b].paymentId.value)
    ensures RowsStep(w, RolesOf(k), StoreRefundStep(w, k.b, k.rid, k.processed, c), k.b)
  {
  }

  lemma MarkRows(w: Store, k: Call, c: CallId)
    requires RowsOk(w, k.b) && k.MarkingRefunded? && CallOk(w, k) && (forall role | role in RolesOf(k) :: RoleOk(w, role))
    ensures RowsStep(w, RolesOf(k), Finish(w.(db := MarkRefunded(w.db, k.b)), k.b, c), k.b)
  {
  }

  lemma WorkerRows(w: Store, b: BookingId, c: CallId)
    requires RowsOk(w, b)
    ensures RowsStep(w, {}, WorkerStep(w, b, c), b)
  {
  }

  lemma FailRows(w: Store, k: Call, c: CallId)
    requires RowsOk(w, k.b) && RolesOf(k) == {}
    ensures RowsStep(w, {}, Fail(w, k.b, c), k.b)
  {
  }

  lemma StallRows(w: Store, b: BookingId)
    requires RowsOk(w, b)
    ensures RowsStep(w, {}, Done(Environment(w, JobStalled(b))), b)
  {
  }

  /** What the store invariant says about one booking, and about its payment at the gateway. */
  lemma RowsOkAt(w: Store, b: BookingId)
    requires StoreOk(w)
    ensures RowsOk(w, b)
    ensures b in w.db.payments && w.db.payments[b].paymentId.Some? ==>
              w.db.payments[b].paymentId.value in w.gateway && GatewayOk(w, w.db.payments[b].paymentId.value)
  {
    if b in w.db.payments { assert RowOk(w, b); }
  }

  // ── steps that write one gateway payment ──

  ghost predicate OnlyGateway(w: Store, v: Store, pid: PaymentId) {
    && v.db == w.db && v.issued == w.issued
    && v.jobs.Keys == w.jobs.Keys
    && (forall b | b in w.jobs :: v.jobs[b].finished == w.jobs[b].finished)
    && w.gateway.Keys <= v.gateway.Keys
    && (forall q | q != pid && q in v.gateway :: q in w.gateway && v.gateway[q] == w.gateway[q])
    && GatewayGrows(w, v, pid)
    && (pid in w.gateway && w.gateway[pid].refunds != [] ==> v.gateway[pid].refunds == w.gateway[pid].refunds)
    && (pid in v.gateway ==> GatewayOk(v, pid))
  }

  lemma OnlyGatewayRow(w: Store, v: Store, pid: PaymentId, b: BookingId)
    requires OnlyGateway(w, v, pid) && b in w.db.payments && RowOk(w, b)
    ensures RowOk(v, b)
  {
    var row := w.db.payments[b];
    if row.paymentId.Some? && row.paymentId.value != pid {
      assert row.paymentId.value in v.gateway;
    }
  }

  lemma OnlyGatewayGood(w: Store, held: set<Role>, n: Next, pid: PaymentId)
    requires StoreOk(w) && OnlyGateway(w, n.store, pid)
    requires n.call.Some? ==> CallOk(n.store, n.call.value) && RolesOf(n.call.value) == {}
    ensures GoodStep(w, held, n)
  {
    var v := n.store;
    forall b | b in v.db.bookings ensures BookingOk(v, b) { assert BookingOk(w, b); }
    forall b | b in v.db.payments ensures RowOk(v, b) { OnlyGatewayRow(w, v, pid, b); }
    forall order | order in v.db.orders ensures IndexOk(v, order) { assert IndexOk(w, order); }
    forall q | q in v.gateway ensures GatewayOk(v, q) { if q != pid { assert GatewayOk(w, q); } }
    forall b | b in v.jobs ensures JobOk(v, b) { assert JobOk(w, b); }
    forall q ensures GatewayGrows(w, v, q) { }
    forall role | RoleOk(w, role) ensures RoleOk(v, role) { }
  }

  lemma CaptureGateway(w: Store, k: Call, answer: CaptureAnswer)
    requires k.CapturingPayment? && CallOk(w, k) && GatewayOk(w, k.pid)
    ensures OnlyGateway(w, CaptureStep(w, k, answer).store, k.pid)
    ensures CallOk(CaptureStep(w, k, answer).store, CaptureStep(w, k, answer).call.value)
  {
  }

  /**
   The heart of "refunded once": a gateway payment that has accepted a refund
   of this row's amount has less than that amount left.
   */
  lemma SecondRefundNeverFits(w: Store, b: BookingId, pid: PaymentId, amount: int)
    requires b in w.db.payments && RowOk(w, b) && BookingOk(w, b)
    requires w.db.payments[b].paymentId == Some(pid) && w.db.payments[b].refundAmount == Some(amount)
    requires GatewayOk(w, pid) && w.gateway[pid].refunds != []
    ensures !RefundFits(w.gateway[pid], amount)
  {
    var p := w.gateway[pid];
    assert p.refunds == [p.refunds[0]];
    assert RefundTotal(p.refunds) == RefundTotal([]) + p.refunds[0].amount == amount;
    var total, fee := w.db.bookings[b].total, w.db.bookings[b].fee;
    assert 2 * (total - PricingRules.LateFee(total)) > total;
  }

  lemma AcceptedGateway(w: Store, b: BookingId, pid: PaymentId, amount: int, rid: RefundId)
    requires CallOk(w, AskingRefund(b, pid, amount))
    requires RowOk(w, b) && GatewayOk(w, pid) && RefundFits(w.gateway[pid], amount) && w.gateway[pid].refunds == []
    ensures var v := w.(gateway := w.gateway[pid := AcceptRefund(w.gateway[pid], Refund(rid, amount))]);
            && OnlyGateway(w, v, pid)
            && v.gateway[pid].refunds == [Refund(rid, amount)]
  {
    assert [] + [Refund(rid, amount)] == [Refund(rid, amount)];
  }

  lemma FailGateway(w: Store, v: Store, pid: PaymentId, b: BookingId, c: CallId)
    requires OnlyGateway(w, v, pid)
    ensures OnlyGateway(w, Fail(v, b, c).store, pid)
  {
  }

  lemma RefundGateway(w: Store, k: Call, reply: RefundAnswer, c: CallId)
    requires k.AskingRefund? && CallOk(w, k)
    requires RowOk(w, k.b) && BookingOk(w, k.b) && GatewayOk(w, k.pid)
    ensures OnlyGateway(w, RefundStep(w, k.b, k.pid, k.amount, reply, c).store, k.pid)
    ensures var n := RefundStep(w, k.b, k.pid, k.amount, reply, c);
            n.call.Some? ==> n.call.value.StoringRefund? && CallOk(n.store, n.call.value)
  {
    if w.gateway[k.pid].refunds != [] { SecondRefundNeverFits(w, k.b, k.pid, k.amount); }
    if reply.RefundRefused? || !RefundFits(w.gateway[k.pid], k.amount) {
      FailGateway(w, w, k.pid, k.b, c);
    } else {
      AcceptedGateway(w, k.b, k.pid, k.amount, reply.rid);
      if reply.LostRefund? {
        FailGateway(w, w.(gateway := w.gateway[k.pid := AcceptRefund(w.gateway[k.pid], Refund(reply.rid, k.amount))]), k.pid, k.b, c);
      }
    }
  }

  lemma MoveGateway(w: Store, e: Event)
    requires e.CustomerPays? || e.GatewayMoves?
    requires e.pid in w.gateway ==> GatewayOk(w, e.pid)
    ensures OnlyGateway(w, Environment(w, e), e.pid)
  {
  }

  // ── the remaining steps ──

  lemma OrdersIssued(w: Store, order: OrderId)
    requires StoreOk(w) && order in w.db.orders
    ensures order in w.issued
  {
    assert IndexOk(w, order);
    assert RowOk(w, w.db.orders[order]);
  }

  lemma IssueOk(w: Store, order: OrderId)
    requires StoreOk(w)
    ensures StoreOk(w.(issued := w.issued + {order}))
  {
    var v := w.(issued := w.issued + {order});
    forall b | b in v.db.bookings ensures BookingOk(v, b) { assert BookingOk(w, b); }
    forall b | b in v.db.payments ensures RowOk(v, b) { assert RowOk(w, b); }
    forall o | o in v.db.orders ensures IndexOk(v, o) { assert IndexOk(w, o); }
    forall pid | pid in v.gateway ensures GatewayOk(v, pid) { assert GatewayOk(w, pid); }
    forall b | b in v.jobs ensures JobOk(v, b) { assert JobOk(w, b); }
  }

  lemma OrderGood(w: Store, k: Call, made: Option<OrderId>)
    requires StoreOk(w) && k.OpeningOrder? && RoleOk(w, Opener(k.b))
    ensures GoodStep(w, RolesOf(k), OrderStep(w, k.b, made))
  {
    if made.Some? && made.value !in w.issued {
      IssueOk(w, made.value);
      if made.value in w.db.orders { OrdersIssued(w, made.value); }
    }
  }

  predicate Stored(w: Store, v: Store, b: BookingId, order: OrderId) {
    && RoleOk(w, Opener(b)) && RoleOk(w, Holder(order)) && BookingOk(w, b)
    && v == w.(db := InsertPayment(w.db, b, w.db.bookings[b].total, order))
  }

  lemma StoredBooking(w: Store, v: Store, b: BookingId, order: OrderId, x: BookingId)
    requires Stored(w, v, b, order) && RowsOk(w, x)
    ensures RowsOk(v, x) && RowGrows(w, v, x) && BookingGrows(w, v, x)
  {
  }

  lemma StoredGateway(w: Store, v: Store, b: BookingId, order: OrderId, pid: PaymentId)
    requires Stored(w, v, b, order) && pid in w.gateway && GatewayOk(w, pid)
    ensures GatewayOk(v, pid)
  {
  }

  lemma StoredOk(w: Store, v: Store, b: BookingId, order: OrderId)
    requires StoreOk(w) && Stored(w, v, b, order)
    ensures StoreOk(v)
  {
    forall x ensures RowsOk(v, x) { RowsOkAt(w, x); StoredBooking(w, v, b, order, x); }
    forall x | x in v.db.bookings ensures BookingOk(v, x) { assert RowsOk(v, x); }
    forall x | x in v.db.payments ensures RowOk(v, x) { assert RowsOk(v, x); }
    forall x | x in v.jobs ensures JobOk(v, x) { assert RowsOk(v, x); }
    forall o | o in v.db.orders ensures IndexOk(v, o) { assert o != order ==> IndexOk(w, o); }
    forall pid | pid in v.gateway ensures GatewayOk(v, pid) { StoredGateway(w, v, b, order, pid); }
  }

  lemma StoredRole(w: Store, v: Store, b: BookingId, order: OrderId, role: Role)
    requires Stored(w, v, b, order) && RoleOk(w, role) && role != Opener(b) && role != Holder(order)
    ensures RoleOk(v, role)
  {
  }

  lemma StoreGood(w: Store, k: Call, ok: bool)
    requires StoreOk(w) && k.StoringPayment? && RoleOk(w, Opener(k.b)) && RoleOk(w, Holder(k.order))
    ensures GoodStep(w, RolesOf(k), StoreStep(w, k.b, k.order, ok))
  {
    if ok {
      var v := StoreStep(w, k.b, k.order, ok).store;
      assert Stored(w, v, k.b, k.order);
      StoredOk(w, v, k.b, k.order);
      forall x ensures RowGrows(w, v, x) && BookingGrows(w, v, x) {
        RowsOkAt(w, x);
        StoredBooking(w, v, k.b, k.order, x);
      }
      forall role | RoleOk(w, role) && role !in RolesOf(k) ensures RoleOk(v, role) {
        StoredRole(w, v, k.b, k.order, role);
      }
    }
  }

  lemma WebhookRows(w: Store, rid: RefundId, b: BookingId)
    requires RowsOk(w, b)
    ensures RowsOk(Environment(w, RefundWebhook(rid)), b) && RowGrows(w, Environment(w, RefundWebhook(rid)), b)
  {
  }

  lemma WebhookGateway(w: Store, rid: RefundId, pid: PaymentId)
    requires pid in w.gateway && GatewayOk(w, pid)
    ensures GatewayOk(Environment(w, RefundWebhook(rid)), pid)
  {
  }

  lemma WebhookOk(w: Store, rid: RefundId)
    requires StoreOk(w)
    ensures StoreOk(Environment(w, RefundWebhook(rid)))
  {
    var v := Environment(w, RefundWebhook(rid));
    forall x ensures RowsOk(v, x) { RowsOkAt(w, x); WebhookRows(w, rid, x); }
    forall x | x in v.db.bookings ensures BookingOk(v, x) { assert RowsOk(v, x); }
    forall x | x in v.db.payments ensures RowOk(v, x) { assert RowsOk(v, x); }
    forall x | x in v.jobs ensures JobOk(v, x) { assert RowsOk(v, x); }
    forall o | o in v.db.orders ensures IndexOk(v, o) { assert IndexOk(w, o); }
    forall pid | pid in v.gateway ensures GatewayOk(v, pid) { WebhookGateway(w, rid, pid); }
  }

  lemma WebhookGood(w: Store, rid: RefundId)
    requires StoreOk(w)
    ensures GoodStep(w, {}, Done(Environment(w, RefundWebhook(rid))))
  {
    var v := Environment(w, RefundWebhook(rid));
    WebhookOk(w, rid);
    forall b ensures RowGrows(w, v, b) { RowsOkAt(w, b); WebhookRows(w, rid, b); }
  }

  lemma StatusRows(w: Store, e: Event)
    requires (e.Assign? || e.Move?) && RowsOk(w, e.b)
    ensures RowsStep(w, {}, Done(Environment(w, e)), e.b)
  {
  }

  // ── every step, every run ──

  lemma SameStoreGood(w: Store, held: set<Role>, n: Next)
    requires StoreOk(w) && n.store == w
    requires n.call.Some? ==> CallOk(w, n.call.value) && RolesOf(n.call.value) == {}
    ensures GoodStep(w, held, n)
  {
  }

  lemma BeginGood(w: Store, e: Event)
    requires StoreOk(w) && Begins(e)
    ensures GoodStep(w, {}, Begin(w, e))
  {
    if e.Book? {
      RowsOkAt(w, e.b);
      BookRows(w, e.b, e.user, e.total, e.now);
      RowsStepGood(w, {}, Begin(w, e), e.b);
    } else if e.WorkerStarted? {
      RowsOkAt(w, e.b);
      WorkerRows(w, e.b, e.c);
      RowsStepGood(w, {}, Begin(w, e), e.b);
    } else {
      SameStoreGood(w, {}, Begin(w, e));
    }
  }

  /** The awaits whose statement writes only the rows of the call's own booking. */
  predicate WritesRows(e: Event) {
    e.BookingClosed? || e.PaymentConfirmed? || e.CancelWritten? || e.RefundClaimed? || e.RefundScheduled?
    || e.RefundStored? || e.RefundMarked? || e.AttemptFailed?
  }

  lemma ContinueRows(w: Store, k: Call, e: Event)
    requires WritesRows(e) && Awaits(k, e) && CallOk(w, k) && (forall role | role in RolesOf(k) :: RoleOk(w, role))
    requires RowsOk(w, k.b)
    requires k.StoringRefund? ==> GatewayOk(w, w.db.payments[k.b].paymentId.value)
    ensures RowsStep(w, RolesOf(k), Continue(w, k, e), k.b)
  {
    if e.BookingClosed? { CloseRows(w, k); }
    else if e.PaymentConfirmed? { ConfirmRows(w, k); }
    else if e.CancelWritten? { CancelRows(w, k); }
    else if e.RefundClaimed? { ClaimRows(w, k); }
    else if e.RefundScheduled? { ScheduleRows(w, k); }
    else if e.RefundStored? { StoreRefundRows(w, k, e.c); }
    else if e.RefundMarked? { MarkRows(w, k, e.c); }
    else { FailRows(w, k, e.c); }
  }

  lemma ContinueGood(w: Store, k: Call, e: Event)
    requires StoreOk(w) && Awaits(k, e) && CallOk(w, k) && (forall role | role in RolesOf(k) :: RoleOk(w, role))
    ensures GoodStep(w, RolesOf(k), Continue(w, k, e))
  {
    RowsOkAt(w, k.b);
    if WritesRows(e) {
      ContinueRows(w, k, e);
      RowsStepGood(w, RolesOf(k), Continue(w, k, e), k.b);
    } else if e.OrderOpened? {
      OrderGood(w, k, e.made);
    } else if e.PaymentStored? {
      StoreGood(w, k, e.ok);
    } else {
      AskGood(w, k, e);
    }
  }

  /** The gateway's word is only taken for the row's exact order, amount and currency. */
  lemma FetchCall(w: Store, k: Call, e: Event)
    requires (e.Fetched? || e.Refetched?) && Awaits(k, e) && CallOk(w, k)
    ensures var n := Continue(w, k, e);
            n.store == w && (n.call.Some? ==> CallOk(w, n.call.value) && RolesOf(n.call.value) == {})
  {
  }

  lemma AskGood(w: Store, k: Call, e: Event)
    requires StoreOk(w) && Awaits(k, e) && CallOk(w, k)
    requires e.Fetched? || e.CaptureAsked? || e.Refetched? || e.RefundAsked?
    ensures GoodStep(w, RolesOf(k), Continue(w, k, e))
  {
    var n := Continue(w, k, e);
    if e.CaptureAsked? {
      CaptureGateway(w, k, e.answer);
      OnlyGatewayGood(w, RolesOf(k), n, k.pid);
    } else if e.RefundAsked? {
      RowsOkAt(w, k.b);
      RefundGateway(w, k, e.reply, e.c);
      OnlyGatewayGood(w, RolesOf(k), n, k.pid);
    } else {
      FetchCall(w, k, e);
      SameStoreGood(w, RolesOf(k), n);
    }
  }

  lemma EnvironmentGood(w: Store, e: Event)
    requires StoreOk(w) && Outside(e)
    ensures GoodStep(w, {}, Done(Environment(w, e)))
  {
    match e
    case RefundWebhook(rid) => WebhookGood(w, rid);
    case JobStalled(b) => RowsOkAt(w, b); StallRows(w, b); RowsStepGood(w, {}, Done(Environment(w, e)), b);
    case Assign(b) => RowsOkAt(w, b); StatusRows(w, e); RowsStepGood(w, {}, Done(Environment(w, e)), b);
    case Move(b, _) => RowsOkAt(w, b); StatusRows(w, e); RowsStepGood(w, {}, Done(Environment(w, e)), b);
    case CustomerPays(pid, _, _, _) => MoveGateway(w, e); OnlyGatewayGood(w, {}, Done(Environment(w, e)), pid);
    case GatewayMoves(pid, _) => MoveGateway(w, e); OnlyGatewayGood(w, {}, Done(Environment(w, e)), pid);
  }

  /** Every step of every call, of the gateway and of a crash keeps the invariant and only grows the store. */
  lemma StepKeeps(s: Sys, e: Event)
    requires Inv(s)
    ensures Inv(Step(s, e)) && Grows(s.store, Step(s, e).store)
  {
    if Begins(e) {
      if e.c !in s.calls {
        BeginGood(s.store, e);
        AdvanceKeepsCalls(s.store, s.calls, e.c, Begin(s.store, e));
      }
    } else if Outside(e) {
      var n := Done(Environment(s.store, e));
      EnvironmentGood(s.store, e);
      OutsideKeepsCalls(s.store, n.store, s.calls);
    } else if e.c in s.calls && !e.Crash? && Awaits(s.calls[e.c], e) {
      var k := s.calls[e.c];
      ContinueGood(s.store, k, e);
      AdvanceKeepsCalls(s.store, s.calls, e.c, Continue(s.store, k, e));
    }
  }

  lemma OutsideKeepsCalls(w: Store, v: Store, calls: map<CallId, Call>)
    requires CallsOk(w, calls) && GoodStep(w, {}, Done(v))
    ensures CallsOk(v, calls)
  {
    forall c | c in calls ensures CallOk(v, calls[c]) { CallStays(w, v, calls[c]); }
  }

  lemma {:induction false} RunKeeps(s: Sys, es: seq<Event>)
    requires Inv(s)
    ensures Inv(Run(s, es))
  {
    if es != [] {
      RunKeeps(s, es[..|es| - 1]);
      StepKeeps(Run(s, es[..|es| - 1]), es[|es| - 1]);
    }
  }

  lemma Reachable(es: seq<Event>)
    ensures Inv(Run(EMPTY, es))
  {
    RunKeeps(EMPTY, es);
  }
}
