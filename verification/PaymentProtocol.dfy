/**
 Paying for and refunding a home-service booking, as one deterministic machine.

 Every event is one database statement or transaction, one gateway call, or one
 read that a call makes between two awaits; a call that is between two awaits
 sits in the table of calls. An event whose call is not at that point changes
 nothing, so a run is any sequence of events: every interleaving of customers,
 companies, webhooks, queue workers, gateway answers and crashes is one.
 */
module PaymentProtocol {
  import opened Common
  import opened BookingStatus
  import PricingRules

  type UserId = nat
  type BookingId = nat
  type OrderId = nat
  type PaymentId = nat
  type RefundId = nat
  type CallId = nat

  // ── the database ──

  /** Money is paise. The user, the total and the booking time are never written again. */
  datatype Booking = Booking(user: UserId, total: int, createdAt: int, status: Status, fee: int)

  datatype PaymentStatus = Created | Captured | RefundPending | Refunded

  datatype Payment = Payment(
    status: PaymentStatus,
    amount: int,
    order: OrderId,
    paymentId: Option<PaymentId>,
    refundAmount: Option<int>,
    refundId: Option<RefundId>)

  /** Payment rows are keyed by their unique booking; orders is their unique index on the gateway order. */
  datatype Db = Db(
    bookings: map<BookingId, Booking>,
    payments: map<BookingId, Payment>,
    orders: map<OrderId, BookingId>)

  function InsertBooking(db: Db, b: BookingId, row: Booking): Db {
    db.(bookings := db.bookings[b := row])
  }

  function SetStatus(db: Db, b: BookingId, status: Status): Db
    requires b in db.bookings
  {
    db.(bookings := db.bookings[b := db.bookings[b].(status := status)])
  }

  /** The conditional cancel: from a status in [from] the row takes the fee, from any other nothing changes. */
  function CancelBooking(db: Db, b: BookingId, from: set<Status>, fee: int): (Db, bool) {
    if b in db.bookings && db.bookings[b].status in from then
      (db.(bookings := db.bookings[b := db.bookings[b].(status := Cancelled, fee := fee)]), true)
    else (db, false)
  }

  function InsertPayment(db: Db, b: BookingId, amount: int, order: OrderId): Db {
    db.(payments := db.payments[b := Payment(Created, amount, order, None, None, None)],
        orders := db.orders[order := b])
  }

  /** One transaction: the payment leaves CREATED and its booking is released, both or neither. */
  function CapturePayment(db: Db, order: OrderId, pid: PaymentId): (Db, bool) {
    if order in db.orders && db.orders[order] in db.payments
       && db.payments[db.orders[order]].status == Created then
      var b := db.orders[order];
      var paid := db.(payments := db.payments[b := db.payments[b].(status := Captured, paymentId := Some(pid))]);
      (if b in db.bookings && db.bookings[b].status == AwaitingPayment then SetStatus(paid, b, Pending) else paid,
       true)
    else (db, false)
  }

  /** Takes a CAPTURED row to REFUND_PENDING with its amount; true exactly when it was CAPTURED. */
  function ClaimRefund(db: Db, b: BookingId, amount: int): (Db, bool) {
    if b in db.payments && db.payments[b].status == Captured then
      (db.(payments := db.payments[b := db.payments[b].(status := RefundPending, refundAmount := Some(amount))]), true)
    else (db, false)
  }

  function StoreRefundId(db: Db, b: BookingId, rid: RefundId): Db
    requires b in db.payments
  {
    db.(payments := db.payments[b := db.payments[b].(refundId := Some(rid))])
  }

  function Settled(row: Payment): Payment {
    if row.status == RefundPending then row.(status := Refunded) else row
  }

  function MarkRefunded(db: Db, b: BookingId): Db {
    if b in db.payments then db.(payments := db.payments[b := Settled(db.payments[b])]) else db
  }

  /** The same, for the rows the gateway's refund webhook names. */
  function MarkRefundedBy(db: Db, rid: RefundId): Db {
    db.(payments := map b | b in db.payments ::
          if db.payments[b].refundId == Some(rid) then Settled(db.payments[b]) else db.payments[b])
  }

  // ── the gateway ──

  datatype GatewayStatus = GwCreated | GwAuthorized | GwCaptured | GwRefunded | GwFailed

  datatype Refund = Refund(id: RefundId, amount: int)

  datatype GatewayPayment = GatewayPayment(
    order: OrderId,
    amount: int,
    inr: bool,
    status: GatewayStatus,
    refunds: seq<Refund>)

  function RefundTotal(refunds: seq<Refund>): int {
    if refunds == [] then 0 else RefundTotal(refunds[..|refunds| - 1]) + refunds[|refunds| - 1].amount
  }

  /** A gateway payment only moves forward. */
  predicate Forward(from: GatewayStatus, to: GatewayStatus) {
    match from
    case GwCreated => to == GwAuthorized || to == GwCaptured || to == GwFailed
    case GwAuthorized => to == GwCaptured || to == GwFailed
    case _ => false
  }

  /** The gateway accepts a positive refund that, with those before it, stays within a captured amount. */
  predicate RefundFits(p: GatewayPayment, amount: int) {
    p.status == GwCaptured && amount > 0 && RefundTotal(p.refunds) + amount <= p.amount
  }

  function AcceptRefund(p: GatewayPayment, refund: Refund): GatewayPayment {
    var all := p.refunds + [refund];
    p.(refunds := all, status := if RefundTotal(all) == p.amount then GwRefunded else p.status)
  }

  /** What the gateway answers to a capture. LostCapture takes effect and the answer never arrives. */
  datatype CaptureAnswer = CaptureDone | LostCapture | CaptureRefused

  /** What it answers to a refund. LostRefund takes effect and the answer never arrives. */
  datatype RefundAnswer = RefundDone(rid: RefundId, processed: bool) | LostRefund(rid: RefundId) | RefundRefused

  // ── the queue ──

  /**
   One job per booking: its failed attempts, whether a worker has finished it,
   the call that holds its lock, and how often it stalled, which is to say its
   lock ran out because the call that held it had died or hung.
   */
  datatype Job = Job(failures: nat, finished: bool, holder: Option<CallId>, stalls: nat)

  const NEW_JOB := Job(0, false, None, 0)

  const MAX_ATTEMPTS := 3

  /** A job that stalls more often is given up, whatever attempts it has left. */
  const MAX_STALLS := 1

  // ── calls between two awaits ──

  datatype Call =
    | OpeningOrder(b: BookingId)                                  // book: waiting for createOrder
    | StoringPayment(b: BookingId, order: OrderId)                // book: waiting for payments.create
    | ClosingBooking(b: BookingId)                                // book: checkout failed, about to cancel
    | FetchingPayment(b: BookingId, order: OrderId, amount: int, pid: PaymentId)
    | CapturingPayment(b: BookingId, order: OrderId, amount: int, pid: PaymentId)
    | RefetchingPayment(b: BookingId, order: OrderId, amount: int, pid: PaymentId)
    | ConfirmingPayment(b: BookingId, order: OrderId, pid: PaymentId)
    | Cancelling(b: BookingId, from: set<Status>, fee: int)       // status read, about to compare-and-set
    | ClaimingRefund(b: BookingId, amount: int)                   // cancelled, about to claim the refund
    | SchedulingRefund(b: BookingId)                              // claimed, about to queue the job
    | AskingRefund(b: BookingId, pid: PaymentId, amount: int)     // worker: row read, about to ask the gateway
    | StoringRefund(b: BookingId, rid: RefundId, processed: bool) // worker: asked, about to store the id
    | MarkingRefunded(b: BookingId)                               // worker: id stored, about to settle

  /** Everything that outlives a call. */
  datatype Store = Store(
    db: Db,
    issued: set<OrderId>,
    gateway: map<PaymentId, GatewayPayment>,
    jobs: map<BookingId, Job>)

  datatype Sys = Sys(store: Store, calls: map<CallId, Call>)

  const EMPTY := Sys(Store(Db(map[], map[], map[]), {}, map[], map[]), map[])

  datatype Event =
    // a request, webhook delivery or queue job begins
    | Book(c: CallId, b: BookingId, user: UserId, total: int, now: int)
    | Verify(c: CallId, user: UserId, b: BookingId, order: OrderId, pid: PaymentId, signed: bool)
    | PaymentWebhook(c: CallId, order: OrderId, pid: PaymentId)
    | CustomerCancel(c: CallId, user: UserId, b: BookingId, now: int)
    | CompanyCancel(c: CallId, b: BookingId)
    | WorkerStarted(c: CallId, b: BookingId)
    // a call passes one await
    | OrderOpened(c: CallId, made: Option<OrderId>)
    | PaymentStored(c: CallId, ok: bool)
    | BookingClosed(c: CallId)
    | Fetched(c: CallId, ok: bool)
    | CaptureAsked(c: CallId, answer: CaptureAnswer)
    | Refetched(c: CallId, ok: bool)
    | PaymentConfirmed(c: CallId)
    | CancelWritten(c: CallId)
    | RefundClaimed(c: CallId)
    | RefundScheduled(c: CallId)
    | RefundAsked(c: CallId, reply: RefundAnswer)
    | RefundStored(c: CallId)
    | RefundMarked(c: CallId)
    | AttemptFailed(c: CallId)                                    // worker: a statement it awaits fails
    // a call dies: its process stops, or, for any but a worker's, a statement it awaits fails
    | Crash(c: CallId)
    // one-step calls and the world outside
    | JobStalled(b: BookingId)
    | RefundWebhook(rid: RefundId)
    | Assign(b: BookingId)
    | Move(b: BookingId, next: Status)
    | CustomerPays(pid: PaymentId, order: OrderId, amount: int, inr: bool)
    | GatewayMoves(pid: PaymentId, to: GatewayStatus)

  // ── steps ──

  /** The store after a step, and where the call that took it now waits; None when it has returned. */
  datatype Next = Next(store: Store, call: Option<Call>)

  function Done(w: Store): Next {
    Next(w, None)
  }

  // A booking is priced, stored, and, when there is something to pay, taken to the gateway.

  function BookStep(w: Store, b: BookingId, user: UserId, total: int, now: int): Next {
    if b in w.db.bookings then Done(w)
    else
      var online := total > 0;
      var row := Booking(user, total, now, if online then AwaitingPayment else Pending, 0);
      Next(w.(db := InsertBooking(w.db, b, row)), if online then Some(OpeningOrder(b)) else None)
  }

  function OrderStep(w: Store, b: BookingId, made: Option<OrderId>): Next {
    if made.None? || made.value in w.issued then Next(w, Some(ClosingBooking(b)))
    else Next(w.(issued := w.issued + {made.value}), Some(StoringPayment(b, made.value)))
  }

  function StoreStep(w: Store, b: BookingId, order: OrderId, ok: bool): Next {
    if !ok || b !in w.db.bookings then Next(w, Some(ClosingBooking(b)))
    else Done(w.(db := InsertPayment(w.db, b, w.db.bookings[b].total, order)))
  }

  // Settling: only a payment read as CREATED goes on to the gateway, whose word decides.

  function SettleStep(w: Store, b: BookingId, pid: PaymentId): Next
    requires b in w.db.payments
  {
    var row := w.db.payments[b];
    Next(w, if row.status == Created then Some(FetchingPayment(b, row.order, row.amount, pid)) else None)
  }

  function VerifyStep(w: Store, user: UserId, b: BookingId, order: OrderId, pid: PaymentId, signed: bool): Next {
    if b in w.db.bookings && w.db.bookings[b].user == user
       && b in w.db.payments && w.db.payments[b].order == order && signed
    then SettleStep(w, b, pid) else Done(w)
  }

  function WebhookStep(w: Store, order: OrderId, pid: PaymentId): Next {
    if order in w.db.orders && w.db.orders[order] in w.db.payments
    then SettleStep(w, w.db.orders[order], pid) else Done(w)
  }

  function FetchStep(w: Store, f: Call, ok: bool): Next
    requires f.FetchingPayment?
  {
    if !ok || f.pid !in w.gateway then Done(w)
    else
      var p := w.gateway[f.pid];
      if p.order != f.order || p.amount != f.amount || !p.inr then Done(w)
      else Next(w, match p.status
                   case GwAuthorized => Some(CapturingPayment(f.b, f.order, f.amount, f.pid))
                   case GwCaptured => Some(ConfirmingPayment(f.b, f.order, f.pid))
                   case _ => None)
  }

  /** When a capture call takes effect at the gateway: authorized, and asked for the amount authorized. */
  predicate CanCapture(w: Store, pid: PaymentId, amount: int) {
    pid in w.gateway && w.gateway[pid].status == GwAuthorized && w.gateway[pid].amount == amount
  }

  function GatewayStatusTo(w: Store, pid: PaymentId, to: GatewayStatus): Store
    requires pid in w.gateway
  {
    w.(gateway := w.gateway[pid := w.gateway[pid].(status := to)])
  }

  function CaptureStep(w: Store, f: Call, answer: CaptureAnswer): Next
    requires f.CapturingPayment?
  {
    var again := RefetchingPayment(f.b, f.order, f.amount, f.pid);
    if answer.CaptureRefused? || !CanCapture(w, f.pid, f.amount) then Next(w, Some(again))
    else Next(GatewayStatusTo(w, f.pid, GwCaptured),
              Some(if answer.LostCapture? then again else ConfirmingPayment(f.b, f.order, f.pid)))
  }

  /** The loser of a race to capture reads again instead of failing. */
  function RefetchStep(w: Store, f: Call, ok: bool): Next
    requires f.RefetchingPayment?
  {
    if ok && f.pid in w.gateway && w.gateway[f.pid].status == GwCaptured
    then Next(w, Some(ConfirmingPayment(f.b, f.order, f.pid))) else Done(w)
  }

  // Cancelling: compare-and-set, then claim the refund, then queue it.

  function CustomerCancelStep(w: Store, user: UserId, b: BookingId, now: int): Next {
    if b in w.db.bookings && w.db.bookings[b].user == user && w.db.bookings[b].status in CUSTOMER_CANCELLABLE then
      var row := w.db.bookings[b];
      Next(w, Some(Cancelling(b, CUSTOMER_CANCELLABLE, PricingRules.CancellationFee(row.total, row.createdAt, now))))
    else Done(w)
  }

  /** A cancel by the company carries the status it read and a fee of zero. */
  function CompanyCancelStep(w: Store, b: BookingId): Next {
    if b in w.db.bookings && Cancelled in AdminTransitions(w.db.bookings[b].status)
    then Next(w, Some(Cancelling(b, {w.db.bookings[b].status}, 0))) else Done(w)
  }

  function CancelStep(w: Store, b: BookingId, from: set<Status>, fee: int): Next {
    var (db, cancelled) := CancelBooking(w.db, b, from, fee);
    if cancelled && db.bookings[b].total - fee > 0
    then Next(w.(db := db), Some(ClaimingRefund(b, db.bookings[b].total - fee)))
    else Done(w.(db := db))
  }

  function ClaimStep(w: Store, b: BookingId, amount: int): Next {
    var (db, claimed) := ClaimRefund(w.db, b, amount);
    Next(w.(db := db), if claimed then Some(SchedulingRefund(b)) else None)
  }

  /** The queue ignores a job whose id it already holds. */
  function ScheduleStep(w: Store, b: BookingId): Next {
    Done(if b in w.jobs then w else w.(jobs := w.jobs[b := NEW_JOB]))
  }

  // The worker. It takes the job's lock and gives it back with the outcome; an outcome without the lock is void.
  // A call whose lock ran out may still be at work, beside the one that took the lock after it.

  predicate Holds(w: Store, b: BookingId, c: CallId) {
    b in w.jobs && w.jobs[b].holder == Some(c)
  }

  function Finish(w: Store, b: BookingId, c: CallId): Next {
    Done(if Holds(w, b, c) then w.(jobs := w.jobs[b := w.jobs[b].(finished := true, holder := None)]) else w)
  }

  /** An error costs the job an attempt. */
  function Fail(w: Store, b: BookingId, c: CallId): Next {
    Done(if Holds(w, b, c)
         then w.(jobs := w.jobs[b := w.jobs[b].(failures := w.jobs[b].failures + 1, holder := None)]) else w)
  }

  /** A job the queue still means to run: attempts left, and not stalled too often. */
  predicate JobLives(j: Job) {
    !j.finished && j.failures < MAX_ATTEMPTS && j.stalls <= MAX_STALLS
  }

  /** A job the queue hands to the next worker. */
  predicate JobReady(w: Store, b: BookingId) {
    b in w.jobs && JobLives(w.jobs[b]) && w.jobs[b].holder.None?
  }

  /** The store with the lock of a ready job taken. */
  function Locked(w: Store, b: BookingId, c: CallId): Store
    requires b in w.jobs
  {
    w.(jobs := w.jobs[b := w.jobs[b].(holder := Some(c))])
  }

  function WorkerStep(w: Store, b: BookingId, c: CallId): Next {
    if !JobReady(w, b) then Done(w)
    else if b !in w.db.payments then Finish(Locked(w, b, c), b, c)
    else
      var row := w.db.payments[b];
      if row.status != RefundPending || row.refundId.Some? || row.paymentId.None? || row.refundAmount.None?
      then Finish(Locked(w, b, c), b, c)
      else Next(Locked(w, b, c), Some(AskingRefund(b, row.paymentId.value, row.refundAmount.value)))
  }

  function RefundStep(w: Store, b: BookingId, pid: PaymentId, amount: int, reply: RefundAnswer, c: CallId): Next {
    if reply.RefundRefused? || pid !in w.gateway || !RefundFits(w.gateway[pid], amount) then Fail(w, b, c)
    else
      var asked := w.(gateway := w.gateway[pid := AcceptRefund(w.gateway[pid], Refund(reply.rid, amount))]);
      if reply.LostRefund? then Fail(asked, b, c) else Next(asked, Some(StoringRefund(b, reply.rid, reply.processed)))
  }

  function StoreRefundStep(w: Store, b: BookingId, rid: RefundId, processed: bool, c: CallId): Next {
    if b !in w.db.payments then Fail(w, b, c)
    else
      var stored := w.(db := StoreRefundId(w.db, b, rid));
      if processed then Next(stored, Some(MarkingRefunded(b))) else Finish(stored, b, c)
  }

  /** The queue finds a lock run out: the job waits for another worker, or is given up. */
  function Stalled(j: Job): Job {
    if j.holder.Some? && !j.finished then j.(holder := None, stalls := j.stalls + 1) else j
  }

  /** What a request, a delivery or a job does up to its first await. */
  function Begin(w: Store, e: Event): Next
    requires Begins(e)
  {
    match e
    case Book(_, b, user, total, now) => BookStep(w, b, user, total, now)
    case Verify(_, user, b, order, pid, signed) => VerifyStep(w, user, b, order, pid, signed)
    case PaymentWebhook(_, order, pid) => WebhookStep(w, order, pid)
    case CustomerCancel(_, user, b, now) => CustomerCancelStep(w, user, b, now)
    case CompanyCancel(_, b) => CompanyCancelStep(w, b)
    case WorkerStarted(c, b) => WorkerStep(w, b, c)
  }

  predicate Begins(e: Event) {
    e.Book? || e.Verify? || e.PaymentWebhook? || e.CustomerCancel? || e.CompanyCancel? || e.WorkerStarted?
  }

  /** Whether call [k] is waiting for just this event. */
  predicate Awaits(k: Call, e: Event) {
    match e
    case OrderOpened(_, _) => k.OpeningOrder?
    case PaymentStored(_, _) => k.StoringPayment?
    case BookingClosed(_) => k.ClosingBooking?
    case Fetched(_, _) => k.FetchingPayment?
    case CaptureAsked(_, _) => k.CapturingPayment?
    case Refetched(_, _) => k.RefetchingPayment?
    case PaymentConfirmed(_) => k.ConfirmingPayment?
    case CancelWritten(_) => k.Cancelling?
    case RefundClaimed(_) => k.ClaimingRefund?
    case RefundScheduled(_) => k.SchedulingRefund?
    case RefundAsked(_, _) => k.AskingRefund?
    case RefundStored(_) => k.StoringRefund?
    case RefundMarked(_) => k.MarkingRefunded?
    case AttemptFailed(_) => k.AskingRefund? || k.StoringRefund? || k.MarkingRefunded?
    case _ => false
  }

  /** What the await it waits on does, and what the call does up to the next one. */
  function Continue(w: Store, k: Call, e: Event): Next
    requires Awaits(k, e)
  {
    match e
    case OrderOpened(_, made) => OrderStep(w, k.b, made)
    case PaymentStored(_, ok) => StoreStep(w, k.b, k.order, ok)
    case BookingClosed(_) => Done(w.(db := CancelBooking(w.db, k.b, {AwaitingPayment}, 0).0))
    case Fetched(_, ok) => FetchStep(w, k, ok)
    case CaptureAsked(_, answer) => CaptureStep(w, k, answer)
    case Refetched(_, ok) => RefetchStep(w, k, ok)
    case PaymentConfirmed(_) => Done(w.(db := CapturePayment(w.db, k.order, k.pid).0))
    case CancelWritten(_) => CancelStep(w, k.b, k.from, k.fee)
    case RefundClaimed(_) => ClaimStep(w, k.b, k.amount)
    case RefundScheduled(_) => ScheduleStep(w, k.b)
    case RefundAsked(c, reply) => RefundStep(w, k.b, k.pid, k.amount, reply, c)
    case RefundStored(c) => StoreRefundStep(w, k.b, k.rid, k.processed, c)
    case RefundMarked(c) => Finish(w.(db := MarkRefunded(w.db, k.b)), k.b, c)
    case AttemptFailed(c) => Fail(w, k.b, c)
  }

  predicate Outside(e: Event) {
    e.JobStalled? || e.RefundWebhook? || e.Assign? || e.Move? || e.CustomerPays? || e.GatewayMoves?
  }

  function Environment(w: Store, e: Event): Store
    requires Outside(e)
  {
    match e
    case JobStalled(b) => if b in w.jobs then w.(jobs := w.jobs[b := Stalled(w.jobs[b])]) else w
    case RefundWebhook(rid) => w.(db := MarkRefundedBy(w.db, rid))
    case Assign(b) =>
      if b in w.db.bookings && w.db.bookings[b].status in ASSIGNABLE
      then w.(db := SetStatus(w.db, b, Confirmed)) else w
    case Move(b, next) =>
      if b in w.db.bookings && next != Cancelled && next in AdminTransitions(w.db.bookings[b].status)
      then w.(db := SetStatus(w.db, b, next)) else w
    case CustomerPays(pid, order, amount, inr) =>
      if pid in w.gateway then w
      else w.(gateway := w.gateway[pid := GatewayPayment(order, amount, inr, GwCreated, [])])
    case GatewayMoves(pid, to) =>
      if pid in w.gateway && Forward(w.gateway[pid].status, to) then GatewayStatusTo(w, pid, to) else w
  }

  function Advance(calls: map<CallId, Call>, c: CallId, n: Next): Sys {
    Sys(n.store, if n.call.None? then calls - {c} else calls[c := n.call.value])
  }

  function Step(s: Sys, e: Event): Sys {
    if Begins(e) then if e.c in s.calls then s else Advance(s.calls, e.c, Begin(s.store, e))
    else if Outside(e) then s.(store := Environment(s.store, e))
    else if e.c !in s.calls then s
    else if e.Crash? then s.(calls := s.calls - {e.c})
    else if Awaits(s.calls[e.c], e) then Advance(s.calls, e.c, Continue(s.store, s.calls[e.c], e))
    else s
  }

  function Run(s: Sys, es: seq<Event>): Sys {
    if es == [] then s else Step(Run(s, es[..|es| - 1]), es[|es| - 1])
  }
}
