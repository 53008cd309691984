/**
 The services as the program runs them, statement by statement, over tables
 they update in place. Each method is one call running alone, and leaves the
 tables as its events do in the protocol. How calls interleave at their awaits
 is the protocol's to say.
 */
module PaymentBackend {
  import opened Common
  import opened BookingStatus
  import opened PaymentProtocol
  import PricingRules

  /** Why a call was refused; a refused call has changed nothing. */
  datatype Refusal = NotFound | BadSignature | Mismatch | NotCompleted | Upstream | InvalidTransition

  /** The world with no call in flight but, perhaps, call 0. */
  function Alone(n: Next): Sys {
    Sys(n.store, if n.call.None? then map[] else map[0 := n.call.value])
  }

  /** How one event finds and leaves call 0 when it is alone. */
  function Follow(n: Next, e: Event): Next {
    if Begins(e) then if n.call.None? then Begin(n.store, e) else n
    else if n.call.Some? && Awaits(n.call.value, e) then Continue(n.store, n.call.value, e)
    else n
  }

  function FollowAll(n: Next, e0: Event, e1: Event, e2: Event, e3: Event): Next {
    Follow(Follow(Follow(Follow(n, e0), e1), e2), e3)
  }

  predicate OfCall0(e: Event) {
    !Outside(e) && !e.Crash? && e.c == 0
  }

  lemma StepFollows(n: Next, e: Event)
    requires OfCall0(e)
    ensures Step(Alone(n), e) == Alone(Follow(n, e))
  {
    var s := Alone(n);
    if n.call.Some? && Awaits(n.call.value, e) {
      var m := Continue(n.store, n.call.value, e);
      assert s.calls - {0} == map[];
      assert m.call.Some? ==> s.calls[0 := m.call.value] == map[0 := m.call.value];
    } else if n.call.None? && Begins(e) {
      assert s.calls - {0} == map[];
    }
  }

  /** A call running alone is its events followed one after the other. */
  lemma RunAlone(n: Next, e0: Event, e1: Event, e2: Event, e3: Event)
    requires OfCall0(e0) && OfCall0(e1) && OfCall0(e2) && OfCall0(e3)
    ensures Run(Alone(n), [e0, e1, e2, e3]) == Alone(FollowAll(n, e0, e1, e2, e3))
  {
    var s := Alone(n);
    assert [e0, e1, e2, e3][..3] == [e0, e1, e2];
    assert [e0, e1, e2][..2] == [e0, e1];
    assert [e0, e1][..1] == [e0];
    assert Run(s, [e0]) == Step(Run(s, []), e0);
    assert Run(s, [e0, e1]) == Step(Run(s, [e0]), e1);
    assert Run(s, [e0, e1, e2]) == Step(Run(s, [e0, e1]), e2);
    StepFollows(n, e0);
    StepFollows(Follow(n, e0), e1);
    StepFollows(Follow(Follow(n, e0), e1), e2);
    StepFollows(Follow(Follow(Follow(n, e0), e1), e2), e3);
  }

  /** Events a call is not waiting for leave it where it is; once it has returned they all do. */
  lemma ReturnedCallsRest(w: Store, e: Event)
    requires !Begins(e)
    ensures Follow(Done(w), e) == Done(w)
  {
  }

  lemma SettlingEnds(w: Store, f: Call, fetched: bool, answer: CaptureAnswer, refetched: bool)
    requires f.FetchingPayment? && f.pid in w.gateway
    ensures var p := w.gateway[f.pid];
            var matching := fetched && p.order == f.order && p.amount == f.amount && p.inr;
            var n := FollowAll(Next(w, Some(f)), Fetched(0, fetched), CaptureAsked(0, answer), Refetched(0, refetched), PaymentConfirmed(0));
            && (!matching || p.status !in {GwAuthorized, GwCaptured} ==> n == Done(w))
            && (matching && p.status == GwCaptured ==> n == Done(w.(db := CapturePayment(w.db, f.order, f.pid).0)))
            && (matching && p.status == GwAuthorized && answer.CaptureRefused? ==> n == Done(w))
            && (matching && p.status == GwAuthorized && !answer.CaptureRefused? ==>
                  var g := GatewayStatusTo(w, f.pid, GwCaptured);
                  n == Done(if answer.CaptureDone? || refetched then g.(db := CapturePayment(w.db, f.order, f.pid).0) else g))
  {
    var n1 := Follow(Next(w, Some(f)), Fetched(0, fetched));
    var n2 := Follow(n1, CaptureAsked(0, answer));
    var n3 := Follow(n2, Refetched(0, refetched));
    if n1.call.Some? && n1.call.value.CapturingPayment? {
      assert n2 == CaptureStep(w, n1.call.value, answer);
      if n2.call.value.RefetchingPayment? {
        assert n3 == RefetchStep(n2.store, n2.call.value, refetched);
      }
    }
  }

  lemma CancellingEnds(w: Store, k: Call)
    requires k.Cancelling? && k.b in w.db.bookings && w.db.bookings[k.b].status in k.from
    ensures var db := CancelBooking(w.db, k.b, k.from, k.fee).0;
            var amount := w.db.bookings[k.b].total - k.fee;
            var n := Follow(Follow(Follow(Next(w, Some(k)), CancelWritten(0)), RefundClaimed(0)), RefundScheduled(0));
            n == if amount <= 0 || !ClaimRefund(db, k.b, amount).1 then Done(w.(db := db))
                 else ScheduleStep(w.(db := ClaimRefund(db, k.b, amount).0), k.b)
  {
    var n1 := Follow(Next(w, Some(k)), CancelWritten(0));
    assert n1 == CancelStep(w, k.b, k.from, k.fee);
    var n2 := Follow(n1, RefundClaimed(0));
    if n1.call.Some? { assert n2 == ClaimStep(n1.store, k.b, n1.call.value.amount); }
  }

  lemma StoringEnds(w: Store, k: Call)
    requires k.StoringRefund? && k.b in w.db.payments
    ensures var stored := StoreRefundId(w.db, k.b, k.rid);
            Follow(Follow(Next(w, Some(k)), RefundStored(0)), RefundMarked(0))
            == Finish(w.(db := if k.processed then MarkRefunded(stored, k.b) else stored), k.b, 0)
  {
    var n := Follow(Next(w, Some(k)), RefundStored(0));
    assert n == StoreRefundStep(w, k.b, k.rid, k.processed, 0);
  }

  lemma AskingEnds(w: Store, k: Call, reply: RefundAnswer)
    requires k.AskingRefund? && k.b in w.db.payments
    ensures var n := Follow(Follow(Follow(Next(w, Some(k)), RefundAsked(0, reply)), RefundStored(0)), RefundMarked(0));
            if reply.RefundRefused? || k.pid !in w.gateway || !RefundFits(w.gateway[k.pid], k.amount) then n == Fail(w, k.b, 0)
            else
              var asked := w.(gateway := w.gateway[k.pid := AcceptRefund(w.gateway[k.pid], Refund(reply.rid, k.amount))]);
              if reply.LostRefund? then n == Fail(asked, k.b, 0)
              else
                var stored := StoreRefundId(w.db, k.b, reply.rid);
                n == Finish(asked.(db := if reply.processed then MarkRefunded(stored, k.b) else stored), k.b, 0)
  {
    var n1 := Follow(Next(w, Some(k)), RefundAsked(0, reply));
    assert n1 == RefundStep(w, k.b, k.pid, k.amount, reply, 0);
    if n1.call.Some? {
      StoringEnds(n1.store, n1.call.value);
    } else {
      ReturnedCallsRest(n1.store, RefundStored(0));
      ReturnedCallsRest(n1.store, RefundMarked(0));
    }
  }

  class Backend {
    var bookings: map<BookingId, Booking>
    var payments: map<BookingId, Payment>
    var orders: map<OrderId, BookingId>
    var issued: set<OrderId>
    var gateway: map<PaymentId, GatewayPayment>
    var jobs: map<BookingId, Job>

    function Tables(): Db
      reads this
    {
      Db(bookings, payments, orders)
    }

    function World(): Store
      reads this
    {
      Store(Tables(), issued, gateway, jobs)
    }

    constructor ()
      ensures World() == EMPTY.store
    {
      bookings, payments, orders, issued, gateway, jobs := map[], map[], map[], {}, map[], map[];
    }

    // ── the repositories: one conditional statement each ──

    method CancelBookingRow(id: BookingId, from: set<Status>, fee: int) returns (cancelled: bool)
      modifies this`bookings
      ensures (Tables(), cancelled) == CancelBooking(old(Tables()), id, from, fee)
    {
      cancelled := id in bookings && bookings[id].status in from;
      if cancelled {
        bookings := bookings[id := bookings[id].(status := Cancelled, fee := fee)];
      }
    }

    method CreatePayment(id: BookingId, amount: int, order: OrderId)
      modifies this`payments, this`orders
      ensures Tables() == InsertPayment(old(Tables()), id, amount, order)
    {
      payments := payments[id := Payment(Created, amount, order, None, None, None)];
      orders := orders[order := id];
    }

    method Capture(order: OrderId, pid: PaymentId) returns (captured: bool)
      modifies this`payments, this`bookings
      ensures (Tables(), captured) == CapturePayment(old(Tables()), order, pid)
    {
      captured := order in orders && orders[order] in payments && payments[orders[order]].status == Created;
      if captured {
        var id := orders[order];
        payments := payments[id := payments[id].(status := Captured, paymentId := Some(pid))];
        if id in bookings && bookings[id].status == AwaitingPayment {
          bookings := bookings[id := bookings[id].(status := Pending)];
        }
      }
    }

    method StartRefund(id: BookingId, amount: int) returns (claimed: bool)
      modifies this`payments
      ensures (Tables(), claimed) == ClaimRefund(old(Tables()), id, amount)
    {
      claimed := id in payments && payments[id].status == Captured;
      if claimed {
        payments := payments[id := payments[id].(status := RefundPending, refundAmount := Some(amount))];
      }
    }

    method SetRefundId(id: BookingId, rid: RefundId)
      requires id in payments
      modifies this`payments
      ensures Tables() == StoreRefundId(old(Tables()), id, rid)
    {
      payments := payments[id := payments[id].(refundId := Some(rid))];
    }

    method MarkRefundedRow(id: BookingId)
      modifies this`payments
      ensures Tables() == MarkRefunded(old(Tables()), id)
    {
      if id in payments && payments[id].status == RefundPending {
        payments := payments[id := payments[id].(status := Refunded)];
      }
      assert old(id in payments && payments[id].status != RefundPending) ==>
          payments == payments[id := payments[id]];
    }

    /** The refund.processed webhook: every waiting row with this refund id is settled. */
    method HandleRefundProcessed(rid: RefundId)
      modifies this`payments
      ensures World() == Step(Alone(Done(old(World()))), RefundWebhook(rid)).store
    {
      payments := map id | id in payments ::
          if payments[id].refundId == Some(rid) && payments[id].status == RefundPending
          then payments[id].(status := Refunded) else payments[id];
    }

    // ── booking ──

    /** Stores the booking and opens its checkout; a checkout that fails closes the booking again. */
    method Book(id: BookingId, user: UserId, total: int, now: int, made: Option<OrderId>, stored: bool)
      returns (r: Result<Option<OrderId>, Refusal>)
      requires id !in bookings && (made.Some? ==> made.value !in issued)
      modifies this
      ensures Done(World()) == FollowAll(Done(old(World())),
                PaymentProtocol.Book(0, id, user, total, now), OrderOpened(0, made), PaymentStored(0, stored), BookingClosed(0))
      ensures r.Err? <==> total > 0 && (made.None? || !stored)
      ensures r.Ok? ==> r.value == if total > 0 then made else None
    {
      var online := total > 0;
      bookings := bookings[id := Booking(user, total, now, if online then AwaitingPayment else Pending, 0)];
      if !online { return Ok(None); }
      if made.Some? {
        issued := issued + {made.value};
        if stored {
          CreatePayment(id, total, made.value);
          return Ok(made);
        }
      }
      var _ := CancelBookingRow(id, {AwaitingPayment}, 0);
      return Err(Upstream);
    }

    // ── settling a payment ──

    /** Asks the gateway to capture; when that fails, reads again and takes a capture that has happened. */
    method CaptureOnce(pid: PaymentId, amount: int, answer: CaptureAnswer, refetched: bool)
      returns (captured: bool)
      requires pid in gateway
      modifies this`gateway
      ensures gateway == if answer.CaptureRefused? || !CanCapture(old(World()), pid, amount) then old(gateway)
                         else GatewayStatusTo(old(World()), pid, GwCaptured).gateway
      ensures captured <==> (answer.CaptureDone? && CanCapture(old(World()), pid, amount))
                            || (refetched && gateway[pid].status == GwCaptured)
    {
      var p := gateway[pid];
      if !answer.CaptureRefused? && p.status == GwAuthorized && p.amount == amount {
        gateway := gateway[pid := p.(status := GwCaptured)];
        if answer.CaptureDone? { return true; }
      }
      captured := refetched && gateway[pid].status == GwCaptured;
    }

    /** From a CREATED row on: fetch and compare, capture or re-read if need be, then write both rows. */
    method Settle(id: BookingId, row: Payment, pid: PaymentId, fetched: bool, answer: CaptureAnswer, refetched: bool)
      returns (r: Result<bool, Refusal>)
      requires id in payments && row == payments[id]
      modifies this
      ensures Done(World()) == FollowAll(SettleStep(old(World()), id, pid),
                Fetched(0, fetched), CaptureAsked(0, answer), Refetched(0, refetched), PaymentConfirmed(0))
      ensures r.Err? ==> Tables() == old(Tables())
      ensures r == Ok(true) ==>
                && old(payments)[id].status == Created && pid in gateway && gateway[pid].status == GwCaptured
                && gateway[pid].order == row.order && gateway[pid].amount == row.amount && gateway[pid].inr
    {
      if row.status != Created { return Ok(false); }
      if pid in gateway {
        SettlingEnds(World(), FetchingPayment(id, row.order, row.amount, pid), fetched, answer, refetched);
      }
      if !fetched || pid !in gateway { return Err(Upstream); }
      var paid := gateway[pid];
      if paid.order != row.order || paid.amount != row.amount || !paid.inr { return Err(Mismatch); }
      var captured := paid.status == GwCaptured;
      if paid.status == GwAuthorized {
        captured := CaptureOnce(pid, row.amount, answer, refetched);
      }
      if !captured { return Err(NotCompleted); }
      var confirmed := Capture(row.order, pid);
      return Ok(confirmed);
    }

    // ── cancelling and refunding ──

    /** Claims the amount on the payment row and queues the job; no change when it is not positive or not claimable. */
    method Refund(id: BookingId, amount: int)
      modifies this`payments, this`jobs
      ensures if amount <= 0 || !ClaimRefund(old(Tables()), id, amount).1 then World() == old(World())
              else World() == ScheduleStep(old(World()).(db := ClaimRefund(old(Tables()), id, amount).0), id).store
    {
      if amount <= 0 { return; }
      var claimed := StartRefund(id, amount);
      if claimed && id !in jobs {
        jobs := jobs[id := NEW_JOB];
      }
    }

    method CustomerCancels(user: UserId, id: BookingId, now: int) returns (r: Result<bool, Refusal>)
      modifies this
      ensures Done(World()) == FollowAll(Done(old(World())),
                CustomerCancel(0, user, id, now), CancelWritten(0), RefundClaimed(0), RefundScheduled(0))
      ensures r.Err? ==> World() == old(World())
      ensures r.Ok? <==> && id in old(bookings) && old(bookings)[id].user == user
                         && old(bookings)[id].status in {Pending, Confirmed}
      ensures r.Ok? ==>
                && bookings.Keys == old(bookings).Keys && bookings[id].status == Cancelled
                && bookings == old(bookings)[id := old(bookings)[id].(status := Cancelled, fee := bookings[id].fee)]
                && (now - bookings[id].createdAt <= 7_200_000 ==> bookings[id].fee == 0)
                && (now - bookings[id].createdAt > 7_200_000 ==> -5 <= bookings[id].total - 10 * bookings[id].fee < 5)
      ensures r.Ok? && id in old(payments) && old(payments)[id].status == Captured && bookings[id].total > 0 ==>
                && payments == old(payments)[id := old(payments)[id].(
                     status := RefundPending, refundAmount := Some(bookings[id].total - bookings[id].fee))]
                && id in jobs
    {
      if id !in bookings || bookings[id].user != user { return Err(NotFound); }
      var booking := bookings[id];
      if booking.status !in CUSTOMER_CANCELLABLE { return Err(InvalidTransition); }
      var fee := PricingRules.CancellationFee(booking.total, booking.createdAt, now);
      CancellingEnds(World(), Cancelling(id, CUSTOMER_CANCELLABLE, fee));
      var cancelled := CancelBookingRow(id, CUSTOMER_CANCELLABLE, fee);
      if !cancelled { return Err(InvalidTransition); }
      Refund(id, booking.total - fee);
      return Ok(true);
    }

    /** The company's side of the same: only from the status it just read, and always in full. */
    method CompanyCancels(id: BookingId) returns (r: Result<bool, Refusal>)
      modifies this
      ensures Done(World()) == FollowAll(Done(old(World())),
                CompanyCancel(0, id), CancelWritten(0), RefundClaimed(0), RefundScheduled(0))
      ensures r.Err? ==> World() == old(World())
      ensures r.Ok? <==> id in old(bookings) && old(bookings)[id].status in {Pending, Confirmed}
      ensures r.Ok? ==> bookings == old(bookings)[id := old(bookings)[id].(status := Cancelled, fee := 0)]
      ensures r.Ok? && id in old(payments) && old(payments)[id].status == Captured && bookings[id].total > 0 ==>
                && payments == old(payments)[id := old(payments)[id].(
                     status := RefundPending, refundAmount := Some(bookings[id].total))]
                && id in jobs
    {
      if id !in bookings { return Err(NotFound); }
      var booking := bookings[id];
      assert Cancelled in AdminTransitions(booking.status) <==> booking.status in {Pending, Confirmed};
      if Cancelled !in AdminTransitions(booking.status) { return Err(InvalidTransition); }
      CancellingEnds(World(), Cancelling(id, {booking.status}, 0));
      var cancelled := CancelBookingRow(id, {booking.status}, 0);
      if !cancelled { return Err(InvalidTransition); }
      Refund(id, booking.total);
      return Ok(true);
    }

    /** Asks the gateway for a claimed refund, stores its id, and settles it if it is processed already. */
    method AskAndStore(id: BookingId, pid: PaymentId, amount: int, reply: RefundAnswer) returns (r: Result<bool, Refusal>)
      requires id in payments && Holds(World(), id, 0)
      modifies this`payments, this`gateway, this`jobs
      ensures Done(World()) ==
              Follow(Follow(Follow(Next(old(World()), Some(AskingRefund(id, pid, amount))),
                RefundAsked(0, reply)), RefundStored(0)), RefundMarked(0))
      ensures r.Err? ==> Tables() == old(Tables())
    {
      AskingEnds(World(), AskingRefund(id, pid, amount), reply);
      var job := jobs[id];
      if reply.RefundRefused? || pid !in gateway || !RefundFits(gateway[pid], amount) {
        jobs := jobs[id := job.(failures := job.failures + 1, holder := None)];
        return Err(Upstream);
      }
      gateway := gateway[pid := AcceptRefund(gateway[pid], PaymentProtocol.Refund.Refund(reply.rid, amount))];
      if reply.LostRefund? {
        jobs := jobs[id := job.(failures := job.failures + 1, holder := None)];
        return Err(Upstream);
      }
      SetRefundId(id, reply.rid);
      if reply.processed {
        MarkRefundedRow(id);
      }
      jobs := jobs[id := job.(finished := true, holder := None)];
      return Ok(true);
    }

    /** One attempt of the refund job: only a claimed refund that has no id yet goes to the gateway. */
    method Process(id: BookingId, reply: RefundAnswer) returns (r: Result<bool, Refusal>)
      requires JobReady(World(), id)
      modifies this
      ensures Done(World()) == FollowAll(Done(old(World())),
                WorkerStarted(0, id), RefundAsked(0, reply), RefundStored(0), RefundMarked(0))
      ensures r.Err? ==> Tables() == old(Tables())
    {
      var job := jobs[id];
      jobs := jobs[id := job.(holder := Some(0))];
      if id !in payments || payments[id].status != RefundPending || payments[id].refundId.Some?
         || payments[id].paymentId.None? || payments[id].refundAmount.None?
      {
        jobs := jobs[id := job.(finished := true, holder := None)];
        return Ok(false);
      }
      r := AskAndStore(id, payments[id].paymentId.value, payments[id].refundAmount.value, reply);
    }
  }
}
