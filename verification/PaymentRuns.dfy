/** What the payment protocol promises over whole runs, under every interleaving and crash. */
module PaymentRuns {
  import opened Common
  import opened BookingStatus
  import opened PaymentProtocol
  import opened PaymentSafety
  import PricingRules

  // ── in every reachable state ──

  lemma ReachableRows(es: seq<Event>, b: BookingId)
    ensures var w := Run(EMPTY, es).store;
            && RowsOk(w, b)
            && (b in w.db.payments && w.db.payments[b].paymentId.Some? ==>
                  w.db.payments[b].paymentId.value in w.gateway && GatewayOk(w, w.db.payments[b].paymentId.value))
  {
    Reachable(es);
    RowsOkAt(Run(EMPTY, es).store, b);
  }

  /** The joint life of a booking and its payment row. */
  predicate JointTable(w: Store, b: BookingId)
    requires b in w.db.bookings
  {
    var k := w.db.bookings[b];
    match k.status
    case AwaitingPayment => k.total > 0 && (b in w.db.payments ==> w.db.payments[b].status == Created)
    case Cancelled =>
      b in w.db.payments ==>
        && w.db.payments[b].status != Created
        && w.db.payments[b].amount == k.total
        && (Claimed(w.db.payments[b]) ==> w.db.payments[b].refundAmount == Some(k.total - k.fee))
    case _ =>
      && k.fee == 0
      && (k.total > 0 <==> b in w.db.payments)
      && (b in w.db.payments ==> w.db.payments[b].status == Captured && w.db.payments[b].amount == k.total)
  }

  lemma JointTableHolds(es: seq<Event>, b: BookingId)
    requires b in Run(EMPTY, es).store.db.bookings
    ensures JointTable(Run(EMPTY, es).store, b)
  {
    ReachableRows(es, b);
    RowsGiveTable(Run(EMPTY, es).store, b);
  }

  lemma RowsGiveTable(w: Store, b: BookingId)
    requires b in w.db.bookings && RowsOk(w, b)
    ensures JointTable(w, b)
  {
  }

  /** A job that waits for a professional, is under way or is done has been paid for and not refunded. */
  lemma WorkedJobsArePaid(es: seq<Event>, b: BookingId)
    requires var w := Run(EMPTY, es).store;
             b in w.db.bookings && w.db.bookings[b].status in WORKED && w.db.bookings[b].total > 0
    ensures var w := Run(EMPTY, es).store;
            && b in w.db.payments && w.db.payments[b].paymentId.Some?
            && var pid := w.db.payments[b].paymentId.value;
            && pid in w.gateway
            && w.gateway[pid].status == GwCaptured && w.gateway[pid].inr && w.gateway[pid].refunds == []
            && w.gateway[pid].order == w.db.payments[b].order
            && w.gateway[pid].amount == w.db.bookings[b].total
  {
    ReachableRows(es, b);
  }

  /**
   The gateway accepts at most one refund per booking, whichever of its
   payments it is asked about, and only of a cancelled booking's total less
   the fee: over every run, with workers retried, doubled up and killed between
   the gateway's answer and the stored refund id.
   */
  lemma AtMostOneRefund(es: seq<Event>, p: PaymentId, q: PaymentId)
    requires var g := Run(EMPTY, es).store.gateway;
             p in g && q in g && g[p].refunds != [] && g[q].refunds != []
    ensures var w := Run(EMPTY, es).store;
            && w.gateway[p].order in w.db.orders && w.gateway[q].order in w.db.orders
            && (w.db.orders[w.gateway[p].order] == w.db.orders[w.gateway[q].order] ==> p == q)
            && |w.gateway[p].refunds| == 1
            && var b := w.db.orders[w.gateway[p].order];
            && b in w.db.bookings && w.db.bookings[b].status == Cancelled
            && w.gateway[p].refunds[0].amount == w.db.bookings[b].total - w.db.bookings[b].fee
  {
    Reachable(es);
    var w := Run(EMPTY, es).store;
    assert GatewayOk(w, p) && GatewayOk(w, q);
    assert RowOk(w, w.db.orders[w.gateway[p].order]);
  }

  /** A row says REFUNDED only when the gateway has accepted exactly what the fee leaves of the total. */
  lemma RefundedMeansRefunded(es: seq<Event>, b: BookingId)
    requires var w := Run(EMPTY, es).store; b in w.db.payments && w.db.payments[b].status == Refunded
    ensures var w := Run(EMPTY, es).store;
            && b in w.db.bookings && w.db.bookings[b].status == Cancelled
            && w.db.payments[b].paymentId.Some? && w.db.payments[b].refundId.Some?
            && w.db.payments[b].paymentId.value in w.gateway
            && w.gateway[w.db.payments[b].paymentId.value].refunds
               == [Refund(w.db.payments[b].refundId.value, w.db.bookings[b].total - w.db.bookings[b].fee)]
  {
    ReachableRows(es, b);
  }

  // ── who writes what ──

  predicate Continues(s: Sys, e: Event) {
    !Begins(e) && !Outside(e) && !e.Crash? && e.c in s.calls && Awaits(s.calls[e.c], e)
  }

  lemma StoreAfter(s: Sys, e: Event)
    ensures Step(s, e).store ==
            if Continues(s, e) then Continue(s.store, s.calls[e.c], e).store
            else if Begins(e) && e.c !in s.calls then Begin(s.store, e).store
            else if Outside(e) then Environment(s.store, e)
            else s.store
  {
  }

  predicate SamePayment(w: Store, v: Store, b: BookingId) {
    (b in v.db.payments <==> b in w.db.payments) && (b in w.db.payments ==> v.db.payments[b] == w.db.payments[b])
  }

  /** A payment row is written by its own booking's calls, at five of their awaits. */
  predicate WritesPayment(w: Store, k: Call, e: Event, b: BookingId) {
    || ((e.PaymentStored? || e.RefundClaimed? || e.RefundStored? || e.RefundMarked?) && k.b == b)
    || (e.PaymentConfirmed? && k.ConfirmingPayment? && k.order in w.db.orders && w.db.orders[k.order] == b)
  }

  lemma ContinueWritesPayment(w: Store, k: Call, e: Event, b: BookingId)
    requires Awaits(k, e) && !WritesPayment(w, k, e, b)
    ensures SamePayment(w, Continue(w, k, e).store, b)
  {
  }

  lemma BeginWritesNoPayment(w: Store, e: Event, b: BookingId)
    requires Begins(e)
    ensures SamePayment(w, Begin(w, e).store, b)
  {
  }

  /** The webhook is the only outside event that writes one, and only settles it. */
  lemma OutsideSettles(w: Store, e: Event, b: BookingId)
    requires Outside(e)
    ensures SamePayment(w, Environment(w, e), b)
            || (e.RefundWebhook? && b in w.db.payments && w.db.payments[b].refundId.Some?
                && b in Environment(w, e).db.payments
                && Environment(w, e).db.payments[b] == Settled(w.db.payments[b]))
  {
  }

  lemma PaymentWriter(s: Sys, e: Event, b: BookingId)
    requires !SamePayment(s.store, Step(s, e).store, b)
    ensures (Continues(s, e) && WritesPayment(s.store, s.calls[e.c], e, b))
            || (e.RefundWebhook? && b in s.store.db.payments && s.store.db.payments[b].refundId.Some?
                && b in Step(s, e).store.db.payments
                && Step(s, e).store.db.payments[b] == Settled(s.store.db.payments[b]))
  {
    StoreAfter(s, e);
    if Continues(s, e) {
      if !WritesPayment(s.store, s.calls[e.c], e, b) { ContinueWritesPayment(s.store, s.calls[e.c], e, b); }
    } else if Begins(e) && e.c !in s.calls {
      BeginWritesNoPayment(s.store, e, b);
    } else if Outside(e) {
      OutsideSettles(s.store, e, b);
    }
  }

  /** Only a cancel that lands, or a booking closing, makes a booking cancelled. */
  lemma CancelledBy(s: Sys, e: Event, b: BookingId)
    requires b in s.store.db.bookings ==> s.store.db.bookings[b].status != Cancelled
    requires b in Step(s, e).store.db.bookings && Step(s, e).store.db.bookings[b].status == Cancelled
    ensures b in s.store.db.bookings && Continues(s, e) && s.calls[e.c].b == b
    ensures (e.CancelWritten? && s.store.db.bookings[b].status in s.calls[e.c].from)
            || (e.BookingClosed? && s.store.db.bookings[b].status == AwaitingPayment)
  {
    StoreAfter(s, e);
    if Continues(s, e) { CancelledByContinue(s.store, s.calls[e.c], e, b); }
  }

  lemma CancelledByContinue(w: Store, k: Call, e: Event, b: BookingId)
    requires b in w.db.bookings ==> w.db.bookings[b].status != Cancelled
    requires Awaits(k, e)
    requires b in Continue(w, k, e).store.db.bookings && Continue(w, k, e).store.db.bookings[b].status == Cancelled
    ensures b in w.db.bookings && k.b == b
    ensures (e.CancelWritten? && w.db.bookings[b].status in k.from)
            || (e.BookingClosed? && w.db.bookings[b].status == AwaitingPayment)
  {
  }

  // ── along a run ──

  lemma GrowsTransitive(u: Store, v: Store, w: Store)
    requires Grows(u, v) && Grows(v, w)
    ensures Grows(u, w)
  {
    forall b ensures BookingGrows(u, w, b) { assert BookingGrows(u, v, b) && BookingGrows(v, w, b); }
    forall b ensures RowGrows(u, w, b) { assert RowGrows(u, v, b) && RowGrows(v, w, b); }
    forall p ensures GatewayGrows(u, w, p) { assert GatewayGrows(u, v, p) && GatewayGrows(v, w, p); }
  }

  lemma {:induction false} RunGrows(s: Sys, es: seq<Event>)
    requires Inv(s)
    ensures Grows(s.store, Run(s, es).store)
  {
    if es != [] {
      var before := es[..|es| - 1];
      RunGrows(s, before);
      RunKeeps(s, before);
      StepKeeps(Run(s, before), es[|es| - 1]);
      GrowsTransitive(s.store, Run(s, before).store, Run(s, es).store);
    }
  }

  /** How often the row of [b] left CREATED along the run. */
  ghost function Confirmations(es: seq<Event>, b: BookingId): nat {
    if es == [] then 0
    else Confirmations(es[..|es| - 1], b) +
         (if LeavesCreated(Run(EMPTY, es[..|es| - 1]).store, Run(EMPTY, es).store, b) then 1 else 0)
  }

  predicate LeavesCreated(w: Store, v: Store, b: BookingId) {
    && b in w.db.payments && w.db.payments[b].status == Created
    && b in v.db.payments && v.db.payments[b].status != Created
  }

  /** However many verify calls and duplicate webhooks race, a payment is confirmed once. */
  lemma {:induction false} ConfirmedOnce(es: seq<Event>, b: BookingId)
    ensures var w := Run(EMPTY, es).store;
            Confirmations(es, b) == if b in w.db.payments && w.db.payments[b].status != Created then 1 else 0
  {
    if es != [] {
      var before := es[..|es| - 1];
      ConfirmedOnce(before, b);
      Reachable(before);
      var s, e := Run(EMPTY, before), es[|es| - 1];
      StepKeeps(s, e);
      assert RowGrows(s.store, Step(s, e).store, b);
      if b !in s.store.db.payments && b in Step(s, e).store.db.payments { NewRowsAreCreated(s, e, b); }
    }
  }

  lemma NewRowsAreCreated(s: Sys, e: Event, b: BookingId)
    requires b !in s.store.db.payments && b in Step(s, e).store.db.payments
    ensures Step(s, e).store.db.payments[b].status == Created
  {
    PaymentWriter(s, e, b);
    StoreAfter(s, e);
  }

  /** Confirming is the work of a call that saw the gateway capture this row's exact order and amount. */
  lemma OnlyPaidPaymentsAreConfirmed(es: seq<Event>, e: Event, b: BookingId)
    requires var s := Run(EMPTY, es); LeavesCreated(s.store, Step(s, e).store, b)
    ensures var s := Run(EMPTY, es);
            && e.PaymentConfirmed? && e.c in s.calls && s.calls[e.c].ConfirmingPayment?
            && s.calls[e.c].b == b
            && PaidFor(s.store, s.store.db.payments[b], s.calls[e.c].pid)
            && Step(s, e).store.db.payments[b].paymentId == Some(s.calls[e.c].pid)
            && b in Step(s, e).store.db.bookings && Step(s, e).store.db.bookings[b].status == Pending
  {
    Reachable(es);
    var s := Run(EMPTY, es);
    OnlyConfirmLeavesCreated(s, e, b);
    assert CallOk(s.store, s.calls[e.c]);
    ReachableRows(es, s.calls[e.c].b);
    ReachableRows(es, b);
  }

  lemma OnlyConfirmLeavesCreated(s: Sys, e: Event, b: BookingId)
    requires LeavesCreated(s.store, Step(s, e).store, b)
    ensures e.PaymentConfirmed? && e.c in s.calls && s.calls[e.c].ConfirmingPayment?
    ensures s.calls[e.c].order in s.store.db.orders && s.store.db.orders[s.calls[e.c].order] == b
  {
    PaymentWriter(s, e, b);
    StoreAfter(s, e);
  }

  // ── a company's cancel refunds in full ──

  /**
   However long the company's cancel waits before its compare-and-set, and
   whatever happens after it, a cancel that lands keeps no fee, and any refund
   claimed for the booking, then or later, is its whole total.
   */
  lemma CompanyCancelRefundsInFull(es: seq<Event>, c: CallId, b: BookingId, between: seq<Event>, after: seq<Event>)
    requires c !in Run(EMPTY, es).calls
    requires var s1 := Step(Run(EMPTY, es), CompanyCancel(c, b));
             var s2 := Run(s1, between);
             && c in s1.calls && c in s2.calls && s2.calls[c] == s1.calls[c]
             && b in s2.store.db.bookings && s2.store.db.bookings[b].status in s2.calls[c].from
    ensures var s3 := Step(Run(Step(Run(EMPTY, es), CompanyCancel(c, b)), between), CancelWritten(c));
            var w := Run(s3, after).store;
            && b in w.db.bookings && w.db.bookings[b].status == Cancelled && w.db.bookings[b].fee == 0
            && (b in w.db.payments && Claimed(w.db.payments[b]) ==>
                  w.db.payments[b].refundAmount == Some(w.db.bookings[b].total))
  {
    var s0 := Run(EMPTY, es);
    var s1 := Step(s0, CompanyCancel(c, b));
    var s2 := Run(s1, between);
    var s3 := Step(s2, CancelWritten(c));
    assert Inv(s3) by {
      Reachable(es);
      StepKeeps(s0, CompanyCancel(c, b));
      RunKeeps(s1, between);
      StepKeeps(s2, CancelWritten(c));
    }
    CancelLands(s0, s2, c, b);
    assert BookingGrows(s3.store, Run(s3, after).store, b) by { RunGrows(s3, after); }
    assert RowsOk(Run(s3, after).store, b) by { RunKeeps(s3, after); RowsOkAt(Run(s3, after).store, b); }
  }

  lemma CancelLands(s0: Sys, s2: Sys, c: CallId, b: BookingId)
    requires c !in s0.calls && c in Step(s0, CompanyCancel(c, b)).calls
    requires c in s2.calls && s2.calls[c] == Step(s0, CompanyCancel(c, b)).calls[c]
    requires b in s2.store.db.bookings && s2.store.db.bookings[b].status in s2.calls[c].from
    ensures var w := Step(s2, CancelWritten(c)).store;
            b in w.db.bookings && w.db.bookings[b].status == Cancelled && w.db.bookings[b].fee == 0
  {
  }

  // ── every move is one the workflow allows ──

  predicate Edge(from: Status, to: Status) {
    || (from == AwaitingPayment && (to == Pending || to == Cancelled))
    || (from == Pending && (to == Confirmed || to == Cancelled))
    || (from == Confirmed && (to == InProgress || to == Cancelled))
    || (from == InProgress && to == Completed)
  }

  /** A booking starts waiting for its payment unless it is free, and then moves along the workflow's edges. */
  lemma BookingsFollowEdges(es: seq<Event>, e: Event, b: BookingId)
    requires b in Step(Run(EMPTY, es), e).store.db.bookings
    ensures MovesWell(Run(EMPTY, es).store, Step(Run(EMPTY, es), e).store, b)
  {
    Reachable(es);
    StepFollowsEdges(Run(EMPTY, es), e, b);
  }

  /** A status change along an edge, or a row freshly booked. */
  predicate MovesWell(w: Store, v: Store, b: BookingId) {
    b in v.db.bookings ==>
      var now := v.db.bookings[b];
      if b in w.db.bookings
      then now.status == w.db.bookings[b].status || Edge(w.db.bookings[b].status, now.status)
      else now.status == (if now.total > 0 then AwaitingPayment else Pending) && now.fee == 0
  }

  /** A call in flight writes bookings at three of its awaits. */
  predicate WritesBooking(e: Event) {
    e.BookingClosed? || e.PaymentConfirmed? || e.CancelWritten?
  }

  lemma ContinueWritesBooking(w: Store, k: Call, e: Event)
    requires Awaits(k, e) && !WritesBooking(e)
    ensures Continue(w, k, e).store.db.bookings == w.db.bookings
  {
  }

  lemma WriteFollowsEdges(w: Store, k: Call, e: Event, b: BookingId)
    requires Awaits(k, e) && WritesBooking(e) && CallOk(w, k)
    ensures MovesWell(w, Continue(w, k, e).store, b)
  {
  }

  lemma ContinueFollowsEdges(w: Store, k: Call, e: Event, b: BookingId)
    requires Awaits(k, e) && CallOk(w, k)
    ensures MovesWell(w, Continue(w, k, e).store, b)
  {
    if WritesBooking(e) { WriteFollowsEdges(w, k, e, b); } else { ContinueWritesBooking(w, k, e); }
  }

  lemma StepFollowsEdges(s: Sys, e: Event, b: BookingId)
    requires !Begins(e) && !Outside(e) && e.c in s.calls ==> CallOk(s.store, s.calls[e.c])
    ensures MovesWell(s.store, Step(s, e).store, b)
  {
    if Begins(e) {
    } else if Outside(e) {
    } else if e.c in s.calls && !e.Crash? && Awaits(s.calls[e.c], e) {
      ContinueFollowsEdges(s.store, s.calls[e.c], e, b);
    }
  }

  // ── the protocol can finish ──

  /** A booking whose money the gateway holds is confirmed by one webhook delivery. */
  lemma PaymentCanBeConfirmed(es: seq<Event>, b: BookingId, pid: PaymentId, c: CallId)
    requires var s := Run(EMPTY, es);
             && b in s.store.db.payments && s.store.db.payments[b].status == Created && c !in s.calls
             && PaidFor(s.store, s.store.db.payments[b], pid) && s.store.gateway[pid].status == GwCaptured
    ensures var s := Run(EMPTY, es);
            var t := Step(Step(Step(s, PaymentWebhook(c, s.store.db.payments[b].order, pid)), Fetched(c, true)),
                          PaymentConfirmed(c));
            && b in s.store.db.bookings && b in t.store.db.bookings && b in t.store.db.payments
            && t.calls == s.calls
            && t.store.db.payments[b].status == Captured
            && t.store.db.bookings[b] == s.store.db.bookings[b].(status := Pending)
  {
    ReachableRows(es, b);
    ConfirmPath(Run(EMPTY, es), b, pid, c);
  }

  lemma ConfirmPath(s: Sys, b: BookingId, pid: PaymentId, c: CallId)
    requires b in s.store.db.payments && s.store.db.payments[b].order in s.store.db.orders
    requires s.store.db.orders[s.store.db.payments[b].order] == b
    requires s.store.db.payments[b].status == Created && c !in s.calls
    requires PaidFor(s.store, s.store.db.payments[b], pid) && s.store.gateway[pid].status == GwCaptured
    ensures var t := Step(Step(Step(s, PaymentWebhook(c, s.store.db.payments[b].order, pid)), Fetched(c, true)),
                          PaymentConfirmed(c));
            && t.calls == s.calls
            && t.store.db == CapturePayment(s.store.db, s.store.db.payments[b].order, pid).0
  {
    var row := s.store.db.payments[b];
    var s1 := Step(s, PaymentWebhook(c, row.order, pid));
    assert s1.store == s.store && s1.calls == s.calls[c := FetchingPayment(b, row.order, row.amount, pid)];
    var s2 := Step(s1, Fetched(c, true));
    assert s2.store == s.store && s2.calls == s.calls[c := ConfirmingPayment(b, row.order, pid)];
  }

  /** The gateway has accepted a refund of the payment that confirmed booking [b]. */
  predicate Accepted(w: Store, b: BookingId) {
    && b in w.db.payments && w.db.payments[b].paymentId.Some?
    && w.db.payments[b].paymentId.value in w.gateway
    && w.gateway[w.db.payments[b].paymentId.value].refunds != []
  }

  /** A cancelled booking whose customer has paid and got nothing back. */
  predicate Unrefunded(w: Store, b: BookingId) {
    && b in w.db.bookings && w.db.bookings[b].status == Cancelled
    && b in w.db.payments && !Accepted(w, b)
  }

  /** An unrefunded row has been confirmed, and the gateway still holds all of it. */
  lemma UnrefundedRow(s: Sys, b: BookingId)
    requires Inv(s) && Unrefunded(s.store, b)
    ensures var w := s.store;
            && RowsOk(w, b) && w.db.payments[b].paymentId.Some?
            && w.db.payments[b].status in {Captured, RefundPending} && w.db.payments[b].refundId.None?
            && w.db.payments[b].paymentId.value in w.gateway
            && w.gateway[w.db.payments[b].paymentId.value].status == GwCaptured
  {
    RowsOkAt(s.store, b);
    assert GatewayOk(s.store, s.store.db.payments[b].paymentId.value);
  }

  /** A refund that has not been accepted, and whose job is ready, reaches REFUNDED when the gateway accepts and processes it. */
  lemma RefundCanComplete(es: seq<Event>, b: BookingId, c: CallId, rid: RefundId)
    requires var s := Run(EMPTY, es); Unrefunded(s.store, b) && JobReady(s.store, b) && c !in s.calls
    ensures var s := Run(EMPTY, es);
            var asked := Step(Step(s, WorkerStarted(c, b)), RefundAsked(c, RefundDone(rid, true)));
            var t := Step(Step(asked, RefundStored(c)), RefundMarked(c));
            && t.calls == s.calls
            && b in t.store.db.payments && b in t.store.jobs
            && t.store.db.payments[b] == s.store.db.payments[b].(status := Refunded, refundId := Some(rid))
            && t.store.jobs[b].finished
  {
    Reachable(es);
    UnrefundedRow(Run(EMPTY, es), b);
    RefundFitsOnce(Run(EMPTY, es).store, b);
    RefundPath(Run(EMPTY, es), b, c, rid);
  }

  lemma RefundPath(s: Sys, b: BookingId, c: CallId, rid: RefundId)
    requires Unasked(s.store, b) && JobReady(s.store, b) && c !in s.calls
    requires s.store.db.payments[b].paymentId.Some? && s.store.db.payments[b].refundAmount.Some?
    requires s.store.db.payments[b].paymentId.value in s.store.gateway
    requires RefundFits(s.store.gateway[s.store.db.payments[b].paymentId.value], s.store.db.payments[b].refundAmount.value)
    ensures var asked := Step(Step(s, WorkerStarted(c, b)), RefundAsked(c, RefundDone(rid, true)));
            var t := Step(Step(asked, RefundStored(c)), RefundMarked(c));
            && t.calls == s.calls
            && b in t.store.db.payments && b in t.store.jobs
            && t.store.db.payments[b] == s.store.db.payments[b].(status := Refunded, refundId := Some(rid))
            && t.store.jobs[b].finished
  {
    StartPath(s, b, c);
    var s1 := Step(s, WorkerStarted(c, b));
    AskPath(s1, s1.calls[c], c, rid);
    var asked := Step(s1, RefundAsked(c, RefundDone(rid, true)));
    assert asked.calls == s.calls[c := StoringRefund(b, rid, true)];
    FinishPath(s, asked, b, c, rid);
  }

  lemma StartPath(s: Sys, b: BookingId, c: CallId)
    requires Unasked(s.store, b) && JobReady(s.store, b) && c !in s.calls
    requires s.store.db.payments[b].paymentId.Some? && s.store.db.payments[b].refundAmount.Some?
    ensures var row := s.store.db.payments[b];
            Step(s, WorkerStarted(c, b))
            == Sys(Locked(s.store, b, c), s.calls[c := AskingRefund(b, row.paymentId.value, row.refundAmount.value)])
  {
  }

  lemma AskPath(s: Sys, k: Call, c: CallId, rid: RefundId)
    requires c in s.calls && s.calls[c] == k && k.AskingRefund?
    requires k.pid in s.store.gateway && RefundFits(s.store.gateway[k.pid], k.amount)
    ensures var t := Step(s, RefundAsked(c, RefundDone(rid, true)));
            && t.store.db == s.store.db && t.store.jobs == s.store.jobs
            && t.calls == s.calls[c := StoringRefund(k.b, rid, true)]
  {
  }

  lemma FinishPath(s: Sys, asked: Sys, b: BookingId, c: CallId, rid: RefundId)
    requires Unasked(s.store, b) && c !in s.calls && Holds(asked.store, b, c)
    requires asked.store.db == s.store.db
    requires asked.calls == s.calls[c := StoringRefund(b, rid, true)]
    ensures var t := Step(Step(asked, RefundStored(c)), RefundMarked(c));
            && t.calls == s.calls
            && b in t.store.db.payments && b in t.store.jobs
            && t.store.db.payments[b] == s.store.db.payments[b].(status := Refunded, refundId := Some(rid))
            && t.store.jobs[b].finished
  {
    var s3 := Step(asked, RefundStored(c));
    assert s3.store.jobs == asked.store.jobs && s3.calls == s.calls[c := MarkingRefunded(b)];
  }

  lemma RefundFitsOnce(w: Store, b: BookingId)
    requires RowsOk(w, b) && b in w.db.payments && Claimed(w.db.payments[b])
    requires w.db.payments[b].paymentId.value in w.gateway
    requires w.gateway[w.db.payments[b].paymentId.value].refunds == []
    requires w.gateway[w.db.payments[b].paymentId.value].status == GwCaptured
    ensures RefundFits(w.gateway[w.db.payments[b].paymentId.value], w.db.payments[b].refundAmount.value)
  {
  }

  // ── no refund is lost while nothing crashes ──

  /** A refund is owed to someone: an unclaimed one to its cancel call, an unasked one to the queue. */
  ghost predicate ClaimInFlight(s: Sys, b: BookingId) {
    exists c | c in s.calls :: s.calls[c].ClaimingRefund? && s.calls[c].b == b
  }

  ghost predicate AskInFlight(s: Sys, b: BookingId) {
    || (exists c | c in s.calls :: s.calls[c] == SchedulingRefund(b))
    || (b in s.store.jobs && !s.store.jobs[b].finished)
  }

  predicate Unclaimed(w: Store, b: BookingId) {
    && b in w.db.bookings && w.db.bookings[b].status == Cancelled
    && b in w.db.payments && w.db.payments[b].status == Captured
  }

  predicate Unasked(w: Store, b: BookingId) {
    b in w.db.payments && w.db.payments[b].status == RefundPending && w.db.payments[b].refundId.None?
  }

  ghost predicate Owed(s: Sys, b: BookingId) {
    (Unclaimed(s.store, b) ==> ClaimInFlight(s, b)) && (Unasked(s.store, b) ==> AskInFlight(s, b))
  }

  lemma OtherCallsSurvive(s: Sys, e: Event, c: CallId)
    requires c in s.calls && !e.Crash?
    requires !Begins(e) && !Outside(e) && e.c == c ==> !Awaits(s.calls[c], e)
    ensures c in Step(s, e).calls && Step(s, e).calls[c] == s.calls[c]
  {
  }

  /** A cancel call at its claim always gets it, and goes on to queue the refund. */
  lemma ClaimSucceeds(es: seq<Event>, c: CallId)
    requires c in Run(EMPTY, es).calls && Run(EMPTY, es).calls[c].ClaimingRefund?
    ensures var s := Run(EMPTY, es); var t := Step(s, RefundClaimed(c));
            var b := s.calls[c].b;
            && b in t.store.db.payments && t.store.db.payments[b].status == RefundPending
            && t.store.db.payments[b].refundAmount == Some(s.calls[c].amount)
            && s.calls[c].amount > 0
            && c in t.calls && t.calls[c] == SchedulingRefund(b)
  {
    Reachable(es);
    ClaimStepSucceeds(Run(EMPTY, es), c);
  }

  lemma ClaimStepSucceeds(s: Sys, c: CallId)
    requires CallsOk(s.store, s.calls) && c in s.calls && s.calls[c].ClaimingRefund?
    ensures var t := Step(s, RefundClaimed(c));
            var b := s.calls[c].b;
            && b in t.store.db.payments && t.store.db.payments[b].status == RefundPending
            && t.store.db.payments[b].refundAmount == Some(s.calls[c].amount)
            && s.calls[c].amount > 0
            && c in t.calls && t.calls[c] == SchedulingRefund(b)
  {
    assert RoleOk(s.store, Claimer(s.calls[c].b));
    assert CallOk(s.store, s.calls[c]);
  }

  /** The step that first leaves a refund unclaimed is a cancel, whose call then claims it. */
  lemma NewlyUnclaimed(s: Sys, e: Event, b: BookingId)
    requires RowsOk(s.store, b) && RowsOk(Step(s, e).store, b) && b in s.store.db.bookings
    requires !Unclaimed(s.store, b) && Unclaimed(Step(s, e).store, b)
    ensures e.CancelWritten? && e.c in Step(s, e).calls
    ensures Step(s, e).calls[e.c].ClaimingRefund? && Step(s, e).calls[e.c].b == b
  {
    if s.store.db.bookings[b].status == Cancelled {
      PaymentWriter(s, e, b);
    } else {
      CancelledBy(s, e, b);
      if !SamePayment(s.store, Step(s, e).store, b) { PaymentWriter(s, e, b); }
    }
    StoreAfter(s, e);
  }

  /** The step that first leaves a claimed refund unasked is the claim, whose call then queues it. */
  lemma NewlyUnasked(s: Sys, e: Event, b: BookingId)
    requires RowsOk(s.store, b) && RowsOk(Step(s, e).store, b)
    requires !Unasked(s.store, b) && Unasked(Step(s, e).store, b)
    ensures e.RefundClaimed? && e.c in Step(s, e).calls && Step(s, e).calls[e.c] == SchedulingRefund(b)
  {
    PaymentWriter(s, e, b);
    StoreAfter(s, e);
  }

  /** A job is only finished by a worker that finds or leaves the refund id stored. */
  lemma JobsStay(s: Sys, e: Event, b: BookingId)
    requires b in s.store.jobs && b in Step(s, e).store.jobs && JobOk(Step(s, e).store, b)
    requires Unasked(Step(s, e).store, b)
    ensures !Step(s, e).store.jobs[b].finished
  {
  }

  lemma StepKeepsOwed(s: Sys, e: Event, b: BookingId)
    requires Inv(s) && Owed(s, b) && !e.Crash?
    ensures Owed(Step(s, e), b)
  {
    var t := Step(s, e);
    StepKeeps(s, e);
    RowsOkAt(s.store, b);
    RowsOkAt(t.store, b);
    if Unclaimed(t.store, b) { ClaimStays(s, e, b); }
    if Unasked(t.store, b) { AskStays(s, e, b); }
  }

  lemma ClaimStays(s: Sys, e: Event, b: BookingId)
    requires RowsOk(s.store, b) && RowsOk(Step(s, e).store, b) && CallsOk(s.store, s.calls)
    requires Owed(s, b) && !e.Crash? && Unclaimed(Step(s, e).store, b)
    ensures ClaimInFlight(Step(s, e), b)
  {
    if !Unclaimed(s.store, b) {
      NewClaimer(s, e, b);
    } else {
      var c :| c in s.calls && s.calls[c].ClaimingRefund? && s.calls[c].b == b;
      OldClaimer(s, e, b, c);
    }
  }

  lemma NewClaimer(s: Sys, e: Event, b: BookingId)
    requires RowsOk(s.store, b) && RowsOk(Step(s, e).store, b)
    requires !Unclaimed(s.store, b) && Unclaimed(Step(s, e).store, b)
    ensures ClaimInFlight(Step(s, e), b)
  {
    if b !in s.store.db.bookings { CancelledBy(s, e, b); }
    NewlyUnclaimed(s, e, b);
    assert Step(s, e).calls[e.c].ClaimingRefund?;
  }

  lemma OldClaimer(s: Sys, e: Event, b: BookingId, c: CallId)
    requires CallsOk(s.store, s.calls) && !e.Crash? && Unclaimed(Step(s, e).store, b)
    requires c in s.calls && s.calls[c].ClaimingRefund? && s.calls[c].b == b
    ensures ClaimInFlight(Step(s, e), b)
  {
    if e == RefundClaimed(c) {
      ClaimStepSucceeds(s, c);
    } else {
      OtherCallsSurvive(s, e, c);
      assert Step(s, e).calls[c].ClaimingRefund?;
    }
  }

  lemma AskStays(s: Sys, e: Event, b: BookingId)
    requires RowsOk(s.store, b) && RowsOk(Step(s, e).store, b) && Grows(s.store, Step(s, e).store)
    requires Owed(s, b) && !e.Crash? && Unasked(Step(s, e).store, b)
    ensures AskInFlight(Step(s, e), b)
  {
    var t := Step(s, e);
    if !Unasked(s.store, b) {
      NewlyUnasked(s, e, b);
      assert t.calls[e.c] == SchedulingRefund(b);
    } else if b in s.store.jobs {
      JobsStay(s, e, b);
    } else {
      var c :| c in s.calls && s.calls[c] == SchedulingRefund(b);
      if e != RefundScheduled(c) {
        OtherCallsSurvive(s, e, c);
      }
    }
  }

  /**
   In a run without crashes every refund a cancel owes is still on its way: an
   unclaimed one has its cancel call, and a claimed one that was never accepted
   has its scheduling call or an unfinished job, be it one that is given up.
   */
  lemma {:induction false} NoRefundIsLost(es: seq<Event>, b: BookingId)
    requires forall e | e in es :: !e.Crash?
    ensures Owed(Run(EMPTY, es), b)
  {
    if es != [] {
      var before := es[..|es| - 1];
      NoRefundIsLost(before, b);
      Reachable(before);
      StepKeepsOwed(Run(EMPTY, before), es[|es| - 1], b);
    }
  }
}
