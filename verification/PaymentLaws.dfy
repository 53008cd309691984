/** Who each payment call acts for, what it keeps, and what it leaves in the tables, in plain amounts and times. */
module PaymentLaws {
  import opened Common
  import opened BookingStatus
  import opened PaymentProtocol
  import opened PaymentSafety
  import opened PaymentRuns

  // ── booking ──

  /** Booking stores one row of the total asked, and only a booking that costs something goes on to the gateway. */
  lemma BookingBegins(s: Sys, c: CallId, b: BookingId, user: UserId, total: int, now: int)
    requires c !in s.calls && b !in s.store.db.bookings
    ensures var t := Step(s, Book(c, b, user, total, now));
            && t.store == s.store.(db := t.store.db)
            && t.store.db == s.store.db.(bookings := t.store.db.bookings)
            && t.store.db.bookings == s.store.db.bookings[b := t.store.db.bookings[b]]
            && t.store.db.bookings[b].user == user && t.store.db.bookings[b].total == total
            && t.store.db.bookings[b].createdAt == now && t.store.db.bookings[b].fee == 0
            && t.store.db.bookings[b].status == (if total > 0 then AwaitingPayment else Pending)
            && t.calls == if total > 0 then s.calls[c := OpeningOrder(b)] else s.calls
  {
    assert s.calls - {c} == s.calls;
  }

  /** An order that is opened and stored leaves a CREATED payment of the booking's total for it; one that is not closes the booking. */
  lemma CheckoutStores(s: Sys, c: CallId, b: BookingId, order: OrderId)
    requires c in s.calls && s.calls[c] == OpeningOrder(b) && order !in s.store.issued
    requires b in s.store.db.bookings && s.store.db.bookings[b].status == AwaitingPayment
    ensures var t := Step(Step(s, OrderOpened(c, Some(order))), PaymentStored(c, true));
            && t.calls == s.calls - {c} && t.store.db.bookings == s.store.db.bookings
            && t.store.db.payments == s.store.db.payments[b :=
                 Payment(Created, s.store.db.bookings[b].total, order, None, None, None)]
            && t.store.db.orders == s.store.db.orders[order := b]
    ensures var t := Step(Step(s, OrderOpened(c, None)), BookingClosed(c));
            && t.calls == s.calls - {c} && t.store.db.payments == s.store.db.payments
            && t.store.db.bookings == s.store.db.bookings[b :=
                 s.store.db.bookings[b].(status := Cancelled, fee := 0)]
    ensures var t := Step(Step(Step(s, OrderOpened(c, Some(order))), PaymentStored(c, false)), BookingClosed(c));
            && t.calls == s.calls - {c} && t.store.db.payments == s.store.db.payments
            && t.store.db.bookings == s.store.db.bookings[b :=
                 s.store.db.bookings[b].(status := Cancelled, fee := 0)]
  {
    var opened_ := Step(s, OrderOpened(c, Some(order)));
    assert opened_.calls - {c} == s.calls - {c};
    var failed := Step(s, OrderOpened(c, None));
    assert failed.calls - {c} == s.calls - {c};
    var unstored := Step(opened_, PaymentStored(c, false));
    assert unstored.calls - {c} == s.calls - {c};
  }

  // ── settling a payment ──

  /**
   A verify call goes to the gateway only for a signed report, by the customer
   whose booking it is, of the order that booking was given, while its payment
   is still CREATED; and a webhook only for an order of ours, while CREATED.
   */
  lemma SettlingBegins(s: Sys, c: CallId, user: UserId, b: BookingId, order: OrderId, pid: PaymentId, signed: bool)
    requires c !in s.calls && (b in s.store.db.payments ==> RowsOk(s.store, b))
    ensures var t := Step(s, Verify(c, user, b, order, pid, signed));
            && t.store == s.store
            && (c in t.calls <==> && signed && b in s.store.db.bookings && s.store.db.bookings[b].user == user
                                  && b in s.store.db.payments && s.store.db.payments[b].order == order
                                  && s.store.db.payments[b].status == Created)
            && (c in t.calls ==> t.calls == s.calls[c := FetchingPayment(b, order, s.store.db.bookings[b].total, pid)])
    ensures var t := Step(s, PaymentWebhook(c, order, pid));
            && t.store == s.store
            && (c in t.calls <==> && order in s.store.db.orders && s.store.db.orders[order] in s.store.db.payments
                                  && s.store.db.payments[s.store.db.orders[order]].status == Created)
            && (c in t.calls ==> var row := s.store.db.payments[s.store.db.orders[order]];
                  t.calls == s.calls[c := FetchingPayment(s.store.db.orders[order], row.order, row.amount, pid)])
  {
  }

  /** From the gateway's answer on: captured goes to confirming, authorized to capturing, anything else ends the call. */
  lemma FetchedGoesOn(s: Sys, c: CallId, ok: bool)
    requires c in s.calls && s.calls[c].FetchingPayment?
    ensures var k := s.calls[c];
            var t := Step(s, Fetched(c, ok));
            var paid := && ok && k.pid in s.store.gateway && s.store.gateway[k.pid].order == k.order
                        && s.store.gateway[k.pid].amount == k.amount && s.store.gateway[k.pid].inr;
            && t.store == s.store
            && (if paid && s.store.gateway[k.pid].status == GwCaptured
                then t.calls == s.calls[c := ConfirmingPayment(k.b, k.order, k.pid)]
                else if paid && s.store.gateway[k.pid].status == GwAuthorized
                then t.calls == s.calls[c := CapturingPayment(k.b, k.order, k.amount, k.pid)]
                else t.calls == s.calls - {c})
  {
  }

  /** A capture that the gateway takes is confirmed; one that failed here but happened is found by reading again. */
  lemma CapturingGoesOn(s: Sys, c: CallId, answer: CaptureAnswer)
    requires c in s.calls && s.calls[c].CapturingPayment?
    ensures var k := s.calls[c];
            var t := Step(s, CaptureAsked(c, answer));
            var taken := && answer != CaptureRefused && k.pid in s.store.gateway
                         && s.store.gateway[k.pid].status == GwAuthorized && s.store.gateway[k.pid].amount == k.amount;
            && t.store == s.store.(gateway := t.store.gateway)
            && t.store.gateway == (if taken then s.store.gateway[k.pid := s.store.gateway[k.pid].(status := GwCaptured)] else s.store.gateway)
            && t.calls == s.calls[c := if taken && answer == CaptureDone then ConfirmingPayment(k.b, k.order, k.pid)
                                       else RefetchingPayment(k.b, k.order, k.amount, k.pid)]
  {
  }

  lemma RefetchedGoesOn(s: Sys, c: CallId, ok: bool)
    requires c in s.calls && s.calls[c].RefetchingPayment?
    ensures var k := s.calls[c];
            var t := Step(s, Refetched(c, ok));
            && t.store == s.store
            && t.calls == if ok && k.pid in s.store.gateway && s.store.gateway[k.pid].status == GwCaptured
                          then s.calls[c := ConfirmingPayment(k.b, k.order, k.pid)] else s.calls - {c}
  {
  }

  /** Confirming takes a CREATED payment and its waiting booking on together, and says that it did; else it changes nothing. */
  lemma ConfirmingLands(db: Db, order: OrderId, pid: PaymentId, b: BookingId)
    requires order in db.orders && db.orders[order] == b && b in db.payments && b in db.bookings
    ensures var (now, confirmed) := CapturePayment(db, order, pid);
            && (confirmed <==> db.payments[b].status == Created)
            && (!confirmed ==> now == db)
            && (confirmed ==> now == db.(
                  payments := db.payments[b := db.payments[b].(status := Captured, paymentId := Some(pid))],
                  bookings := if db.bookings[b].status == AwaitingPayment
                              then db.bookings[b := db.bookings[b].(status := Pending)] else db.bookings))
  {
  }

  /** The conditional writes of a cancel and of a claim say whether they did anything. */
  lemma WritesSayIfTheyLanded(db: Db, b: BookingId, from: set<Status>, n: int, order: OrderId, pid: PaymentId)
    ensures CancelBooking(db, b, from, n).1 <==> b in db.bookings && db.bookings[b].status in from
    ensures ClaimRefund(db, b, n).1 <==> b in db.payments && db.payments[b].status == Captured
    ensures order !in db.orders ==> CapturePayment(db, order, pid) == (db, false)
    ensures !CancelBooking(db, b, from, n).1 ==> CancelBooking(db, b, from, n).0 == db
    ensures !ClaimRefund(db, b, n).1 ==> ClaimRefund(db, b, n).0 == db
  {
  }

  // ── cancelling ──

  /** A customer's cancel is on its way exactly for the booking's own customer, while it is pending or confirmed. */
  lemma CustomerCancelBegins(s: Sys, c: CallId, user: UserId, b: BookingId, now: int)
    requires c !in s.calls
    ensures var t := Step(s, CustomerCancel(c, user, b, now));
            && t.store == s.store
            && (c in t.calls <==> b in s.store.db.bookings && s.store.db.bookings[b].user == user
                                  && s.store.db.bookings[b].status in {Pending, Confirmed})
            && (c in t.calls ==> t.calls[c].Cancelling? && t.calls[c].b == b && t.calls[c].from == {Pending, Confirmed})
  {
  }

  /** A company's, while it is pending or confirmed; and it lands only from the status it read. */
  lemma CompanyCancelBegins(s: Sys, c: CallId, b: BookingId)
    requires c !in s.calls
    ensures var t := Step(s, CompanyCancel(c, b));
            && t.store == s.store
            && (c in t.calls <==> b in s.store.db.bookings && s.store.db.bookings[b].status in {Pending, Confirmed})
            && (c in t.calls ==> t.calls[c] == Cancelling(b, {s.store.db.bookings[b].status}, 0))
  {
  }

  /** A claim takes a captured payment to waiting, with the amount; any other it leaves, and the call ends. */
  lemma ClaimGoesOn(s: Sys, c: CallId)
    requires c in s.calls && s.calls[c].ClaimingRefund?
    ensures var k := s.calls[c];
            var t := Step(s, RefundClaimed(c));
            if k.b in s.store.db.payments && s.store.db.payments[k.b].status == Captured then
              && t.store == s.store.(db := s.store.db.(payments := s.store.db.payments[k.b :=
                   s.store.db.payments[k.b].(status := RefundPending, refundAmount := Some(k.amount))]))
              && t.calls == s.calls[c := SchedulingRefund(k.b)]
            else t == Sys(s.store, s.calls - {c})
  {
  }

  /** A job is queued new, once per booking. */
  lemma SchedulingEnds(s: Sys, c: CallId)
    requires c in s.calls && s.calls[c].SchedulingRefund?
    ensures var b, t := s.calls[c].b, Step(s, RefundScheduled(c));
            && t.calls == s.calls - {c}
            && t.store == if b in s.store.jobs then s.store else s.store.(jobs := s.store.jobs[b := Job(0, false, None, 0)])
  {
  }

  /** What a late cancel may keep: nothing within two hours of booking, later a tenth to within half a paisa. */
  predicate KeepsRightly(total: int, fee: int, createdAt: int, now: int) {
    if now - createdAt <= 7_200_000 then fee == 0 else -5 <= total - 10 * fee < 5
  }

  lemma CancelCarriesTheFee(s: Sys, c: CallId, user: UserId, b: BookingId, now: int)
    requires c !in s.calls && c in Step(s, CustomerCancel(c, user, b, now)).calls
    ensures b in s.store.db.bookings
    ensures KeepsRightly(s.store.db.bookings[b].total, Step(s, CustomerCancel(c, user, b, now)).calls[c].fee,
                         s.store.db.bookings[b].createdAt, now)
  {
  }

  lemma CancelLandsOn(s: Sys, c: CallId)
    requires c in s.calls && s.calls[c].Cancelling?
    ensures var k := s.calls[c];
            var t := Step(s, CancelWritten(c));
            if k.b in s.store.db.bookings && s.store.db.bookings[k.b].status in k.from then
              && t.store.db == s.store.db.(bookings := s.store.db.bookings[k.b :=
                   s.store.db.bookings[k.b].(status := Cancelled, fee := k.fee)])
              && t.store == s.store.(db := t.store.db)
              && t.calls == (if s.store.db.bookings[k.b].total > k.fee
                             then s.calls[c := ClaimingRefund(k.b, s.store.db.bookings[k.b].total - k.fee)] else s.calls - {c})
            else t == Sys(s.store, s.calls - {c})
  {
  }

  /** Booking [b] is cancelled by its own customer for what asking at [now] may cost, and any claimed refund is the rest. */
  predicate CancelledRightly(w: Store, b: BookingId, user: UserId, now: int) {
    && b in w.db.bookings && w.db.bookings[b].status == Cancelled && w.db.bookings[b].user == user
    && KeepsRightly(w.db.bookings[b].total, w.db.bookings[b].fee, w.db.bookings[b].createdAt, now)
    && (b in w.db.payments && w.db.payments[b].status in {RefundPending, Refunded} ==>
          w.db.payments[b].refundAmount == Some(w.db.bookings[b].total - w.db.bookings[b].fee))
  }

  /**
   A customer's cancel that lands, whatever happened since it was asked, keeps
   nothing if it was asked within two hours of the booking and else a tenth of
   the total; and any refund ever claimed is what that leaves of the total.
   */
  lemma CustomerCancelKeepsItsFee(
      es: seq<Event>, c: CallId, user: UserId, b: BookingId, now: int, between: seq<Event>, after: seq<Event>)
    requires c !in Run(EMPTY, es).calls
    requires var s1 := Step(Run(EMPTY, es), CustomerCancel(c, user, b, now));
             var s2 := Run(s1, between);
             && c in s1.calls && c in s2.calls && s2.calls[c] == s1.calls[c]
             && b in s2.store.db.bookings && s2.store.db.bookings[b].status in {Pending, Confirmed}
    ensures var s3 := Step(Run(Step(Run(EMPTY, es), CustomerCancel(c, user, b, now)), between), CancelWritten(c));
            CancelledRightly(Run(s3, after).store, b, user, now)
  {
    var e := CustomerCancel(c, user, b, now);
    var s2 := Run(Step(Run(EMPTY, es), e), between);
    BookingGrowsFrom(es, e, between, b);
    FeeWhenLanded(Run(EMPTY, es), s2, c, user, b, now);
    CancelStays(es, e, between, c, after, b, user, now);
  }

  lemma BookingGrowsFrom(es: seq<Event>, e: Event, between: seq<Event>, b: BookingId)
    ensures BookingGrows(Run(EMPTY, es).store, Run(Step(Run(EMPTY, es), e), between).store, b)
  {
    var s0, s1 := Run(EMPTY, es), Step(Run(EMPTY, es), e);
    Reachable(es);
    StepKeeps(s0, e);
    RunGrows(s1, between);
    assert BookingGrows(s0.store, s1.store, b) && BookingGrows(s1.store, Run(s1, between).store, b);
  }

  lemma FeeWhenLanded(s0: Sys, s2: Sys, c: CallId, user: UserId, b: BookingId, now: int)
    requires c !in s0.calls && c in Step(s0, CustomerCancel(c, user, b, now)).calls
    requires c in s2.calls && s2.calls[c] == Step(s0, CustomerCancel(c, user, b, now)).calls[c]
    requires BookingGrows(s0.store, s2.store, b)
    requires b in s2.store.db.bookings && s2.store.db.bookings[b].status in {Pending, Confirmed}
    ensures var w := Step(s2, CancelWritten(c)).store;
            && b in w.db.bookings && w.db.bookings[b].status == Cancelled && w.db.bookings[b].user == user
            && KeepsRightly(w.db.bookings[b].total, w.db.bookings[b].fee, w.db.bookings[b].createdAt, now)
  {
    CustomerCancelBegins(s0, c, user, b, now);
    CancelCarriesTheFee(s0, c, user, b, now);
    CancelLandsOn(s2, c);
  }

  lemma CancelStays(es: seq<Event>, e: Event, between: seq<Event>, c: CallId, after: seq<Event>, b: BookingId, user: UserId, now: int)
    requires var w := Step(Run(Step(Run(EMPTY, es), e), between), CancelWritten(c)).store;
             && b in w.db.bookings && w.db.bookings[b].status == Cancelled && w.db.bookings[b].user == user
             && KeepsRightly(w.db.bookings[b].total, w.db.bookings[b].fee, w.db.bookings[b].createdAt, now)
    ensures CancelledRightly(Run(Step(Run(Step(Run(EMPTY, es), e), between), CancelWritten(c)), after).store, b, user, now)
  {
    var s3 := Step(Run(Step(Run(EMPTY, es), e), between), CancelWritten(c));
    GrownAfter(es, e, between, c, after, b);
    StaysRightly(s3.store, Run(s3, after).store, b, user, now);
  }

  lemma StaysRightly(v: Store, w: Store, b: BookingId, user: UserId, now: int)
    requires b in v.db.bookings && v.db.bookings[b].status == Cancelled && v.db.bookings[b].user == user
    requires KeepsRightly(v.db.bookings[b].total, v.db.bookings[b].fee, v.db.bookings[b].createdAt, now)
    requires BookingGrows(v, w, b) && RowsOk(w, b)
    ensures CancelledRightly(w, b, user, now)
  {
  }

  lemma GrownAfter(es: seq<Event>, e: Event, between: seq<Event>, c: CallId, after: seq<Event>, b: BookingId)
    ensures var s3 := Step(Run(Step(Run(EMPTY, es), e), between), CancelWritten(c));
            BookingGrows(s3.store, Run(s3, after).store, b) && RowsOk(Run(s3, after).store, b)
  {
    var s1 := Step(Run(EMPTY, es), e);
    var s3 := Step(Run(s1, between), CancelWritten(c));
    assert Inv(s3) by {
      Reachable(es);
      StepKeeps(Run(EMPTY, es), e);
      RunKeeps(s1, between);
      StepKeeps(Run(s1, between), CancelWritten(c));
    }
    assert BookingGrows(s3.store, Run(s3, after).store, b) by { RunGrows(s3, after); }
    assert RowsOk(Run(s3, after).store, b) by { RunKeeps(s3, after); RowsOkAt(Run(s3, after).store, b); }
  }

  // ── refunding ──

  /** A worker takes a ready job's lock, and asks for the refund exactly when it is claimed and has no id yet; else the job is done. */
  lemma WorkerBegins(s: Sys, c: CallId, b: BookingId)
    requires c !in s.calls && b in s.store.db.payments && b in s.store.jobs
    ensures var t := Step(s, WorkerStarted(c, b));
            var j, row := s.store.jobs[b], s.store.db.payments[b];
            var ready := !j.finished && j.failures < 3 && j.stalls < 2 && j.holder.None?;
            var due := row.status == RefundPending && row.refundId.None? && row.paymentId.Some? && row.refundAmount.Some?;
            && t.store == s.store.(jobs := t.store.jobs)
            && t.calls == (if ready && due
                           then s.calls[c := AskingRefund(b, row.paymentId.value, row.refundAmount.value)] else s.calls)
            && t.store.jobs == (if !ready then s.store.jobs
                                else s.store.jobs[b := if due then j.(holder := Some(c)) else j.(finished := true)])
  {
    assert s.calls - {c} == s.calls;
  }

  /** An accepted refund is the amount asked, added once; a lost or refused one costs the attempt of the lock's holder. */
  lemma AskingGoesOn(s: Sys, c: CallId, reply: RefundAnswer)
    requires c in s.calls && s.calls[c].AskingRefund? && s.calls[c].pid in s.store.gateway && s.calls[c].b in s.store.jobs
    ensures var k := s.calls[c];
            var p, j, t := s.store.gateway[k.pid], s.store.jobs[k.b], Step(s, RefundAsked(c, reply));
            var taken := reply != RefundRefused && RefundFits(p, k.amount);
            && t.store == s.store.(gateway := t.store.gateway, jobs := t.store.jobs)
            && (!taken ==> t.store.gateway == s.store.gateway)
            && (taken ==> && t.store.gateway == s.store.gateway[k.pid := t.store.gateway[k.pid]]
                          && t.store.gateway[k.pid].refunds == p.refunds + [Refund(reply.rid, k.amount)])
            && (taken && reply.RefundDone? ==>
                  t.calls == s.calls[c := StoringRefund(k.b, reply.rid, reply.processed)] && t.store.jobs == s.store.jobs)
            && (!(taken && reply.RefundDone?) ==>
                  && t.calls == s.calls - {c}
                  && t.store.jobs == if j.holder == Some(c) then s.store.jobs[k.b := j.(failures := j.failures + 1, holder := None)]
                                     else s.store.jobs)
  {
  }

  /** Storing the id goes on to settling only when the gateway said processed; an outcome counts only with the lock. */
  lemma StoringGoesOn(s: Sys, c: CallId)
    requires c in s.calls && s.calls[c].StoringRefund? && s.calls[c].b in s.store.db.payments && s.calls[c].b in s.store.jobs
    ensures var k := s.calls[c];
            var j, t := s.store.jobs[k.b], Step(s, RefundStored(c));
            && t.store.db == s.store.db.(payments := s.store.db.payments[k.b :=
                 s.store.db.payments[k.b].(refundId := Some(k.rid))])
            && t.calls == (if k.processed then s.calls[c := MarkingRefunded(k.b)] else s.calls - {c})
            && t.store.jobs == if !k.processed && j.holder == Some(c)
                               then s.store.jobs[k.b := j.(finished := true, holder := None)] else s.store.jobs
  {
  }

  /** With no row to store it on, the attempt has failed. */
  lemma StoringNowhere(s: Sys, c: CallId)
    requires c in s.calls && s.calls[c].StoringRefund? && s.calls[c].b !in s.store.db.payments && s.calls[c].b in s.store.jobs
    ensures var b := s.calls[c].b;
            var j, t := s.store.jobs[b], Step(s, RefundStored(c));
            && t.calls == s.calls - {c}
            && t.store == s.store.(jobs := if j.holder == Some(c) then s.store.jobs[b := j.(failures := j.failures + 1, holder := None)]
                                           else s.store.jobs)
  {
  }

  lemma MarkingEnds(s: Sys, c: CallId)
    requires c in s.calls && s.calls[c].MarkingRefunded? && s.calls[c].b in s.store.db.payments && s.calls[c].b in s.store.jobs
    ensures var k := s.calls[c];
            var row, j, t := s.store.db.payments[k.b], s.store.jobs[k.b], Step(s, RefundMarked(c));
            && t.calls == s.calls - {c}
            && t.store.db == s.store.db.(payments := s.store.db.payments[k.b :=
                 if row.status == RefundPending then row.(status := Refunded) else row])
            && t.store.jobs == if j.holder == Some(c) then s.store.jobs[k.b := j.(finished := true, holder := None)] else s.store.jobs
  {
  }

  /** The gateway's refund webhook settles the waiting row that carries the refund's id, and changes no other. */
  lemma RefundWebhookSettles(s: Sys, rid: RefundId, b: BookingId)
    requires b in s.store.db.payments
    ensures var t := Step(s, RefundWebhook(rid));
            && t.calls == s.calls && t.store == s.store.(db := t.store.db)
            && t.store.db == s.store.db.(payments := t.store.db.payments)
            && t.store.db.payments.Keys == s.store.db.payments.Keys
            && t.store.db.payments[b] == if s.store.db.payments[b].refundId == Some(rid) && s.store.db.payments[b].status == RefundPending
                                         then s.store.db.payments[b].(status := Refunded) else s.store.db.payments[b]
  {
  }

  /** A stall takes the lock from a job that is held and not finished, and counts. */
  lemma StallTakesTheLock(s: Sys, b: BookingId)
    requires b in s.store.jobs
    ensures var j, t := s.store.jobs[b], Step(s, JobStalled(b));
            t == s.(store := s.store.(jobs := s.store.jobs[b :=
              if j.holder.Some? && !j.finished then Job(j.failures, false, None, j.stalls + 1) else j]))
  {
  }

  lemma FailedAttempt(s: Sys, c: CallId)
    requires c in s.calls && (s.calls[c].AskingRefund? || s.calls[c].StoringRefund? || s.calls[c].MarkingRefunded?)
    requires s.calls[c].b in s.store.jobs
    ensures var b := s.calls[c].b;
            var j, t := s.store.jobs[b], Step(s, AttemptFailed(c));
            && t.calls == s.calls - {c}
            && t.store == s.store.(jobs := if j.holder == Some(c) then s.store.jobs[b := j.(failures := j.failures + 1, holder := None)]
                                           else s.store.jobs)
  {
  }

  /** A gateway payment goes from created to authorized, captured or failed, from authorized to captured or failed, and no other way. */
  lemma GatewayGoesForward(s: Sys, pid: PaymentId, to: GatewayStatus)
    requires pid in s.store.gateway
    ensures var p := s.store.gateway[pid];
            Step(s, GatewayMoves(pid, to)) ==
            if (p.status == GwCreated && to in {GwAuthorized, GwCaptured, GwFailed})
               || (p.status == GwAuthorized && to in {GwCaptured, GwFailed})
            then s.(store := s.store.(gateway := s.store.gateway[pid := p.(status := to)])) else s
  {
  }

  /** It accepts a refund exactly of a captured payment, of a positive amount that is still there. */
  lemma GatewayAccepts(p: GatewayPayment, amount: int, rid: RefundId)
    ensures RefundFits(p, amount) <==> p.status == GwCaptured && 0 < amount <= p.amount - RefundTotal(p.refunds)
    ensures RefundTotal(p.refunds + [Refund(rid, amount)]) == RefundTotal(p.refunds) + amount
    ensures AcceptRefund(p, Refund(rid, amount)).refunds == p.refunds + [Refund(rid, amount)]
    ensures AcceptRefund(p, Refund(rid, amount)).status ==
            if RefundTotal(p.refunds) + amount == p.amount then GwRefunded else p.status
  {
    assert (p.refunds + [Refund(rid, amount)])[..|p.refunds|] == p.refunds;
  }

  // ── the company's moves ──

  /** Assigning confirms a pending or confirmed booking; starting and completing go one step on, and nothing else happens to it. */
  lemma MovesLand(s: Sys, b: BookingId, next: Status)
    requires b in s.store.db.bookings
    ensures var row, t := s.store.db.bookings[b], Step(s, Assign(b));
            t == if row.status in {Pending, Confirmed} then s.(store := s.store.(db := s.store.db.(bookings :=
                   s.store.db.bookings[b := row.(status := Confirmed)]))) else s
    ensures var row, t := s.store.db.bookings[b], Step(s, Move(b, next));
            t == if (row.status == Confirmed && next == InProgress) || (row.status == InProgress && next == Completed)
                 then s.(store := s.store.(db := s.store.db.(bookings := s.store.db.bookings[b := row.(status := next)]))) else s
  {
  }
}
