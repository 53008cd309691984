/** Which refunds a crash or a long outage can lose: exactly those that nothing is left to ask for. */
module PaymentRecovery {
  import opened Common
  import opened BookingStatus
  import opened PaymentProtocol
  import opened PaymentSafety
  import opened PaymentRuns

  // ── a refund nobody has claimed ──

  lemma StepKeepsAbandoned(s: Sys, e: Event, b: BookingId)
    requires Inv(s) && Unclaimed(s.store, b) && !ClaimInFlight(s, b)
    ensures Unclaimed(Step(s, e).store, b) && !ClaimInFlight(Step(s, e), b)
  {
    StepKeeps(s, e);
    assert BookingGrows(s.store, Step(s, e).store, b) && RowGrows(s.store, Step(s, e).store, b);
    if Step(s, e).store.db.payments[b].status != Captured { OnlyClaimersClaim(s, e, b); }
    forall c | c in Step(s, e).calls
      ensures !(Step(s, e).calls[c].ClaimingRefund? && Step(s, e).calls[c].b == b)
    {
      OnlyCancelsBecomeClaimers(s, e, b, c);
    }
  }

  /** Only a claimer of [b] takes its row on. */
  lemma OnlyClaimersClaim(s: Sys, e: Event, b: BookingId)
    requires b in s.store.db.payments && s.store.db.payments[b].status == Captured
    requires RowGrows(s.store, Step(s, e).store, b) && Step(s, e).store.db.payments[b].status != Captured
    ensures !Begins(e) && !Outside(e) && e.c in s.calls
    ensures s.calls[e.c].ClaimingRefund? && s.calls[e.c].b == b
  {
    PaymentWriter(s, e, b);
    StoreAfter(s, e);
  }

  /** Only a cancel that lands becomes a claimer, and none lands on a cancelled booking. */
  lemma OnlyCancelsBecomeClaimers(s: Sys, e: Event, b: BookingId, c: CallId)
    requires c in s.calls ==> CallOk(s.store, s.calls[c])
    requires b in s.store.db.bookings && s.store.db.bookings[b].status == Cancelled
    requires c in s.calls ==> !(s.calls[c].ClaimingRefund? && s.calls[c].b == b)
    ensures c in Step(s, e).calls ==> !(Step(s, e).calls[c].ClaimingRefund? && Step(s, e).calls[c].b == b)
  {
  }

  lemma {:induction false} AbandonedForever(s: Sys, es: seq<Event>, b: BookingId)
    requires Inv(s) && Unclaimed(s.store, b) && !ClaimInFlight(s, b)
    ensures Unclaimed(Run(s, es).store, b) && !ClaimInFlight(Run(s, es), b)
  {
    if es != [] {
      AbandonedForever(s, es[..|es| - 1], b);
      RunKeeps(s, es[..|es| - 1]);
      StepKeepsAbandoned(Run(s, es[..|es| - 1]), es[|es| - 1], b);
    }
  }

  /** An unclaimed refund can still be claimed exactly when its cancel call is still in flight. */
  lemma ClaimableIffInFlight(es: seq<Event>, b: BookingId)
    requires Unclaimed(Run(EMPTY, es).store, b)
    ensures (exists more :: !Unclaimed(Run(Run(EMPTY, es), more).store, b)) <==> ClaimInFlight(Run(EMPTY, es), b)
  {
    Reachable(es);
    ClaimableFrom(Run(EMPTY, es), b);
  }

  lemma ClaimerClaims(s: Sys, b: BookingId)
    requires CallsOk(s.store, s.calls) && ClaimInFlight(s, b)
    ensures exists more :: !Unclaimed(Run(s, more).store, b)
  {
    var c :| c in s.calls && s.calls[c].ClaimingRefund? && s.calls[c].b == b;
    ClaimStepSucceeds(s, c);
    assert Run(s, [RefundClaimed(c)]) == Step(Run(s, []), RefundClaimed(c));
  }

  lemma ClaimableFrom(s: Sys, b: BookingId)
    requires Inv(s) && Unclaimed(s.store, b)
    ensures (exists more :: !Unclaimed(Run(s, more).store, b)) <==> ClaimInFlight(s, b)
  {
    if ClaimInFlight(s, b) {
      ClaimerClaims(s, b);
    } else {
      forall more ensures Unclaimed(Run(s, more).store, b) { AbandonedForever(s, more, b); }
    }
  }

  // ── a refund the gateway has not accepted ──

  predicate Pursues(k: Call, b: BookingId) {
    (k.ClaimingRefund? || k.SchedulingRefund? || k.AskingRefund?) && k.b == b
  }

  ghost predicate Pursued(s: Sys, b: BookingId) {
    exists c | c in s.calls :: Pursues(s.calls[c], b)
  }

  /** The job will be run again even if the call that holds its lock, when one does, is never heard of again. */
  predicate RunsAgain(w: Store, b: BookingId) {
    b in w.jobs && JobLives(Stalled(w.jobs[b]))
  }

  /** Someone is left to ask: a call on its way to the queue or to the gateway, or a job the queue will run again. */
  ghost predicate OnItsWay(s: Sys, b: BookingId) {
    Pursued(s, b) || RunsAgain(s.store, b)
  }

  // What is stranded stays so.

  lemma PursuersComeFrom(s: Sys, e: Event, b: BookingId, c: CallId)
    requires c in Step(s, e).calls && Pursues(Step(s, e).calls[c], b)
    requires b in s.store.db.bookings && s.store.db.bookings[b].status == Cancelled
    requires c in s.calls ==> CallOk(s.store, s.calls[c])
    ensures (c in s.calls && Pursues(s.calls[c], b)) || RunsAgain(s.store, b)
  {
  }

  lemma JobsComeFrom(s: Sys, e: Event, b: BookingId)
    requires RunsAgain(Step(s, e).store, b)
    requires Continues(s, e) ==> CallOk(s.store, s.calls[e.c])
    requires RowsOk(s.store, b) && Unrefunded(s.store, b)
    ensures RunsAgain(s.store, b) || Pursued(s, b)
  {
    StoreAfter(s, e);
    if Continues(s, e) && !Pursues(s.calls[e.c], b) { OthersLeaveTheJob(s.store, s.calls[e.c], e, b); }
  }

  /** While nothing is accepted, only a call that pursues the refund writes its job. */
  lemma OthersLeaveTheJob(w: Store, k: Call, e: Event, b: BookingId)
    requires Awaits(k, e) && CallOk(w, k) && RowsOk(w, b) && Unrefunded(w, b) && !Pursues(k, b)
    ensures var v := Continue(w, k, e).store; (b in v.jobs <==> b in w.jobs) && (b in w.jobs ==> v.jobs[b] == w.jobs[b])
  {
  }

  lemma AcceptedBy(s: Sys, e: Event, pid: PaymentId)
    requires pid in s.store.gateway && s.store.gateway[pid].refunds == []
    requires pid in Step(s, e).store.gateway && Step(s, e).store.gateway[pid].refunds != []
    ensures Continues(s, e) && s.calls[e.c].AskingRefund? && s.calls[e.c].pid == pid
  {
    StoreAfter(s, e);
  }

  lemma SamePaymentSameBooking(w: Store, b: BookingId, x: BookingId, pid: PaymentId)
    requires b in w.db.payments && x in w.db.payments && RowOk(w, b) && RowOk(w, x)
    requires w.db.payments[b].paymentId == Some(pid) && w.db.payments[x].paymentId == Some(pid)
    ensures b == x
  {
  }

  /** The gateway accepts a refund of a booking only from a worker asking for that booking's. */
  lemma AcceptedByItsAsker(s: Sys, e: Event, b: BookingId, pid: PaymentId)
    requires Inv(s) && Unrefunded(s.store, b) && s.store.db.payments[b].paymentId == Some(pid)
    requires pid in s.store.gateway
    requires pid in Step(s, e).store.gateway && Step(s, e).store.gateway[pid].refunds != []
    ensures Continues(s, e) && Pursues(s.calls[e.c], b)
  {
    AcceptedBy(s, e, pid);
    assert CallOk(s.store, s.calls[e.c]);
    SamePaymentSameBooking(s.store, b, s.calls[e.c].b, pid);
  }

  lemma UnaskedIsUnrefunded(s: Sys, e: Event, b: BookingId)
    requires Inv(s) && Unrefunded(s.store, b) && !Pursued(s, b)
    ensures Unrefunded(Step(s, e).store, b)
  {
    var t := Step(s, e);
    StepKeeps(s, e);
    UnrefundedRow(s, b);
    assert BookingGrows(s.store, t.store, b) && RowGrows(s.store, t.store, b);
    if Accepted(t.store, b) { AcceptedByItsAsker(s, e, b, s.store.db.payments[b].paymentId.value); }
  }

  lemma StrandedStep(s: Sys, e: Event, b: BookingId)
    requires Inv(s) && Unrefunded(s.store, b) && !OnItsWay(s, b)
    ensures Unrefunded(Step(s, e).store, b) && !OnItsWay(Step(s, e), b)
  {
    UnaskedIsUnrefunded(s, e, b);
    var t := Step(s, e);
    RowsOkAt(s.store, b);
    if RunsAgain(t.store, b) { JobsComeFrom(s, e, b); }
    forall c | c in t.calls ensures !Pursues(t.calls[c], b) {
      if Pursues(t.calls[c], b) { PursuersComeFrom(s, e, b, c); }
    }
  }

  lemma {:induction false} StrandedForever(s: Sys, es: seq<Event>, b: BookingId)
    requires Inv(s) && Unrefunded(s.store, b) && !OnItsWay(s, b)
    ensures Unrefunded(Run(s, es).store, b) && !OnItsWay(Run(s, es), b)
  {
    if es != [] {
      StrandedForever(s, es[..|es| - 1], b);
      RunKeeps(s, es[..|es| - 1]);
      StrandedStep(Run(s, es[..|es| - 1]), es[|es| - 1], b);
    }
  }

  // What is on its way can arrive.

  lemma {:induction false} RunAfter(s: Sys, e: Event, more: seq<Event>)
    ensures Run(s, [e] + more) == Run(Step(s, e), more)
  {
    var es := [e] + more;
    if more == [] {
      assert es == [e] && Run(s, [e]) == Step(Run(s, []), e);
    } else {
      RunAfter(s, e, more[..|more| - 1]);
      assert es[..|es| - 1] == [e] + more[..|more| - 1];
    }
  }

  lemma AskIsAccepted(s: Sys, k: Call, c: CallId)
    requires c in s.calls && s.calls[c] == k && k.AskingRefund?
    requires k.b in s.store.db.payments && s.store.db.payments[k.b].paymentId == Some(k.pid)
    requires k.pid in s.store.gateway && RefundFits(s.store.gateway[k.pid], k.amount)
    ensures Accepted(Step(s, RefundAsked(c, RefundDone(0, true))).store, k.b)
  {
  }

  lemma AskerArrives(s: Sys, b: BookingId, c: CallId) returns (more: seq<Event>)
    requires Inv(s) && Unrefunded(s.store, b) && c in s.calls && s.calls[c].AskingRefund? && s.calls[c].b == b
    ensures Accepted(Run(s, more).store, b)
  {
    UnrefundedRow(s, b);
    assert CallOk(s.store, s.calls[c]);
    RefundFitsOnce(s.store, b);
    AskIsAccepted(s, s.calls[c], c);
    var e := RefundAsked(c, RefundDone(0, true));
    more := [e];
    assert Run(s, more) == Step(Run(s, []), e);
  }

  lemma ReadyJobArrives(s: Sys, b: BookingId) returns (more: seq<Event>)
    requires Inv(s) && Unrefunded(s.store, b) && JobReady(s.store, b)
    ensures Accepted(Run(s, more).store, b)
  {
    UnrefundedRow(s, b);
    var c := Unused(s.calls.Keys);
    StartPath(s, b, c);
    var e := WorkerStarted(c, b);
    StepKeeps(s, e);
    more := AskerArrives(Step(s, e), b, c);
    RunAfter(s, e, more);
    more := [e] + more;
  }

  lemma QueuedIsReady(s: Sys, b: BookingId, c: CallId)
    requires c in s.calls && s.calls[c] == SchedulingRefund(b) && b !in s.store.jobs && Unrefunded(s.store, b)
    ensures var t := Step(s, RefundScheduled(c)); && Unrefunded(t.store, b) && JobReady(t.store, b)
  {
  }

  lemma SchedulerArrives(s: Sys, b: BookingId, c: CallId) returns (more: seq<Event>)
    requires Inv(s) && Unrefunded(s.store, b) && c in s.calls && s.calls[c] == SchedulingRefund(b)
    ensures Accepted(Run(s, more).store, b)
  {
    assert b !in s.store.jobs by { assert RoleOk(s.store, Scheduler(b)); }
    QueuedIsReady(s, b, c);
    var e := RefundScheduled(c);
    StepKeeps(s, e);
    more := ReadyJobArrives(Step(s, e), b);
    RunAfter(s, e, more);
    more := [e] + more;
  }

  lemma ClaimedIsScheduling(s: Sys, b: BookingId, c: CallId)
    requires CallsOk(s.store, s.calls) && c in s.calls && s.calls[c].ClaimingRefund? && s.calls[c].b == b
    requires Unrefunded(s.store, b)
    ensures var t := Step(s, RefundClaimed(c)); Unrefunded(t.store, b) && c in t.calls && t.calls[c] == SchedulingRefund(b)
  {
    ClaimStepSucceeds(s, c);
  }

  lemma ClaimerArrives(s: Sys, b: BookingId, c: CallId) returns (more: seq<Event>)
    requires Inv(s) && Unrefunded(s.store, b) && c in s.calls && s.calls[c].ClaimingRefund? && s.calls[c].b == b
    ensures Accepted(Run(s, more).store, b)
  {
    ClaimedIsScheduling(s, b, c);
    var e := RefundClaimed(c);
    StepKeeps(s, e);
    more := SchedulerArrives(Step(s, e), b, c);
    RunAfter(s, e, more);
    more := [e] + more;
  }

  lemma CallArrives(s: Sys, b: BookingId, c: CallId) returns (more: seq<Event>)
    requires Inv(s) && Unrefunded(s.store, b) && c in s.calls && Pursues(s.calls[c], b)
    ensures Accepted(Run(s, more).store, b)
  {
    if s.calls[c].ClaimingRefund? {
      more := ClaimerArrives(s, b, c);
    } else if s.calls[c].SchedulingRefund? {
      more := SchedulerArrives(s, b, c);
    } else {
      more := AskerArrives(s, b, c);
    }
  }

  lemma StalledIsReady(s: Sys, b: BookingId)
    requires RunsAgain(s.store, b) && !JobReady(s.store, b) && Unrefunded(s.store, b)
    ensures var t := Step(s, JobStalled(b)); Unrefunded(t.store, b) && JobReady(t.store, b)
  {
  }

  lemma LivingJobArrives(s: Sys, b: BookingId) returns (more: seq<Event>)
    requires Inv(s) && Unrefunded(s.store, b) && RunsAgain(s.store, b)
    ensures Accepted(Run(s, more).store, b)
  {
    if JobReady(s.store, b) {
      more := ReadyJobArrives(s, b);
    } else {
      StalledIsReady(s, b);
      var e := JobStalled(b);
      StepKeeps(s, e);
      more := ReadyJobArrives(Step(s, e), b);
      RunAfter(s, e, more);
      more := [e] + more;
    }
  }

  lemma OnItsWayArrives(s: Sys, b: BookingId) returns (more: seq<Event>)
    requires Inv(s) && Unrefunded(s.store, b) && OnItsWay(s, b)
    ensures Accepted(Run(s, more).store, b)
  {
    if RunsAgain(s.store, b) {
      more := LivingJobArrives(s, b);
    } else {
      var c :| c in s.calls && Pursues(s.calls[c], b);
      more := CallArrives(s, b, c);
    }
  }

  predicate AcceptedAfter(s: Sys, more: seq<Event>, b: BookingId) {
    Accepted(Run(s, more).store, b)
  }

  /**
   In every reachable state, the customer of a cancelled and paid booking can
   still be refunded if and only if a call that will claim, queue or ask for
   the refund is in flight, or the queue will run its job again: attempts left,
   and not given up for stalling, a stall of a lock now held counted in.
   */
  lemma RecoverableIffInFlight(es: seq<Event>, b: BookingId)
    requires Unrefunded(Run(EMPTY, es).store, b)
    ensures (exists more :: AcceptedAfter(Run(EMPTY, es), more, b)) <==> OnItsWay(Run(EMPTY, es), b)
  {
    Reachable(es);
    ArrivesIffOnItsWay(Run(EMPTY, es), b);
  }

  lemma ArrivesIffOnItsWay(s: Sys, b: BookingId)
    requires Inv(s) && Unrefunded(s.store, b)
    ensures (exists more :: AcceptedAfter(s, more, b)) <==> OnItsWay(s, b)
  {
    if OnItsWay(s, b) {
      var more := OnItsWayArrives(s, b);
      assert AcceptedAfter(s, more, b);
    } else {
      forall more ensures !AcceptedAfter(s, more, b) { StrandedForever(s, more, b); }
    }
  }

  // ── four ways to lose one ──

  lemma Then(es: seq<Event>, e: Event) returns (longer: seq<Event>)
    ensures longer == es + [e] && Run(EMPTY, longer) == Step(Run(EMPTY, es), e)
  {
    longer := es + [e];
    assert longer[..|longer| - 1] == es;
  }

  /** Booking 1 of 100 paise, waiting for its payment on order 5. */
  lemma BookedRun() returns (es: seq<Event>)
    ensures forall e | e in es :: !e.Crash?
    ensures var s := Run(EMPTY, es);
            && s.calls == map[] && s.store.gateway == map[] && s.store.db.orders == map[5 := 1]
            && s.store.db.bookings == map[1 := Booking(7, 100, 0, AwaitingPayment, 0)]
            && s.store.db.payments == map[1 := Payment(Created, 100, 5, None, None, None)]
  {
    es := [];
    es := Then(es, Book(0, 1, 7, 100, 0));
    assert Run(EMPTY, es).calls == map[0 := OpeningOrder(1)];
    es := Then(es, OrderOpened(0, Some(5)));
    assert Run(EMPTY, es).calls == map[0 := StoringPayment(1, 5)];
    es := Then(es, PaymentStored(0, true));
  }

  /** The gateway has taken payment 9 for it. */
  lemma TakenRun() returns (es: seq<Event>)
    ensures forall e | e in es :: !e.Crash?
    ensures var s := Run(EMPTY, es);
            && s.calls == map[] && s.store.db.orders == map[5 := 1]
            && s.store.gateway == map[9 := GatewayPayment(5, 100, true, GwCaptured, [])]
            && s.store.db.bookings == map[1 := Booking(7, 100, 0, AwaitingPayment, 0)]
            && s.store.db.payments == map[1 := Payment(Created, 100, 5, None, None, None)]
  {
    es := BookedRun();
    es := Then(es, CustomerPays(9, 5, 100, true));
    es := Then(es, GatewayMoves(9, GwCaptured));
  }

  lemma PaidInTurn(s: Sys)
    requires s.calls == map[] && s.store.db.orders == map[5 := 1]
    requires s.store.gateway == map[9 := GatewayPayment(5, 100, true, GwCaptured, [])]
    requires s.store.db.bookings == map[1 := Booking(7, 100, 0, AwaitingPayment, 0)]
    requires s.store.db.payments == map[1 := Payment(Created, 100, 5, None, None, None)]
    ensures var v := Step(Step(Step(s, PaymentWebhook(0, 5, 9)), Fetched(0, true)), PaymentConfirmed(0));
            && v.calls == map[]
            && v.store.db.bookings == map[1 := Booking(7, 100, 0, Pending, 0)]
            && v.store.db.payments == map[1 := Payment(Captured, 100, 5, Some(9), None, None)]
  {
    ConfirmPath(s, 1, 9, 0);
  }

  /** And the booking is confirmed, with nothing in flight. */
  lemma PaidRun() returns (es: seq<Event>)
    ensures forall e | e in es :: !e.Crash?
    ensures var s := Run(EMPTY, es);
            && s.calls == map[]
            && s.store.db.bookings == map[1 := Booking(7, 100, 0, Pending, 0)]
            && s.store.db.payments == map[1 := Payment(Captured, 100, 5, Some(9), None, None)]
  {
    es := TakenRun();
    PaidInTurn(Run(EMPTY, es));
    es := Then(es, PaymentWebhook(0, 5, 9));
    es := Then(es, Fetched(0, true));
    es := Then(es, PaymentConfirmed(0));
  }

  /** The customer has cancelled within the free hours, and the call is about to claim the refund. */
  lemma CancelledRun() returns (es: seq<Event>)
    ensures forall e | e in es :: !e.Crash?
    ensures var s := Run(EMPTY, es);
            && s.calls == map[0 := ClaimingRefund(1, 100)]
            && s.store.db.bookings == map[1 := Booking(7, 100, 0, Cancelled, 0)]
            && s.store.db.payments == map[1 := Payment(Captured, 100, 5, Some(9), None, None)]
  {
    es := PaidRun();
    es := Then(es, CustomerCancel(0, 7, 1, 0));
    assert Run(EMPTY, es).calls == map[0 := Cancelling(1, CUSTOMER_CANCELLABLE, 0)];
    es := Then(es, CancelWritten(0));
  }

  lemma NobodyLeft(es: seq<Event>, b: BookingId)
    requires var s := Run(EMPTY, es); Unrefunded(s.store, b) && s.calls == map[] && !RunsAgain(s.store, b)
    ensures forall more :: !AcceptedAfter(Run(EMPTY, es), more, b)
  {
    RecoverableIffInFlight(es, b);
  }

  lemma UnclaimedIsUnrefunded(w: Store, b: BookingId)
    requires StoreOk(w) && Unclaimed(w, b)
    ensures Unrefunded(w, b) && b !in w.jobs
  {
    assert RowOk(w, b) && GatewayOk(w, w.db.payments[b].paymentId.value);
  }

  /** One crash between the cancel and its claim, and a paid-for refund is lost for good. */
  lemma CrashLosesTheRefund() returns (es: seq<Event>, b: BookingId)
    ensures var w := Run(EMPTY, es).store;
            Unclaimed(w, b) && w.db.bookings[b].total > w.db.bookings[b].fee
    ensures forall more :: Unclaimed(Run(Run(EMPTY, es), more).store, b)
    ensures forall more :: !AcceptedAfter(Run(EMPTY, es), more, b)
  {
    es := CancelledRun();
    es := Then(es, Crash(0));
    b := 1;
    Reachable(es);
    UnclaimedIsUnrefunded(Run(EMPTY, es).store, b);
    NobodyLeft(es, b);
    forall more ensures Unclaimed(Run(Run(EMPTY, es), more).store, b) { AbandonedForever(Run(EMPTY, es), more, b); }
  }

  lemma ClaimedInTurn(s: Sys)
    requires s.calls == map[0 := ClaimingRefund(1, 100)] && Unclaimed(s.store, 1) && Unrefunded(s.store, 1)
    requires 1 !in s.store.jobs && s.store.db.payments[1].refundId.None?
    ensures var t := Step(s, RefundClaimed(0));
            && t.calls == map[0 := SchedulingRefund(1)]
            && Unasked(t.store, 1) && Unrefunded(t.store, 1) && 1 !in t.store.jobs
  {
  }

  /** The refund is claimed, and its call is about to queue the job. */
  lemma ClaimedRun() returns (es: seq<Event>)
    ensures forall e | e in es :: !e.Crash?
    ensures var s := Run(EMPTY, es);
            && s.calls == map[0 := SchedulingRefund(1)]
            && Unasked(s.store, 1) && Unrefunded(s.store, 1) && 1 !in s.store.jobs
  {
    es := CancelledRun();
    assert Unrefunded(Run(EMPTY, es).store, 1) && 1 !in Run(EMPTY, es).store.jobs by {
      Reachable(es);
      UnclaimedIsUnrefunded(Run(EMPTY, es).store, 1);
    }
    ClaimedInTurn(Run(EMPTY, es));
    es := Then(es, RefundClaimed(0));
  }

  /** One crash, or one failed write to the queue, between the claim and the job loses it as well. */
  lemma CrashAfterClaimLosesTheRefund() returns (es: seq<Event>, b: BookingId)
    ensures var s := Run(EMPTY, es); Unasked(s.store, b) && b !in s.store.jobs && s.calls == map[]
    ensures forall more :: !AcceptedAfter(Run(EMPTY, es), more, b)
  {
    es := ClaimedRun();
    es := Then(es, Crash(0));
    b := 1;
    NobodyLeft(es, b);
  }

  /** Nothing is in flight but the job of a claimed refund, after so many failed attempts and so many stalls. */
  predicate Trying(s: Sys, b: BookingId, tries: nat, stalls: nat) {
    && s.calls == map[] && Unasked(s.store, b) && Unrefunded(s.store, b)
    && b in s.store.jobs && s.store.jobs[b] == Job(tries, false, None, stalls)
  }

  lemma RefusedAttempt(s: Sys, b: BookingId, tries: nat)
    requires Trying(s, b, tries, 0) && tries < MAX_ATTEMPTS
    requires s.store.db.payments[b].paymentId.Some? && s.store.db.payments[b].refundAmount.Some?
    ensures Trying(Step(Step(s, WorkerStarted(0, b)), RefundAsked(0, RefundRefused)), b, tries + 1, 0)
  {
    StartPath(s, b, 0);
  }

  /** An attempt that never reaches acceptance costs the job one of its attempts and changes nothing else. */
  lemma OneMoreTry(es: seq<Event>, b: BookingId, tries: nat) returns (longer: seq<Event>)
    requires Trying(Run(EMPTY, es), b, tries, 0) && tries < MAX_ATTEMPTS
    ensures Trying(Run(EMPTY, longer), b, tries + 1, 0)
    ensures longer == es + [WorkerStarted(0, b), RefundAsked(0, RefundRefused)]
  {
    ReachableRows(es, b);
    RefusedAttempt(Run(EMPTY, es), b, tries);
    longer := Then(es, WorkerStarted(0, b));
    longer := Then(longer, RefundAsked(0, RefundRefused));
  }

  lemma DeadWorker(s: Sys, b: BookingId, stalls: nat)
    requires Trying(s, b, 0, stalls) && stalls <= MAX_STALLS
    requires s.store.db.payments[b].paymentId.Some? && s.store.db.payments[b].refundAmount.Some?
    ensures Trying(Step(Step(Step(s, WorkerStarted(0, b)), Crash(0)), JobStalled(b)), b, 0, stalls + 1)
  {
    StartPath(s, b, 0);
    var s1 := Step(s, WorkerStarted(0, b));
    assert Step(s1, Crash(0)) == Sys(s1.store, map[]);
  }

  /** A worker that dies before it has asked costs the job a stall and changes nothing else. */
  lemma OneMoreDeath(es: seq<Event>, b: BookingId, stalls: nat) returns (longer: seq<Event>)
    requires Trying(Run(EMPTY, es), b, 0, stalls) && stalls <= MAX_STALLS
    ensures Trying(Run(EMPTY, longer), b, 0, stalls + 1)
    ensures longer == es + [WorkerStarted(0, b), Crash(0), JobStalled(b)]
  {
    ReachableRows(es, b);
    DeadWorker(Run(EMPTY, es), b, stalls);
    longer := Then(es, WorkerStarted(0, b));
    longer := Then(longer, Crash(0));
    longer := Then(longer, JobStalled(b));
  }

  /** Two dead workers lose it too, with every attempt unused. */
  lemma TwoDeathsLoseTheRefund() returns (es: seq<Event>, b: BookingId)
    ensures Trying(Run(EMPTY, es), b, 0, MAX_STALLS + 1)
    ensures forall more :: !AcceptedAfter(Run(EMPTY, es), more, b)
  {
    b := 1;
    es := QueuedRun();
    es := OneMoreDeath(es, b, 0);
    es := OneMoreDeath(es, b, 1);
    NobodyLeft(es, b);
  }

  lemma QueuedInTurn(s: Sys)
    requires s.calls == map[0 := SchedulingRefund(1)]
    requires Unasked(s.store, 1) && Unrefunded(s.store, 1) && 1 !in s.store.jobs
    ensures Trying(Step(s, RefundScheduled(0)), 1, 0, 0)
  {
  }

  lemma QueuedRun() returns (es: seq<Event>)
    ensures (forall e | e in es :: !e.Crash?) && Trying(Run(EMPTY, es), 1, 0, 0)
  {
    es := ClaimedRun();
    QueuedInTurn(Run(EMPTY, es));
    es := Then(es, RefundScheduled(0));
  }

  /** And so does an outage that outlasts the job's attempts, with no crash at all. */
  lemma OutageLosesTheRefund() returns (es: seq<Event>, b: BookingId)
    ensures forall e | e in es :: !e.Crash?
    ensures Trying(Run(EMPTY, es), b, MAX_ATTEMPTS, 0)
    ensures forall more :: !AcceptedAfter(Run(EMPTY, es), more, b)
  {
    b := 1;
    es := QueuedRun();
    es := OneMoreTry(es, b, 0);
    es := OneMoreTry(es, b, 1);
    es := OneMoreTry(es, b, 2);
    NobodyLeft(es, b);
  }
}
