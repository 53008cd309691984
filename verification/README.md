# The ELK backend's protocols, modelled and proved

A model in Dafny of the parts of the ELK backend where several requests,
retries and crashes meet in one table, with proofs of what those parts keep
over every run. It stands beside the source and describes it; it does not
execute any of it.

- **Payments and refunds.** A home-service booking and its payment row, through
  checkout, the verify call, the gateway's webhooks, cancels by either
  side, the refund claim and the retried refund worker. Calls are split at every
  await and may die at any of them (`PaymentProtocol`, `PaymentSafety`,
  `PaymentRuns`, `PaymentRecovery`, `PaymentBackend`), and the prices and fees
  they carry are exact paise (`PricingRules`, `BookingDesk`).
- **Refresh-token rotation.** Find, claim and create as separate steps, with
  replays, logouts, revocations and crashes in between (`Session*`).
- **Catalogue approvals.** Price edits that merge into one open request, are
  withdrawn or decided, and leave an audit trail (`Catalogue*`).
- **One-time passcodes.** A store with expiring keys, a cooldown and an attempt
  cap, and what they allow in a given time (`Otp*`).
- **Marketplace orders and listings.** Orders moved on by stale readers and
  their timeline (`AdOrder*`); a listing's details and its category (`AdAttributes`,
  `Listing*`).
- **Professionals.** Approval, assignment and deletion together (`Assignment*`).
- **Area matching** and **push batching** (`AreaMatching`, `PushBatching`).

Each protocol is one deterministic function from a state and an event to the
next state; an event that does not apply changes nothing, so a statement about
every sequence of events is a statement about every interleaving. Where calls
interleave, a state has the tables and, apart from them, the calls in flight
with what each has read. The `Backend` modules hold the services in the form the
source has them, objects that update their tables in place; each method is one
call running alone, at most with a rival write it names, and is proved to leave
the tables as its events do. The `Laws` modules say of each call, in figures and
fields and without the functions that compute them, who it acts for, when it is
let through and what it leaves on the rows. `BookingDesk` joins area, bill and
checkout into the booking call.

Four places where the code does not do all that its own comments say, each
with a concrete run and, beside it, exactly when it does:

- The refund queue is there so that an outage does not lose a refund. A crash
  between the cancel and the claim loses it for good, and so do one between the
  claim and the job, an outage longer than the job's attempts, and two workers
  that die on the job (`PaymentRecovery.CrashLosesTheRefund`,
  `CrashAfterClaimLosesTheRefund`, `OutageLosesTheRefund`,
  `TwoDeathsLoseTheRefund`; exactly when, `RecoverableIffInFlight`).
- A replayed refresh token is said to end its whole family. A rotation that has
  claimed and not yet created outlives the revocation
  (`SessionRuns.ReuseCanBeOutlived`; exactly when, `KillIsFinalIff`), and a
  detection that dies before the revocation changes nothing
  (`DetectedReuseCanBeForgotten`; exactly when a family can live on,
  `RevivableIff`).
- A changed phone needs a new approval, since jobs are sent to it, but resending
  a job uses it before it is approved
  (`AssignmentRuns.ResendCanReachUnapproved`; exactly when, `ResendToApproved`
  and, for one edit, `EditKeepsApprovedPhoneIff`).
- Enquiring again is meant to reopen the same conversation, but two taps at once
  open two (`AdOrderRuns.TapsMakeTwo`; exactly when, `OneConversation`, and
  from a given state `TwoTalksIffOverlap`).

Two more are limits nobody promised against: a rounded discount can exceed a
tiny subtotal (`PricingRules.DiscountCanExceedSubtotal`; exactly when,
`DiscountWithinSubtotal`), and two overlapping edits can leave a listing with
details of another category (`ListingRuns.OvertakenEditsCanMismatch`; exactly
when, `LateEditsSafeIff` for one edit, `MismatchNeedsTwo` for all in flight and
`DetailsFitIff` along a run).

## Model

| member | source | states |
|---|---|---|
| PaymentSafety.StepKeeps | src/modules/razorpay/razorpay.service.ts:40-165 | one step of any call, of the gateway or of a crash keeps every fact of the store and of the calls in flight, and takes back no booking, payment status, gateway id or refund |
| PaymentSafety.Reachable | src/modules/razorpay/razorpay.service.ts:40-165 | those facts hold after every sequence of events: requests, duplicate webhooks, retried and doubled workers, and processes killed between any two awaits |
| PaymentSafety.SecondRefundNeverFits | src/modules/razorpay/razorpay.queue.ts:47-63 | a gateway payment that has accepted a refund of the claimed amount has less than that amount left, so a retry after a lost answer is refused |
| PaymentSafety.FetchCall | src/modules/razorpay/razorpay.service.ts:124-150 | a settling call goes on from reading the gateway only with a payment of the row's own order, amount and currency, on the first read and on the re-read alike |
| PaymentRuns.JointTableHolds | src/modules/razorpay/razorpay.repository.ts:30-55 | in every reachable state: awaiting payment means no row or a CREATED one; pending to completed with something to pay means a CAPTURED row of the whole total and no fee; cancelled means no CREATED row, and a claimed refund equal to the total less the fee |
| PaymentRuns.WorkedJobsArePaid | src/modules/admin/admin-bookings.service.ts:162-193 | a booking that waits for, has or has had a professional at work, and costs something, has a captured rupee payment at the gateway for its order and total, none of it refunded |
| PaymentRuns.AtMostOneRefund | src/modules/razorpay/razorpay.queue.ts:44-69 | over every run the gateway accepts at most one refund per booking, whichever of its payments is asked about, and only of a cancelled booking's total less its fee |
| PaymentRuns.RefundedMeansRefunded | src/modules/razorpay/razorpay.repository.ts:57-66 | a row marked REFUNDED has exactly one accepted refund, the one whose id it stores, of the total less the fee |
| PaymentRuns.RunGrows | src/modules/razorpay/razorpay.repository.ts:30-66 | over any continuation of any run who booked, what it cost, a cancel and its fee stand, and a payment row only moves on |
| PaymentRuns.ConfirmedOnce | src/modules/razorpay/razorpay.repository.ts:25-46 | however many verify calls and webhooks race, a payment row leaves CREATED exactly once if it is no longer CREATED, and otherwise never |
| PaymentRuns.OnlyPaidPaymentsAreConfirmed | src/modules/razorpay/razorpay.service.ts:121-154 | what moves a row out of CREATED is a settling call, at a moment when the gateway has captured a rupee payment for that order and amount; it records that payment and makes the booking pending |
| PaymentRuns.CompanyCancelRefundsInFull | src/modules/admin/admin-bookings.service.ts:184-203 | a company cancel that lands, however late after its read, keeps no fee, and any refund then claimed for the booking is its whole total |
| PaymentRuns.BookingsFollowEdges | src/modules/admin/admin-bookings.service.ts:26-34 | every status change in every run is an edge of the workflow, and a new booking waits for payment exactly when it costs something |
| PaymentRuns.PaymentCanBeConfirmed | src/modules/razorpay/razorpay.service.ts:85-93 | a payment the gateway has captured is confirmed by one webhook delivery, from any reachable state |
| PaymentRuns.RefundCanComplete | src/modules/razorpay/razorpay.queue.ts:44-68 | an unaccepted refund whose job is ready is accepted by the gateway on the next attempt and ends REFUNDED with its id stored |
| PaymentRuns.ClaimSucceeds | src/modules/razorpay/razorpay.service.ts:113-118 | the claim of a cancel call in flight always succeeds, carries a positive amount, and goes on to queue the job |
| PaymentRuns.NoRefundIsLost | src/modules/razorpay/razorpay.service.ts:113-118 | in a run without crashes a cancelled booking whose payment is still captured has its cancel call at the claim, and a claimed refund with no id has its scheduling call or an unfinished job |
| PaymentLaws.CustomerCancelKeepsItsFee | src/modules/home-services/home-services.service.ts:223-234 | a customer's cancel that lands, whatever happened since it was asked, keeps nothing if asked within 7,200,000 ms of the booking and else a tenth of the total within half a paisa; any refund ever claimed is the rest |
| PaymentLaws.CustomerCancelBegins | src/modules/home-services/home-services.service.ts:210-222 | a customer's cancel is on its way exactly for the booking's own customer while it is pending or confirmed |
| PaymentLaws.CompanyCancelBegins | src/modules/admin/admin-bookings.service.ts:168-187 | a company's is on its way exactly while the booking is pending or confirmed, from the status read and with no fee |
| PaymentLaws.CancelLandsOn | src/modules/home-services/home-services.repository.ts:75-85 | a cancel lands exactly on a status it may cancel, takes its fee onto the row, and goes on to claim what that leaves if anything |
| PaymentLaws.ClaimGoesOn | src/modules/razorpay/razorpay.service.ts:113-118 | a claim takes a captured payment to waiting with the amount and goes on to queue; on any other it ends and changes nothing |
| PaymentLaws.SchedulingEnds | src/modules/razorpay/razorpay.queue.ts:26-30 | one new job per booking, however often it is queued |
| PaymentLaws.BookingBegins | src/modules/home-services/home-services.service.ts:141-183 | booking stores one row of this user, total and time, and goes on to the gateway exactly when it costs something |
| PaymentLaws.CheckoutStores | src/modules/razorpay/razorpay.service.ts:41-50 | an order opened and stored leaves a CREATED payment of the booking's total for it; one that is not leaves the booking closed and no payment |
| PaymentLaws.SettlingBegins | src/modules/razorpay/razorpay.service.ts:53-93 | a verify call asks the gateway exactly for a signed report, by the booking's customer, of the booking's order, while CREATED; a webhook exactly for an order of ours while CREATED |
| PaymentLaws.FetchedGoesOn | src/modules/razorpay/razorpay.service.ts:124-150 | a payment of the right order, amount and currency goes on to be confirmed if captured and to be captured if authorized; anything else ends the call and changes nothing |
| PaymentLaws.CapturingGoesOn | src/modules/razorpay/razorpay.service.ts:157-165 | a capture takes effect exactly on the authorized payment of that amount; the call goes on to confirm if told so and else reads again |
| PaymentLaws.RefetchedGoesOn | src/modules/razorpay/razorpay.service.ts:160-163 | the second read goes on to confirm exactly a payment captured by then |
| PaymentLaws.WorkerBegins | src/modules/razorpay/razorpay.queue.ts:44-58 | a worker takes the lock of a job with attempts and stalls left and nobody on it, and asks exactly for a claimed refund without an id; else the job is done |
| PaymentLaws.AskingGoesOn | src/modules/razorpay/razorpay.queue.ts:59-63 | an accepted refund is the amount asked, once; a refused or unheard one costs the lock's holder an attempt |
| PaymentLaws.StoringGoesOn | src/modules/razorpay/razorpay.queue.ts:64-66 | the id is stored, and the row settled next exactly if the gateway called the refund processed |
| PaymentLaws.MarkingEnds | src/modules/razorpay/razorpay.queue.ts:65-67 | a waiting row is settled and the job done; a row no longer waiting is left |
| PaymentLaws.RefundWebhookSettles | src/modules/razorpay/razorpay.service.ts:94-96 | the refund webhook settles exactly the waiting row with that refund id |
| PaymentLaws.FailedAttempt | src/modules/razorpay/razorpay.queue.ts:44-69 | a failing statement costs the lock's holder an attempt and changes nothing else |
| PaymentLaws.ConfirmingLands | src/modules/razorpay/razorpay.repository.ts:30-46 | confirming takes a CREATED payment and its waiting booking on together, and says so; otherwise it changes nothing |
| PaymentLaws.MovesLand | src/modules/admin/admin-bookings.service.ts:122-193 | assigning confirms a pending or confirmed booking, starting and completing go one step on, and nothing else happens to it |
| PaymentRecovery.AbandonedForever | src/modules/home-services/home-services.service.ts:223-235 | a refund whose cancel call is gone before the claim is never claimed by anything that happens later |
| PaymentRecovery.ClaimableIffInFlight | src/modules/home-services/home-services.service.ts:223-235 | an unclaimed refund can still be claimed by some continuation if and only if its cancel call is still in flight |
| PaymentRecovery.RecoverableIffInFlight | src/modules/razorpay/razorpay.service.ts:113-118 | in every reachable state a cancelled and paid booking that has had no refund accepted can still have one, over some continuation, if and only if a call is about to claim, queue or ask for it or the queue will run its job again: attempts left and not given up for stalling, a stall of a lock now held counted in |
| PaymentRecovery.StrandedForever | src/modules/razorpay/razorpay.queue.ts:44-69 | with none of these left the gateway accepts no refund of the booking over any continuation |
| PaymentRecovery.AcceptedByItsAsker | src/modules/razorpay/razorpay.queue.ts:59-63 | the gateway accepts a refund of a booking only from a worker asking for that booking |
| PaymentRecovery.CrashLosesTheRefund | src/modules/razorpay/razorpay.service.ts:113-118 | the promise that an outage does not lose the refund fails: a concrete run with one crash between the cancel and the claim, after which the row stays CAPTURED and nothing is ever refunded |
| PaymentRecovery.CrashAfterClaimLosesTheRefund | src/modules/razorpay/razorpay.service.ts:115-117 | and a concrete run with one crash, or failed write to the queue, between the claim and the job: the row stays claimed, no job exists, and nothing is ever refunded |
| PaymentRecovery.TwoDeathsLoseTheRefund | src/modules/razorpay/razorpay.queue.ts:33-44 | and a concrete run in which two workers die before asking: the job is given up for stalling with every attempt unused, and nothing is ever refunded |
| PaymentRecovery.OutageLosesTheRefund | src/modules/razorpay/razorpay.queue.ts:16-20 | and a concrete run with no crash, in which three refused attempts use the job up and nothing is ever refunded |
| PaymentBackend.StepFollows | src/modules/razorpay/razorpay.service.ts:40-165 | one event of the protocol on a call that is alone is that call going on by one await |
| PaymentBackend.RunAlone | src/modules/razorpay/razorpay.service.ts:40-165 | a whole call running alone is a run of the protocol |
| PaymentBackend.SettlingEnds | src/modules/razorpay/razorpay.service.ts:121-165 | what settling comes to for each answer of the gateway: refused, captured, authorized and captured here, or captured by a rival and re-read |
| PaymentBackend.CancellingEnds | src/modules/home-services/home-services.service.ts:225-235 | what a landed cancel comes to: the booking cancelled with its fee, and the refund claimed and queued if there is one |
| PaymentBackend.AskingEnds | src/modules/razorpay/razorpay.queue.ts:59-67 | what asking for a refund comes to for each answer, the lost one included |
| PaymentBackend.Backend.CancelBookingRow | src/modules/home-services/home-services.repository.ts:75-85 | cancels only from the given statuses, and says whether it did |
| PaymentBackend.Backend.CreatePayment | src/modules/razorpay/razorpay.repository.ts:13-15 | stores a CREATED row under its booking and its order |
| PaymentBackend.Backend.Capture | src/modules/razorpay/razorpay.repository.ts:30-46 | from CREATED only: the row becomes CAPTURED and its waiting booking pending, both or neither |
| PaymentBackend.Backend.StartRefund | src/modules/razorpay/razorpay.repository.ts:49-55 | claims the refund from CAPTURED only, with its amount |
| PaymentBackend.Backend.SetRefundId | src/modules/razorpay/razorpay.repository.ts:57-59 | stores the gateway's refund id and nothing else |
| PaymentBackend.Backend.MarkRefundedRow | src/modules/razorpay/razorpay.repository.ts:61-66 | settles a waiting row, and leaves any other alone |
| PaymentBackend.Backend.HandleRefundProcessed | src/modules/razorpay/razorpay.service.ts:94-96 | settles exactly the waiting rows that carry the refund id |
| PaymentBackend.Backend.Book | src/modules/home-services/home-services.service.ts:141-193 | stores the booking and its checkout as the protocol does; a checkout that fails closes the booking again |
| PaymentBackend.Backend.CaptureOnce | src/modules/razorpay/razorpay.service.ts:157-165 | captures, or takes a capture that another call made; never reports one that has not happened |
| PaymentBackend.Backend.Settle | src/modules/razorpay/razorpay.service.ts:121-154 | the fetch, capture, re-read and confirm of the protocol, in order; a refusal changes no table |
| PaymentBackend.Backend.Refund | src/modules/razorpay/razorpay.service.ts:113-118 | claims once and queues one job; nothing when nothing is due or nothing was captured |
| PaymentBackend.Backend.CustomerCancels | src/modules/home-services/home-services.service.ts:210-236 | the protocol's cancel, claim and queue for the customer's own cancellable booking, with the fee of the moment; a refusal changes nothing |
| PaymentBackend.Backend.CompanyCancels | src/modules/admin/admin-bookings.service.ts:184-203 | the same for the company, from the status it read and in full |
| PaymentBackend.Backend.AskAndStore | src/modules/razorpay/razorpay.queue.ts:59-67 | asks for the refund, stores its id, settles it when processed; a failure leaves the tables alone and counts an attempt |
| PaymentBackend.Backend.Process | src/modules/razorpay/razorpay.queue.ts:44-69 | one attempt of the job, which goes to the gateway only for a claimed refund that has no id yet |
| PricingRules.QuoteIsPerProfessionalPerHour | src/modules/home-services/home-services.rules.ts:31-40 | the quote is the sum over each professional and each hour, the first at the hourly rate and the others at theirs, plus materials once |
| PricingRules.RawDiscountIsNearestRupee | src/modules/home-services/home-services.rules.ts:81 | the uncapped discount is whole rupees, within half a rupee of the exact percentage |
| PricingRules.AcceptedDiscount | src/modules/home-services/home-services.rules.ts:62-90 | when a code is accepted, exactly; and that it takes the rounded percentage or a lower cap and says which |
| PricingRules.DiscountWithinSubtotal | src/modules/home-services/home-services.service.ts:136-145 | an accepted discount stays within the subtotal if and only if rounding up cannot pass it or a cap within it applies |
| PricingRules.DiscountFitsInPractice | src/modules/home-services/home-services.rules.ts:81-82 | which it does for every code up to 90% on five rupees or more, and up to 100% on whole rupees |
| PricingRules.DiscountCanExceedSubtotal | src/modules/home-services/home-services.rules.ts:81-82 | and not always: one professional for one hour at 1.67 rupees, 90% off, takes two rupees off |
| PricingRules.CancellationFee | src/modules/home-services/home-services.rules.ts:98-101 | no fee within two hours; later a tenth within half a paisa; what is left is always more than half of what was paid |
| BookingDesk.BookService | src/modules/home-services/home-services.service.ts:76-194 | every check of a booking in order, its area, bill and total, then the checkout; a refusal before the booking is stored changes nothing, and exactly when each is given |
| BookingDesk.LetThroughIff | src/modules/home-services/home-services.service.ts:77-152 | a booking is let through exactly for a service approved, active and online, enough hours, a day not passed, a served address, an accepted code or none, and a payable total; and each refusal is given exactly when it is the first to fail |
| BookingDesk.BillAddsUp | src/modules/home-services/home-services.service.ts:110-145 | a bill is the team's hours plus the materials asked for less what a typed code takes off, the nearest whole rupee to its percentage or its cap, and its total is not negative exactly when no code was typed or its discount fits |
| BookingDesk.ScreenedIsServed | src/modules/home-services/home-services.service.ts:77-108 | a booking let through is of a bookable service, enough hours and a day not passed, and goes to the nearest covering area or the first named one |
| BookingDesk.BookingStartsAsBilled | src/modules/home-services/home-services.service.ts:141-193 | a booking with nothing to pay starts pending, one whose checkout opened waits for a payment of exactly its total, any other is closed; nothing else moves |
| SessionSafety.StepKeeps | src/modules/auth/auth.service.ts:88-146 | one step of any rotation, replay, logout, sign-in or crash keeps every family one path, keeps unused hashes unused, and undoes nothing |
| SessionSafety.ClaimKeepsPath | src/modules/auth/refresh-session.repository.ts:28-34 | a claim names a successor on the last session of its family only |
| SessionSafety.CreateKeepsPath | src/modules/auth/auth.service.ts:121-128 | a created session extends its family by the successor that family was waiting for |
| SessionRuns.AtMostOneLive | src/modules/auth/auth.service.ts:88-136 | in every interleaving, active sessions plus rotations between claim and create number at most one per family |
| SessionRuns.FamilyIsAPath | src/modules/auth/refresh-session.repository.ts:28-34 | every family is a single path, each session replaced by the next, with all its sessions on it |
| SessionRuns.ExchangedOnce | src/modules/auth/refresh-session.repository.ts:23-34 | a refresh token is exchanged exactly once if it has a successor, and otherwise never, over any run |
| SessionRuns.ExchangeIsAClaim | src/modules/auth/auth.service.ts:113-119 | a token is exchanged only by the claim of a rotation that finds it unrevoked, which revokes it in the same write |
| SessionRuns.NothingIsUndone | src/modules/auth/refresh-session.repository.ts:28-56 | owners, families, revocations with their times, and successors stand over every continuation |
| SessionRuns.DeadForever | src/modules/auth/auth.service.ts:94-119 | a family with no active session and no rotation in flight never has an active session again |
| SessionRuns.KillIsFinalIff | src/modules/auth/auth.service.ts:94-102 | revoking a family keeps it dead over every continuation if and only if no rotation of it stood between its claim and its create |
| SessionRuns.RevivableIff | src/modules/auth/auth.service.ts:88-136 | in every reachable state a family has an active session, now or over some continuation, if and only if it has one now or a rotation of it is between claim and create |
| SessionRuns.ForgottenReplay | src/modules/auth/auth.service.ts:94-101 | a detected replay whose call dies before the revoking write leaves every session and every other call as it was |
| SessionRuns.DetectedReuseCanBeForgotten | src/modules/auth/auth.service.ts:94-101 | so the family need not end either when no rotation is in flight: a concrete run whose live session outlasts the dead detection |
| SessionRuns.ReuseCanBeOutlived | src/modules/auth/auth.service.ts:95-101 | so killing the whole chain can fail: a concrete run in which a session created after the kill lives on |
| SessionRuns.RotationCompletes | src/modules/auth/auth.service.ts:88-136 | a live token left alone is exchanged for a new active one of the same owner and family, from any state |
| SessionRuns.ReplayIsCaught | src/modules/auth/auth.service.ts:94-102 | showing a revoked token revokes every active session of its family, and of no other |
| SessionLaws.LogoutRevokesOwn | src/modules/auth/auth.service.ts:139-144 | a logout of one's own session leaves it revoked, at the earlier time if it was, and changes no other row |
| SessionLaws.LogoutIgnoresOthers | src/modules/auth/auth.service.ts:141-142 | a logout of a token that is unknown or someone else's changes nothing |
| SessionLaws.LogoutsAreTheOwners | src/modules/auth/auth.service.ts:139-144 | over every run, a logout about to revoke was asked for by the owner of that session |
| SessionLaws.RevokedIsNeverRotated | src/modules/auth/auth.service.ts:88-119 | once a token is revoked no rotation of it begun later is ever on its way to a claim, and none begun earlier gets one |
| SessionLaws.RotationBegins | src/modules/auth/auth.service.ts:88-107 | showing a token leads nowhere if it is unknown or expired, to the revocation of its family if revoked, and else to its owner being loaded |
| SessionLaws.RotationTurns | src/modules/auth/auth.service.ts:107-119 | a rotation whose user is gone or whose claim comes late turns to revoking its family |
| SessionLaws.SignInMakesOne | src/modules/auth/auth.service.ts:64-78 | signing in makes one active session, the only one of its family |
| SessionLaws.UserIsSignedOut | src/modules/auth/refresh-session.repository.ts:51-56 | exactly the user's live sessions are revoked |
| SessionLaws.FamilyIsRevoked | src/modules/auth/refresh-session.repository.ts:44-49 | exactly the family's live sessions are revoked |
| SessionBackend.StepFollows | src/modules/auth/auth.service.ts:88-146 | one event of the protocol on a call that is alone is that call going on by one await |
| SessionBackend.AuthService.Create | src/modules/auth/refresh-session.repository.ts:12-14 | adds an active session |
| SessionBackend.AuthService.ClaimRow | src/modules/auth/refresh-session.repository.ts:28-34 | revokes and names the successor in one write, only of an unrevoked session, and says whether it did |
| SessionBackend.AuthService.RevokeRow | src/modules/auth/refresh-session.repository.ts:36-41 | revokes one session, keeping the time of an earlier revocation |
| SessionBackend.AuthService.RevokeFamilyRows | src/modules/auth/refresh-session.repository.ts:44-49 | revokes exactly the unrevoked sessions of the family |
| SessionBackend.AuthService.RevokeAll | src/modules/auth/refresh-session.repository.ts:51-56 | revokes exactly the unrevoked sessions of the user |
| SessionBackend.AuthService.IssueTokenPair | src/modules/auth/auth.service.ts:64-86 | a sign-in makes a family of one active session |
| SessionBackend.AuthService.RotateRefreshToken | src/modules/auth/auth.service.ts:88-136 | does the find, claim, create or kill of the protocol in order, a logout landing before its claim included; succeeds exactly for a live token of a found user that nobody revoked first |
| SessionBackend.AuthService.Logout | src/modules/auth/auth.service.ts:139-144 | revokes a session for its owner only |
| CatalogueRuns.StepKeeps | src/modules/admin/service-change.repository.ts:88-128 | every call keeps the tables agreeing: one open request per service, open exactly while pending, a service unapproved exactly while its open request is for a new service, no open price change asking for the live price, nothing online while inactive, categories of the right vertical |
| CatalogueRuns.Reachable | src/modules/admin/service-change.repository.ts:88-182 | so they agree after every run |
| CatalogueRuns.DecidedForever | src/modules/admin/admin.repository.ts:64-69 | no later call changes or deletes a decided request; deleting its service takes only the service id off it |
| CatalogueRuns.DecidedOnce | src/modules/admin/service-change.repository.ts:164-182 | a request is decided by exactly one landed decision, and only a decision decides it |
| CatalogueRuns.DecisionsRecordAChange | src/modules/admin/admin-approvals.service.ts:90-103 | a decided price change records the same name and tile before and after and two different prices, and is closed with who decided and when |
| CatalogueRuns.PriceMovesByApproval | src/modules/admin/admin-approvals.service.ts:105-110 | an approved service's price changes only in a step that approves its own waiting price change, and to that price |
| CatalogueRuns.AuditChain | src/modules/admin/admin-approvals.service.ts:76-125 | along the decisions of a service, each records as its before price the price last approved until then (none for a new service), rejected ones too; the live price is the price last approved; and the records are the rows still in the table, each under an id of its own |
| CatalogueRuns.MergeIsFold | src/modules/admin/admin-catalog.service.ts:128-143 | the waiting price, or the live one if none waits, is always the live price with every price edit since the last rejection laid over it field by field, through upserts, withdrawals and approvals |
| CatalogueRuns.EditMerges | src/modules/admin/admin-catalog.service.ts:129-142 | a price edit moves what is pending by exactly the fields it gives, whether it files, replaces or withdraws a request, and moves the live price only of an unapproved service |
| CatalogueRuns.DecisionSettles | src/modules/admin/admin-approvals.service.ts:90-113 | a decision leaves nothing waiting; approving makes live exactly what was waiting, rejecting leaves the live price |
| CatalogueRuns.FoldIsMerge | src/modules/admin/service-terms.ts:27-34 | a fold of partial edits is one edit with the last word on each field |
| CatalogueLaws.EachFigureMoves | src/modules/admin/admin-catalog.service.ts:116-143 | a landed edit gives each of the four pending figures the value it names for that one and leaves the others; likewise the live ones while unapproved, and none of them once approved |
| CatalogueLaws.PendingIsLastGiven | src/modules/admin/admin-catalog.service.ts:128-143 | over every run each pending figure is the one an edit last gave for it since the last rejection, or else the live one |
| CatalogueLaws.CreateLands | src/modules/admin/admin-catalog.service.ts:74-98 | a draft is saved as asked, hidden, online only if active, exactly for a vertical and tile the admin runs, and its request asks for just that |
| CatalogueLaws.UpdateLands | src/modules/admin/admin-catalog.service.ts:106-126 | when an edit lands and why not; what it names is saved, what it does not stays, offline follows inactive, and no other service is touched |
| CatalogueLaws.QuietEditFilesNothing | src/modules/admin/admin-catalog.service.ts:116-128 | the requests stay unless the service is approved and the edit names a figure |
| CatalogueLaws.PriceEditFiles | src/modules/admin/service-change.repository.ts:106-128 | naming a figure leaves a request open exactly when what is then pending is not live: under the open one's id or a new one, of the new terms, by this admin, from now |
| CatalogueLaws.DeleteLands | src/modules/admin/admin-catalog.service.ts:147-153 | when deleting lands; the open request goes and decided ones lose only the service id |
| CatalogueLaws.DecideLands | src/modules/admin/admin-approvals.service.ts:76-117 | a decision lands exactly on a pending request, records who, when, why, the live terms and the requested ones, and shows, reprices, removes or leaves the service accordingly |
| CatalogueBackend.Catalog.OpenRequest | src/modules/admin/service-change.repository.ts:81-87 | finds the one request open for a service |
| CatalogueBackend.Catalog.RequestPriceChange | src/modules/admin/service-change.repository.ts:106-125 | replaces the waiting request, keeping its id and kind, or files a new one |
| CatalogueBackend.Catalog.WithdrawRequest | src/modules/admin/service-change.repository.ts:126-128 | deletes exactly what is open for the service |
| CatalogueBackend.Catalog.Claim | src/modules/admin/service-change.repository.ts:168-182 | records a decision only on a pending request, closing it in the same write |
| CatalogueBackend.Catalog.DeleteRow | src/modules/admin/admin.repository.ts:64-69 | deletes a service with its open request and keeps the decided ones |
| CatalogueBackend.Catalog.CreateService | src/modules/admin/admin-catalog.service.ts:74-98 | saves a hidden service with its request, or refuses for the vertical or the category and changes nothing |
| CatalogueBackend.Catalog.UpdateService | src/modules/admin/admin-catalog.service.ts:100-145 | saves straight away what may be, and files, merges or withdraws the price change; a refusal changes nothing |
| CatalogueBackend.Catalog.DeleteService | src/modules/admin/admin-catalog.service.ts:147-153 | deletes a service within the caller's verticals |
| CatalogueBackend.Catalog.DecideRequest | src/modules/admin/admin-approvals.service.ts:76-117 | claims, snapshots and applies one decision; a second one, or one whose service is gone, is refused |
| OtpRuns.StoreRefines | src/modules/auth/otp.service.ts:61-125 | after every run the three keys of a phone hold exactly what a machine with one value, the last delivered code with its time, wrong guesses and use, says |
| OtpRuns.IssueAnswers | src/modules/auth/otp.service.ts:62-66 | a code is refused exactly during the cooldown of the last delivered one, with the seconds left |
| OtpRuns.VerifyAnswers | src/modules/auth/otp.service.ts:108-125 | a guess signs in exactly when it is the last delivered code, in time, unused, and guessed wrong fewer than five times; and which error is given otherwise |
| OtpRuns.StoredCodeHasGuessesLeft | src/modules/auth/otp.service.ts:115-122 | a stored code has fewer than five recorded failures |
| OtpRuns.FailedSmsLeavesNothing | src/modules/auth/otp.service.ts:92-102 | an issue whose message failed leaves no code, cooldown or failures, and asking again is not blocked |
| OtpRuns.DeliveriesPay | src/modules/auth/otp.service.ts:107-125 | over any run every delivered code buys at most five comparisons and one sign-in |
| OtpRuns.DeliveriesTakeTime | src/modules/auth/otp.service.ts:61-78 | deliveries to a phone are at least a cooldown apart |
| OtpRuns.DeliveryBudget | src/modules/auth/otp.service.ts:61-78 | in T seconds a phone gets at most T / cooldown + 1 codes |
| OtpRuns.GuessBudget | src/modules/auth/otp.service.ts:16-20 | in T seconds from an empty store a phone gets at most 5 * (T / cooldown + 1) code comparisons, and no more sign-ins than codes |
| OtpRuns.CodeSignsInOnce | src/modules/auth/otp.service.ts:124 | after a code has signed someone in nothing signs in until another is asked for, whatever else happens |
| OtpLaws.CodeLastsFor | src/modules/auth/otp.service.ts:108-125 | a delivered code not used or replaced signs in, whatever else happens, exactly while less than its lifetime has passed and fewer than five wrong guesses were made |
| OtpLaws.WrongGuessesAnswer | src/modules/auth/otp.service.ts:115-122 | the fifth wrong guess in time is told so, the four before it are merely wrong, and any later one finds no code |
| OtpLaws.AskingAgain | src/modules/auth/otp.service.ts:61-66 | another code is refused, with the seconds to wait, exactly while less than the cooldown has passed |
| OtpLaws.FirstCode | src/modules/auth/otp.service.ts:68-104 | a code is delivered to a test phone always and to any other exactly if its message went |
| OtpBackend.OtpService.Issue | src/modules/auth/otp.service.ts:61-105 | the store commands of issuing, in order, come to the issue of the protocol, undone when the message fails |
| OtpBackend.OtpService.Verify | src/modules/auth/otp.service.ts:108-125 | the store commands of verifying come to the verify of the protocol |
| OtpBackend.OtpService.Increment | src/modules/auth/otp.service.ts:116 | counts a missing key from zero and keeps its expiry |
| AdOrderRuns.StepKeeps | src/modules/marketplace/ad-orders.service.ts:144-181 | every step of interleaved sellers, buyers and admins with stale reads keeps stamps and statuses together, and moves an order only along the seller's table |
| AdOrderRuns.OrdersFollowTheTable | src/modules/marketplace/ad-orders.service.ts:30-42 | the statuses an order has had are one of five journeys: new, in progress, completed, with a cancel from the first two only |
| AdOrderRuns.OnlyAllowedMovesLand | src/modules/marketplace/ad-orders.repository.ts:69-80 | an order changes only by a write whose caller read the status it still has and may make that move; a buyer's is always the cancel of a new order |
| AdOrderRuns.StampsInOrder | src/modules/marketplace/ad-orders.service.ts:169-174 | created, accepted, completed and cancelled times are present exactly as the status says and never run back |
| AdOrderRuns.OneConversation | src/modules/marketplace/ad-orders.service.ts:71-80 | all along a run a buyer has at most one enquiry about a listing, open or being made, if and only if no tap of theirs is let through while an earlier one is still being made |
| AdOrderRuns.SecondTalkIff | src/modules/marketplace/ad-orders.service.ts:75-80 | in one step a second one arises from at most one exactly by such a tap |
| AdOrderRuns.TwoTalksIffOverlap | src/modules/marketplace/ad-orders.service.ts:71-80 | in every reachable state two open enquiries can come of it without another tap if and only if two are open or being made |
| AdOrderRuns.OverlapMakesTwo | src/modules/marketplace/ad-orders.service.ts:71-80 | two enquiries checked before either was created are both created |
| AdOrderRuns.TapsMakeTwo | src/modules/marketplace/ad-orders.service.ts:71-80 | a concrete run in which a buyer who taps twice ends with two open enquiries about one listing |
| AdOrderLaws.OnlyThePartiesMove | src/modules/marketplace/ad-orders.service.ts:150-181 | over every run an order changes only because its seller, or a judged moderator who is no party to it, asked for a step forward or a cancel of unfinished work, or its buyer for the cancel of a new order |
| AdOrderLaws.SetStatusAlone | src/modules/marketplace/ad-orders.service.ts:144-181 | a change left alone lands exactly when the user may make it, with the stamp of its milestone and nothing else changed |
| AdOrderLaws.WriteSaysIfItMoved | src/modules/marketplace/ad-orders.repository.ts:69-80 | the conditional write says that it moved the order exactly when it found the status read, and then it did, and no other order |
| AdOrderLaws.LateMoveIsVoid | src/modules/marketplace/ad-orders.repository.ts:69-80 | a write that finds another status than was read changes nothing |
| AdOrderLaws.PlaceAlone | src/modules/marketplace/ad-orders.service.ts:56-109 | an order of someone else's active listing is new, at price times quantity or for nothing if an enquiry, unless an enquiry is open; nothing else is placed |
| AdOrderLaws.PriceIsTheOneRead | src/modules/marketplace/ad-orders.service.ts:82-96 | what is charged is the price read, however the listing changes before the order is stored |
| AdOrderTimeline.TimelineIsReal | src/modules/orders/orders.mapper.ts:20-69 | on every reachable order a step has a real time exactly when it is done, the time of its own milestone; done steps come first, the active one follows them, and times never run back |
| AdOrderBackend.StepFollows | src/modules/marketplace/ad-orders.service.ts:56-199 | one event of the protocol on a call that is alone is that call going on by one await |
| AdOrderBackend.AdOrdersService.FindOpenEnquiry | src/modules/marketplace/ad-orders.repository.ts:52-63 | the newest enquiry of the buyer about the listing that is not cancelled, and none exactly when there is none |
| AdOrderBackend.AdOrdersService.UpdateRow | src/modules/marketplace/ad-orders.repository.ts:69-80 | moves and stamps a row exactly when its status equals the one read |
| AdOrderBackend.AdOrdersService.Place | src/modules/marketplace/ad-orders.service.ts:56-109 | orders an active listing of someone else at its price then, or reopens the enquiry; and exactly when it is refused |
| AdOrderBackend.AdOrdersService.SetStatus | src/modules/marketplace/ad-orders.service.ts:144-181 | succeeds exactly for an allowed move of the caller that no rival write came before |
| AssignmentRuns.StepKeeps | src/modules/admin/admin-bookings.service.ts:91-212 | every call keeps bookings and professionals consistent: references exist and stay in the company, confirmed work is assigned, categories are tiles, phones are normalised |
| AssignmentRuns.JobsAreAssigned | src/modules/admin/admin-catalog.service.ts:393-404 | after every run each confirmed or started booking names an existing professional of its own company |
| AssignmentRuns.JobsCanStart | src/modules/admin/admin-bookings.service.ts:146-183 | so starting a confirmed job never finds nobody assigned, and resending works exactly for confirmed and started bookings |
| AssignmentRuns.ApprovedContactStands | src/modules/admin/admin-catalog.service.ts:349-385 | an approved professional's phone and email are exactly those in force when the super admin last approved them |
| AssignmentRuns.CopiedPhoneWasApproved | src/modules/admin/admin-bookings.service.ts:122-128 | the number copied on an assigned booking is one the super admin had approved for that professional |
| AssignmentRuns.JobsGoToApproved | src/modules/admin/admin-bookings.service.ts:106-134 | an assignment that succeeds copies the phone last approved, of a professional of the company who does the category, and touches no other booking |
| AssignmentRuns.ResendToApproved | src/modules/admin/admin-bookings.service.ts:150-158 | in every reachable state resending goes to the phone last approved if and only if no edit since has given another; so it does while the professional is approved |
| AssignmentRuns.EditKeepsApprovedPhoneIff | src/modules/admin/admin-catalog.service.ts:364-383 | an edit of an approved professional leaves their jobs resent to the phone last approved if and only if it gives no phone or the one they have |
| AssignmentRuns.PhoneIsLastGiven | src/modules/admin/admin-catalog.service.ts:364-379 | a professional once approved has the phone then approved or the one last given since |
| AssignmentRuns.ResendCanReachUnapproved | src/modules/admin/admin-catalog.service.ts:349-353 | but a changed phone waiting for approval is used all the same: a concrete run resends a job to a number nobody approved |
| AssignmentLaws.HireLands | src/modules/admin/admin-catalog.service.ts:329-345 | a professional is added waiting, with a normalised phone, exactly for tiles of verticals the admin runs |
| AssignmentLaws.EditLands | src/modules/admin/admin-catalog.service.ts:354-385 | when an edit lands; it saves what it names, and sends back to waiting a rejected professional always and an approved one exactly when phone or email differs |
| AssignmentLaws.DismissLands | src/modules/admin/admin-catalog.service.ts:393-404 | a professional goes exactly when no confirmed or started booking names them; bookings forget only the id |
| AssignmentLaws.DecideLands | src/modules/admin/professional-approvals.repository.ts:52-63 | a decision lands exactly on one who is waiting and says who, when and why |
| AssignmentLaws.AssignLands | src/modules/admin/admin-bookings.service.ts:91-128 | when an assignment lands and each reason it does not; the booking is confirmed with the professional's name and phone and the time it first was |
| AssignmentLaws.MoveLands | src/modules/admin/admin-bookings.service.ts:162-192 | the three moves an admin has and the stamp each leaves |
| AssignmentLaws.ResendTells | src/modules/admin/admin-bookings.service.ts:139-160 | when a job is resent, to the professional's own number, and each reason it is not |
| AssignmentLaws.E164Form | src/modules/admin/admin-catalog.service.ts:514-517 | a plus, the Indian code for ten digits, and the digits |
| AssignmentLaws.OnlyDigitsCount | src/modules/admin/admin-catalog.service.ts:514-517 | of a number exactly its ten digits count |
| AssignmentRuns.E164Again | src/modules/admin/admin-catalog.service.ts:514-517 | normalising a phone number twice is normalising it once |
| AssignmentRuns.SameNumber | src/modules/admin/admin-catalog.service.ts:514-517 | two spellings become one number exactly when their digits agree, the Indian country code aside |
| AssignmentBackend.CompanyDesk.CreateProfessional | src/modules/admin/admin-catalog.service.ts:329-347 | adds a professional waiting for approval, or refuses an unknown category |
| AssignmentBackend.CompanyDesk.UpdateProfessional | src/modules/admin/admin-catalog.service.ts:354-385 | saves the edit, and asks for approval again when the contact of an approved one changed or a rejected one is edited |
| AssignmentBackend.CompanyDesk.HasActiveAssignments | src/modules/admin/admin.repository.ts:182-190 | whether a confirmed or started booking names the professional |
| AssignmentBackend.CompanyDesk.DeleteProfessional | src/modules/admin/admin-catalog.service.ts:393-404 | removes a professional with no job to do and takes them off finished bookings |
| AssignmentBackend.CompanyDesk.DecideProfessional | src/modules/admin/professional-approvals.service.ts:40-57 | decides only a professional who is waiting |
| AssignmentBackend.CompanyDesk.AssignProfessional | src/modules/admin/admin-bookings.service.ts:91-128 | confirms or reassigns with every check in order; a refusal changes nothing |
| AssignmentBackend.CompanyDesk.SetStatus | src/modules/admin/admin-bookings.service.ts:162-192 | moves along the admin's table and stamps the move; never refused for want of a professional |
| AdAttributes.ValidateAdAttributes | src/modules/marketplace/ad-attributes.ts:115-171 | the loop over what was sent comes to the specified result: nothing, the cleaned bag, or every problem |
| AdAttributes.PassesIffFits | src/modules/marketplace/ad-attributes.ts:174-200 | a value passes exactly when it is of its field's kind and within the field's bounds and choices, lengths counted in UTF-16 units |
| AdAttributes.PlacesAreExact | src/modules/marketplace/ad-attributes.ts:144 | the chosen places of a bag are listed once each, in order, with none missed |
| AdAttributes.ProblemsAreTheFaults | src/modules/marketplace/ad-attributes.ts:141-169 | the problems are exactly the entries that are unknown or fail, in the order sent, each with its reason |
| AdAttributes.CleanedIsTheRest | src/modules/marketplace/ad-attributes.ts:152-164 | what is kept is exactly the entries with an allowed value, in the order sent |
| AdAttributes.AcceptsExactly | src/modules/marketplace/ad-attributes.ts:115-171 | accepted exactly when every key is known and every value that is not null is allowed; a category without details accepts only an empty bag |
| AdAttributes.AcceptedIsStorable | src/modules/marketplace/ad-attributes.ts:105-114 | what is accepted holds only known keys with allowed values and no null, and an empty result is null |
| AdAttributes.StorableIffStable | src/modules/marketplace/ad-attributes.ts:105-114 | a stored value is valid for a category if and only if validating it gives it back |
| AdAttributes.ValidatingAgain | src/modules/marketplace/ad-attributes.ts:105-114 | so a validated result revalidates to itself |
| ListingRuns.StoredDetailsFit | src/modules/marketplace/marketplace.service.ts:149-189 | after any creates, edits and category changes the stored details are null or valid for the stored category, unless an edit that moves the category is written while another is prepared |
| ListingRuns.DetailsFitIff | src/modules/marketplace/marketplace.service.ts:149-189 | all along a run the details fit and no edit in flight can change that, if and only if no edit of the listing is let through that clashes with one in flight |
| ListingRuns.OneByOneNeverOvertakes | src/modules/marketplace/marketplace.service.ts:149-189 | which never happens when each edit is written right after its read |
| ListingRuns.OvertakenEditsCanMismatch | src/modules/marketplace/marketplace.service.ts:152-165 | and can otherwise: between any two categories a run of two overlapping edits leaves details of the first on a listing of the second |
| ListingRuns.LateEditsSafeIff | src/modules/marketplace/marketplace.service.ts:149-185 | an edit written later than its read is safe whatever it asks, if and only if the listing still has the category it was read with, or that one takes no details and the listing has none |
| ListingRuns.MismatchNeedsTwo | src/modules/marketplace/marketplace.service.ts:149-189 | however many edits of a listing are in flight and in whatever order they land or die, they can mismatch it if and only if one of them, or two in one order, can |
| ListingRuns.PreparedIsSound | src/modules/marketplace/marketplace.service.ts:155-165 | an edit checked against a sound listing leaves it sound, with details given, dropped or kept |
| ListingBackend.Marketplace.Create | src/modules/marketplace/marketplace.service.ts:124-147 | stores a listing with validated details, or every problem and no listing |
| ListingBackend.Marketplace.Update | src/modules/marketplace/marketplace.service.ts:149-189 | changes only what is given, details against the category the listing will have; keeps every listing sound |
| ListingBackend.Marketplace.Remove | src/modules/marketplace/marketplace.service.ts:191-194 | hides a listing for its owner or a moderator and changes nothing else |
| ListingLaws.CreateLands | src/modules/marketplace/marketplace.service.ts:124-147 | a listing is created as asked exactly with details its category accepts |
| ListingLaws.UpdateBegins | src/modules/marketplace/marketplace.service.ts:149-185 | an edit is prepared exactly for the seller or a moderator with details the category after it accepts, and will write what it gives, or clear the details when only the category moves |
| ListingLaws.WrittenLands | src/modules/marketplace/marketplace.service.ts:167-186 | writing replaces what the edit carries and nothing else |
| ListingLaws.RemoveLands | src/modules/marketplace/marketplace.service.ts:191-214 | a listing is removed exactly for its seller or a moderator, and keeps what it said |
| ListingLaws.NumberAndListFields | src/modules/marketplace/ad-attributes.ts:72-100 | seats, deposits and lists of what is included are accepted exactly within their figures |
| ListingLaws.ChoiceFields | src/modules/marketplace/ad-attributes.ts:50-100 | chosen text is accepted exactly when it is one of its choices |
| ListingLaws.TextFields | src/modules/marketplace/ad-attributes.ts:72-100 | free text is accepted exactly up to forty units |
| ListingLaws.StoredIsSent | src/modules/marketplace/ad-attributes.ts:144-170 | what is stored of accepted details is what was sent less the nulls |
| AreaMatching.MatchAreaIsRight | src/modules/home-services/home-services.rules.ts:136-151 | the nearest area covering the pin, earliest of equals, if any covers it; else the first area whose pincode is a word of the text; none exactly when there is neither |
| AreaMatching.PincodesAreWords | src/modules/home-services/home-services.rules.ts:149 | what the pattern search finds is exactly the words of exactly six digits |
| AreaMatching.TheWordChars | src/modules/home-services/home-services.rules.ts:149 | the characters that make words: ten digits, the letters of both cases and the underscore |
| AreaMatching.NearestComesFirst | src/modules/home-services/home-services.rules.ts:142-147 | filtering, measuring and stable sorting put in front a covering area that none is nearer than, and none as near comes before |
| AreaMatching.FirstNamedIsFirst | src/modules/home-services/home-services.rules.ts:149-150 | the first area whose pincode is in the text, and none exactly when no area's is |
| PushBatching.PushService.SendToTokens | src/push/push.service.ts:115-129 | the batches sent are those of the distinct tokens; sent and failed add up to them; sent and dead are the tokens whose own answers say so; disabled or empty sends nothing |
| PushBatching.PushService.SendBatch | src/push/push.service.ts:131-165 | adds one answer to the result; a batch that fails counts all its tokens failed and none dead |
| PushBatching.UniqueHasEach | src/push/push.service.ts:116 | the tokens sent to are exactly the non-empty ones, each once |
| PushBatching.UniqueInOrder | src/push/push.service.ts:116 | in the order they are first seen |
| PushBatching.BatchesCover | src/push/push.service.ts:124-127 | batches are not empty, at most 500 long, as few as that allows, and concatenate to the tokens |
| PushBatching.FateOfEach | src/push/push.service.ts:124-159 | a token's fate is what the answer to its own batch says at its own place |
| PushBatching.DeadAreTheDead | src/push/push.service.ts:151-159 | a token is reported dead exactly when a returned batch rejected it with a dead-token code |
| PushBatching.DeadTokensAre | src/push/push.service.ts:12-20 | the tokens reported dead are exactly those that the returned answer to their own batch of 500 rejected with one of the three codes, each named |
| PushBatching.AnswersMean | src/push/push.service.ts:148-164 | a token is lost with its batch, sent if so answered, dead if rejected with one of the three codes |
| PushBatching.NoneOfTheLost | src/push/push.service.ts:160-164 | when a batch fails as a whole none of its tokens is sent or dead |

## Left out

- HTTP, routing, guards, validation decorators, logging, notifications, WhatsApp and SMS delivery, sockets, storage and configuration: plumbing around the calls.
- The gateway, the message services and the queue are an environment that answers anything its documentation allows; the gateway never changes a payment's order, amount or currency, moves statuses forward, and refuses refunds past what it captured. Refunds made by hand at its dashboard are not modelled.
- Signatures, token hashes, random codes and generated ids: a signature is valid or not, and new values never repeat old ones. A session's row id is not apart from its token hash.
- All processes and the database's default read one clock that never runs back; the stamps of orders rest on that.
- AdAttributes.PassesIffFits: text is made of whole characters, so an unpaired half of one, which the source's strings can hold, is not modelled.
- A database write either happens or fails; one whose outcome is unknown is not modelled. A payment row that could not be created does not exist.
- The job queue: three attempts as configured and, since the worker sets no options, one stall, the documented default; an outcome given without the job's lock is void. Its delays, its clean-up of old jobs and retries by hand are not modelled.
- Floating point and decimals: amounts are whole paise, distances come from an arbitrary measure, and a discount percentage is a whole number.
- What becomes of a refund the gateway fails, of a job that is given up, or of a refund webhook that comes before the refund id is stored: the row stays waiting, as in the source.
- Legacy bookings that were confirmed without a payment row.
- Assigning, starting and completing are one step each, as are the calls of the catalogue, passcodes and professionals: the code does not guard these reads and writes against each other. The payment model leaves the professional of a job to the assignment model.
- PaymentBackend.Backend.Book: takes the total as given; BookingDesk.BookService puts the checks and the bill before it.
- BookingDesk.BookService: the code, address text, time slot and contact copied onto the row are not modelled, nor is the trimming of a typed code; that a code was typed is a parameter.
- CatalogueBackend.Catalog.CreateService: the counts of open bookings and the row shown to the admin are not part of it.
- OtpBackend.OtpService.Issue: the choice of a random code of six digits is a parameter.
- AdOrderBackend.AdOrdersService.Place: the order's contact, schedule, deposit, fees and note are not modelled, nor is the note to the seller.
- AdOrderBackend.AdOrdersService.SetStatus: whether the caller moderates the category is a parameter.
- AssignmentBackend.CompanyDesk.CreateProfessional: trimming names and lower-casing emails happens before the model; experience is not modelled.
- ListingBackend.Marketplace.Update: description, price, images and place of a listing are not modelled.
- AdAttributes.ValidateAdAttributes: names that objects inherit in the source's lookup, such as those every object has, are not keys here; problems carry a reason instead of the sentence shown.
- PushBatching.PushService.SendToTokens: the gateway's counts are those of its responses, one per token, as its library promises; the message itself is not modelled.
- AreaMatching.MatchAreaIsRight: which areas are active for a vertical is decided before it.
- Deleting a company with its professionals and bookings, deleting users, and the staff accounts.
- Counters, wishlists, addresses, chat, pagination, dashboards, labels and seed data: easy members.
