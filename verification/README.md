# Reservation model

A Dafny 4.11 model of the booking back end: slot locks, bookings and reschedule requests over one shared
capacity per service; the availability engine; the rating summary kept by a trigger; payment intents and
webhooks. Run `dafny verify dfyconfig.toml` to check all of it.

## How it is laid out

| file | holds |
|---|---|
| `Sums.dfy` | sums over table rows |
| `Tables.dfy` | the rows and the store |
| `Occupancy.dfy` | what a window holds (the overlap sums of the SQL) and what an instant carries (`Load`) |
| `Lifecycle.dfy` | each call of the bookings service as a guard that names the error and an effect; `Run` folds calls |
| `BookingService.dfy` | the repository and the service as classes whose methods change the tables step by step, each proved equal to its call in `Lifecycle` |
| `Chains.dfy`, `StatusRelation.dfy`, `Locks.dfy` | reschedule chains, pending proposals, attempt counter, the exact status relation, the life of a lock |
| `Capacity.dfy`, `CapacityLimits.dfy`, `SelfCount.dfy` | capacity at every instant, the exact condition on `CreateBooking`, and what counting oneself does to `Approve` |
| `Examples.dfy`, `OverlapTest.dfy` | reachable stores built call by call; for which windows the overlap test is exact and a held window keeps its room |
| `Terms.dfy`, `Attempts.dfy`, `Acceptance.dfy` | what a booking keeps of the order it came from, who may act on it and what each act leaves; how often one may ask to reschedule; what each capacity check lets through, instant by instant |
| `Interleaving.dfy`, `RowLocks.dfy` | concurrent approvals and rejections statement by statement, and what the row locks guarantee |
| `RaceFree.dfy`, `Overbooking.dfy` | what the row locks do not guarantee: when concurrent approvals keep capacity, exactly |
| `Serializability.dfy`, `SerialSchedules.dfy` | when concurrent approvals and rejections leave what a serial order of those calls leaves, for one schedule and for all, exactly |
| `Availability.dfy` | slot generation, occupancy loops, the day listing, the conflict check, and agreement with locking |
| `Ratings.dfy` | the rating trigger against a recount |
| `Payments.dfy` | payment invariants and webhook folding |

A row's id is its position in its table, that is, its creation order. Times are whole seconds on one clock that
only moves forward; `now()` and `time.Now()` read the same clock. A serial run is a sequence of calls, each run to
completion; a reachable store is one that such a run leaves, from empty tables, when every lock and booking asks for
at least one, as the request binding demands, and every booking for no more than its lock reserved. Requests arrive
already parsed. A booking row that ends before it starts is refused, as the range index on the table does. Who owns a
branch is a fixed map.
Rollback is modelled as restoring the tables read when the transaction began.

## What the code does that its documents do not say

The model follows the code. These departures are proved, each with its exact condition or a concrete run:

- `CreateBooking` takes window and quantity from the request, not from the lock. It is safe for every reachable
  store exactly when the request asks for no more than the lock reserved (`CreateIsSafeExactlyWithinLock`); the
  capacity theorem is stated for runs whose requests do.
- `Approve` weighs the booking against itself, so it needs room for twice the quantity. This agrees with the re-check
  its comment describes exactly when the window is empty or the quantity zero (`RecheckFaithfulExactlyWhen`); a
  service of capacity one never confirms a booking with a nonempty window (`CapacityOneNeverConfirms`).
- Cancelling leaves a pending reschedule request in place, and approving it later still works, so
  cancelled → rescheduled is an edge of the status relation (`CancelledCanBeRescheduled`). ADR-002 knows only
  confirmed → rescheduled.
- A reschedule rejection reads the status without a lock and writes it unconditionally, so a request can end
  'rejected' although its successor is booked (`LateRejectionOverwritesApproval`). An approved request stays approved
  through every continuation exactly when no rejection of it is between its check and its write
  (`ApprovalStandsExactly`).
- The approval transaction locks its request and its booking but not the service, so two approvals that both check
  before either commits can overbook a store that a serial run leaves (`RaceOverbooks`). Any number of approvals of one
  service are safe together on every reachable store exactly when no instant lies in two of their new windows
  (`SafeTogetherExactly`); then every interleaving keeps capacity (`NonCompetingApprovalsKeepCapacity`).
- Even then a schedule need not leave what some serial order of the calls leaves: it does exactly when no committed
  approval was overwritten (`SerializableExactly`), and every schedule of a starting system does exactly when no request
  has both an approval and a rejection such that the approval passes after calls of some others
  (`AlwaysSerialExactly`).
- The overlap test sums every row that overlaps the window, so it can refuse what fits at every instant, and a booking
  can lose the room it holds. It does neither on reachable stores exactly when the window is nonempty and no two held
  windows that overlap it keep apart from each other (`TestIsExactExactlyWhen`, `RoomKeptExactly`); a timetable of
  equal or disjoint windows is such a case (`TimetableIsExact`).
- The listing ignores the capacity of a 'single' service and locking ignores the capacity type; for services with a
  positive step and duration, the slots they generate are listed as they can be locked, in every reachable store,
  exactly when the service is multi or has capacity one. The schema allows other steps and durations; the exact
  condition covers them too (`ListingAgreesExactly`).
- Slot generation does not end when the step is not positive and the first slot fits (`GenerationEndsExactly`).
- The third flag on a removed review overwrites 'removed' (`ThreeFlagsRevive`). The rating summary equals a recount all
  through a run exactly when no call does that (`SummaryIsRecountExactly`). No code of the repository writes 'removed';
  ADR-003 leaves it to moderation, which the model has as a status change of its own.
- Nothing stops a second refund of one intent (`TwoRefunds`). A run leaves at most one refund row per intent exactly
  when no refund goes through on an intent that already has one (`RefundedOnceExactly`).

## Model

| member | source | states |
|---|---|---|
| Capacity.CapacityAtEveryInstant | internal/bookings/service.go:26-93 | over every serial run whose bookings ask for no more than their locks, no instant of any service carries more than its capacity in active bookings and live locks |
| Capacity.SafeKept | internal/bookings/service.go:26-315 | every call, and the passing of time, keeps each instant within capacity, provided a CreateBooking stays within its lock |
| Capacity.LoadAfterReschedule | internal/bookings/repository.go:226-314 | a committed reschedule changes the load of each instant by minus the original's share, if it was active, plus the new window's |
| Capacity.LoadAfterCall | internal/bookings/service.go:26-315 | what each call does to the load of each instant: a grant adds, a booking takes over from its lock, a rejection or cancellation gives back, a move gives back and adds, nothing else changes it |
| Capacity.LoadAfterTick | internal/bookings/repository.go:461-497 | the passing of time takes away exactly the locks that expire in it |
| Capacity.RescheduleKeepsSafe | internal/bookings/repository.go:517-562 | passing the self-excluding overlap test in the transaction is enough to keep every instant within capacity |
| CapacityLimits.CreateIsSafeExactlyWithinLock | internal/bookings/service.go:55-93 | turning a lock the service can grant into a booking is safe in every reachable store if and only if the request stays inside the lock's window and quantity (or occupies no instant) |
| CapacityLimits.AcceptedMeansRoomEverywhere | internal/bookings/repository.go:461-497 | a quantity the overlap test accepts fits at every instant of the window, whatever the windows of the rows |
| OverlapTest.TestIsExactExactlyWhen | internal/bookings/repository.go:461-497 | in all reachable stores of a service that holds windows of a given collection only, the test accepts what fits at every instant if and only if the queried window is nonempty and no two windows of the collection that overlap it keep apart |
| OverlapTest.RoomKeptExactly | internal/bookings/repository.go:517-562 | in all such stores the self-excluding re-check of an active booking's own window passes if and only if that window is nonempty and no two windows that overlap it keep apart (no booking holds a window that ends before it starts) |
| OverlapTest.ApartTakeRoom | internal/bookings/repository.go:517-562 | for any held window, any positive quantity and any two windows that overlap it but not each other, some reachable store, within capacity at every instant, refuses the booking its own window |
| OverlapTest.TimetableIsExact | internal/bookings/repository.go:461-562 | on a timetable of nonempty windows that are equal or disjoint the overlap sum is exact and every held window keeps its room |
| SelfCount.ApproveAcceptsExactly | internal/bookings/service.go:115-145 | approval passes if and only if the others plus twice the quantity (once for an empty window) fit the capacity |
| Acceptance.MoveAcceptedExactly | internal/bookings/repository.go:251-265 | the approval transaction passes if and only if the conflict test would, were the booking being moved already gone |
| Acceptance.MoveFitsExactly | internal/bookings/repository.go:517-562 | in reachable stores whose held windows that overlap the new one meet pairwise, a move is approved if and only if every instant of the new window has room for the quantity beside all but the booking itself |
| Acceptance.MoveInPlaceSucceeds | internal/bookings/repository.go:533 | on a timetable a confirmed booking can always be moved to the window it holds |
| Acceptance.LockGrantedExactly | internal/bookings/service.go:26-52 | in such stores LockSlot grants if and only if the times are in order, service and branch exist and every instant has room; each refusal names its cause |
| Acceptance.ApprovedExactly | internal/bookings/service.go:132-141 | in such stores Approve accepts a waiting booking if and only if its quantity fits once more at every instant, the load already counting it |
| SelfCount.RecheckFaithfulExactlyWhen | internal/bookings/service.go:132-139 | the self-counting re-check decides as a self-excluding one in all reachable stores if and only if the window is empty or the quantity is zero |
| SelfCount.ConfirmedFitsTwice | internal/bookings/service.go:115-145 | with nonempty booking windows every booking ever confirmed (now confirmed, cancelled or rescheduled) fits its service twice |
| SelfCount.CapacityOneNeverConfirms | internal/bookings/service.go:132-141 | hence no booking of a capacity-one service is ever confirmed |
| Chains.RescheduledExactlyWhenReplacedOnce | internal/bookings/repository.go:275-305 | in every serial run a booking is 'rescheduled' if and only if some booking names it; that one is unique, later, and has the same service, branch, customer, quantity, currency and payment method |
| Chains.OneHeadPerChain | internal/bookings/repository.go:275-305 | every reschedule chain has exactly one booking that is not 'rescheduled', so at most one active one, and constant terms |
| Chains.AttemptsCountRequests | internal/bookings/service.go:221-255 | the attempt counter is the number of requests ever made, at most three; at most one is pending, and then the booking is confirmed or cancelled |
| Attempts.RequestAcceptedExactly | internal/bookings/service.go:210-258 | in every run RequestReschedule is accepted if and only if the booking is confirmed and the caller's own, the window in order, no request pending and fewer than three were accepted before; the limit and the pending request are reported as such |
| Attempts.FourthIsRefused | internal/bookings/service.go:221-223 | a run that makes three requests and is refused the fourth |
| Terms.BookingIsAsOrdered | internal/bookings/service.go:55-93 | after any later run a booking has the service and branch of the lock granted for it, and the customer, window, quantity and payment method of the order |
| Terms.OwnerDecides | internal/bookings/service.go:115-173 | after any run, who owns the branch that was locked, and nobody else, passes the ownership check of Approve and Reject |
| Terms.WhoMayCancel | internal/bookings/service.go:177-207 | a confirmed booking may be cancelled by the customer who ordered it, the owner of the branch that was locked and the system, and by nobody else |
| Terms.WhoMayReschedule | internal/bookings/service.go:210-315 | asking to reschedule is for the customer who ordered, deciding on it for the owner of the branch that was locked |
| Terms.UnknownIsRefused | internal/bookings/service.go:96-315 | a call on a booking or request that is not there is refused as not found or as not the caller's |
| Terms.OwnerHasADay | internal/bookings/service.go:96-112 | a paid booking has a deadline 24 hours after its payment, which no later call moves |
| Terms.RejectionIsFinal | internal/bookings/service.go:148-173 | a rejected booking stays rejected and keeps the reason given, if one was |
| Terms.CancellationKeepsItsRole | internal/bookings/service.go:177-207 | a cancelled booking keeps the role that cancelled it and is never confirmed again |
| Terms.MoveLandsWhereAsked | internal/bookings/repository.go:286-305 | a request stays as asked through any run, and its approval books exactly the asked window, confirmed, on the booking's terms |
| Chains.LinkedKept | internal/bookings/service.go:26-315 | every call keeps the chains unbranching and acyclic |
| Chains.ProposedKept | migrations/006_bookings.up.sql:46-49 | every call keeps at most one pending request per booking, on a confirmed or cancelled booking |
| Chains.CountedKept | internal/bookings/service.go:250-255 | every call keeps counter and request count equal; a successor starts again at zero |
| StatusRelation.StatusRelationExact | internal/bookings/service.go:96-207 | some serial run moves a booking from one status to another if and only if the pair is one of six edges |
| StatusRelation.CancelledCanBeRescheduled | internal/bookings/repository.go:245-281 | confirmed → cancelled → rescheduled is taken by a serial run |
| StatusRelation.NeverCompleted | internal/bookings/service.go:96-207 | no call of the bookings service completes a booking |
| Locks.OneBookingPerLock | internal/bookings/service.go:55-93 | after a lock became a booking, no later call of any run books it again |
| Locks.BookableForFiveMinutes | internal/bookings/repository.go:121-140 | after any later run, a granted lock is there to be booked if and only if less than five minutes have passed in it and no call of it booked the lock |
| BookingService.Repository.GetPendingRescheduleForBooking | internal/bookings/repository.go:166-184 | returns a pending request of the booking if and only if there is one |
| BookingService.Repository.ApproveReschedule | internal/bookings/repository.go:226-314 | with rollback as restoring what was read at the beginning, an error at any statement changes nothing and success is exactly the three writes together |
| BookingService.Service.LockSlot | internal/bookings/service.go:26-52 | the method's outcome and new tables are those of the serial call |
| BookingService.Service.CreateBooking | internal/bookings/service.go:55-93 | the method's outcome and new tables are those of the serial call |
| BookingService.Service.ConfirmPayment | internal/bookings/service.go:96-112 | the method's outcome and new tables are those of the serial call |
| BookingService.Service.Approve | internal/bookings/service.go:115-145 | the method's outcome and new tables are those of the serial call |
| BookingService.Service.Reject | internal/bookings/service.go:148-173 | the method's outcome and new tables are those of the serial call |
| BookingService.Service.Cancel | internal/bookings/service.go:177-207 | the method's outcome and new tables are those of the serial call |
| BookingService.Service.RequestReschedule | internal/bookings/service.go:210-258 | the method's outcome and new tables are those of the serial call |
| BookingService.Service.ApproveReschedule | internal/bookings/service.go:261-291 | the serial call when the database does not fail, no change when it does |
| BookingService.Service.RejectReschedule | internal/bookings/service.go:294-315 | the method's outcome and new tables are those of the serial call |
| Interleaving.CommitIsSerialReschedule | internal/bookings/repository.go:233-313 | when a transaction commits, its request is still pending and its writes, from what it read earlier, are those of the serial reschedule on the present store |
| Interleaving.StepTouchesStore | internal/bookings/repository.go:226-314 | any step of any worker leaves the store alone, reschedules one pending request, or rejects one unlocked request |
| Interleaving.InterleaveSound | internal/bookings/repository.go:233-260 | every interleaving with failures keeps held rows as their holder read them, and the chains and proposals intact |
| RowLocks.OneSuccessorPerRequest | internal/bookings/repository.go:226-314 | under every interleaving each request yields at most one successor, booked in commit order for its own booking and window; no booking is replaced twice; only requests pending at the start commit, and every request that went from pending to approved has its successor |
| RowLocks.NeverPendingAgain | internal/bookings/service.go:294-315 | a request that left 'pending' never returns to it |
| RowLocks.NoDeadlock | internal/bookings/repository.go:233-260 | in every reachable interleaved state with an unfinished worker some worker can move |
| RowLocks.SchedulesAreBounded | internal/bookings/repository.go:226-314 | every schedule of enabled moves ends after at most seven per worker |
| RowLocks.UndisturbedIsSerial | internal/bookings/repository.go:226-314 | seven undisturbed statements of one approval equal the serial transaction, committed or refused |
| RowLocks.LateRejectionOverwritesApproval | internal/bookings/service.go:303-313 | a rejection that read 'pending' before the approval ran ends in 'rejected' with the successor booked |
| RowLocks.BothChecksPassBothCommit | internal/bookings/repository.go:262-312 | two approvals of different bookings that both check first both commit |
| RowLocks.ApprovalStandsExactly | internal/bookings/service.go:303-313 | an approved request stays approved through every continuation if and only if no rejection of it has checked its status and not written yet |
| RaceFree.NonCompetingApprovalsKeepCapacity | internal/bookings/repository.go:226-314 | when no two concurrent approvals want overlapping windows of one service, every interleaving keeps every instant within capacity and every commit would still pass its check when it commits |
| Serializability.SerializableExactly | internal/bookings/repository.go:226-314 | when the approvals do not compete, an interleaving with rejections and failures leaves the store that some serial order of calls of the workers that ended leaves, each call at most once, if and only if every committed request is still approved |
| SerialSchedules.AlwaysSerialExactly | internal/bookings/service.go:294-315 | every schedule of a starting system is serial in this sense if and only if no request has both an approval and a rejection such that the approval passes after a serial run of calls of some other workers |
| SerialSchedules.AlwaysSerialWithoutRivals | internal/bookings/service.go:303-313 | where every approval that someone else would reject passes at the start, this is if and only if no request has both an approval and a rejection |
| Overbooking.RaceOverbooks | internal/bookings/repository.go:249-312 | for any list of orders to move, positive in quantity, two of whose new windows overlap, some serial run leaves a store with these orders pending, and some interleaving of the two approvals overbooks an instant of it |
| Overbooking.SafeTogetherExactly | internal/bookings/repository.go:249-312 | any number of approvals that move different bookings of one service are safe in every reachable store and every interleaving if and only if no instant lies in two of their new windows |
| Availability.GenerateSlots | internal/availability/service.go:139-168 | returns the windows open + k·step in order, all that fit and none that does not, whenever generation ends |
| Availability.GenerationEndsExactly | internal/availability/service.go:157-166 | generation ends if and only if some slot does not fit: for a positive step, or when the first does not |
| Availability.GeneratedAre | internal/availability/service.go:139-168 | strictly increasing, floor((close−open−duration)/step)+1 of them when one fits and none otherwise, disjoint when step ≥ duration |
| Availability.OccupiedQuantity | internal/availability/service.go:172-185 | the loops total the quantities of exactly the overlapping rows |
| Availability.FetchedRowsSuffice | internal/availability/repository.go:89-148 | rows fetched for a wide range give, for any window inside it, the sum that a query over all rows gives |
| Availability.Service.GetSlotsForDate | internal/availability/service.go:28-105 | an open override with both times lists the slots generated between them whatever the weekly rule, any other override lists nothing, without one an active rule lists its hours; each slot as a query of its own would |
| Availability.Service.ListDay | internal/availability/service.go:72-104 | one fetch filtered per slot equals a separate query for each slot |
| Availability.Service.CheckConflict | internal/availability/service.go:111-134 | decides on everything held in the window: any overlap for single, quantity against capacity for multi |
| Availability.SingleIsExclusive | internal/availability/service.go:88-134 | in every reachable store a single service's slot is offered, to one, and CheckConflict clears a window if and only if nothing held shares it |
| Availability.ListingAgreesExactly | internal/availability/service.go:88-98 | in all reachable stores the listing of the slots a service generates offers a slot to a quantity when and only when LockSlot accepts it, if and only if nothing is ever generated, or nothing ever offered or locked, or slots have instants and the service is multi or has capacity one; with a positive step and duration this is multi or capacity one |
| Availability.EngineAgreesExactly | internal/availability/service.go:126-133 | in all reachable stores CheckConflict clears a window for a quantity when and only when LockSlot accepts it, if and only if the service is multi |
| Availability.ListedExactlyWhenLockable | internal/bookings/service.go:26-52 | a generated slot is listed with room for a quantity if and only if LockSlot accepts that quantity at that instant |
| Ratings.SummaryIsRecountExactly | migrations/009_reviews.up.sql:50-82 | all through a run the incremental summary equals a recount of the non-removed reviews if and only if no call revives a removed one |
| Ratings.ThreeFlagsRevive | internal/reviews/service.go:102-121 | a run in which three users flag a removed review: it is 'flagged' again while the summary counts nothing |
| Ratings.StepMatchesExactly | internal/reviews/service.go:102-121 | from a matching summary one call keeps the match if and only if it is not a third flag on, or status change of, a removed review |
| Ratings.SubmitExactly | internal/reviews/service.go:22-51 | a review is accepted if and only if its booking is completed and has none; it stands as submitted and moves its own service's summary by one review of its rating |
| Ratings.RunOnePerBooking | migrations/009_reviews.up.sql:1-20 | no run reviews a booking twice |
| Ratings.FlaggedExactlyByThree | internal/reviews/service.go:102-121 | without moderation a review is 'flagged' if and only if three or more users flagged it, each counting once |
| Ratings.FlagAcceptedExactly | internal/reviews/service.go:102-107 | a flag is accepted if and only if the review is there and this user has not flagged it |
| Ratings.ClampsNeverBite | migrations/009_reviews.up.sql:71-78 | while the summary matches, neither GREATEST takes effect, the divisor is not negative and the removal cannot fail |
| Ratings.BucketsCountInsertions | migrations/009_reviews.up.sql:53-68 | in every run, revivals included, each of the five columns counts the reviews inserted with its rating, and together they count all of the service's |
| Ratings.MatchingSummaryIsSane | migrations/009_reviews.up.sql:53-77 | while the summary matches, the buckets less the total are the number removed, and the average of a positive total lies in [1, 5] and within 0.05 of the quotient |
| Ratings.AverageIsClose | migrations/009_reviews.up.sql:64-65 | rounding to one decimal, ties up, moves an average of ratings by at most 0.05 and keeps it in [1, 5] |
| Ratings.ReviewStore.InsertReview | migrations/009_reviews.up.sql:58-68 | the insert with its trigger, written column by column, is the specified insert |
| Ratings.ReviewStore.UpdateReviewStatus | migrations/009_reviews.up.sql:70-79 | the status update with its trigger is the specified update |
| Ratings.ReviewStore.Submit | internal/reviews/service.go:22-51 | the method's outcome and new tables are those of the specified call |
| Ratings.ReviewStore.Flag | internal/reviews/service.go:102-121 | the method's outcome and new tables are those of the specified call |
| Payments.PaymentsStaySound | internal/payments/service.go:21-202 | over every run a GCash, Maya or bank transfer payment is an immediate capture, only captured or refunded, keeps its capture time, is never voided and never reaches the gateway's Void, and any other is a card's; voided has its time, refunded a refund row, every refund the full amount |
| Payments.IntentIsAsOrdered | internal/payments/service.go:34-67 | an intent is stored as ordered, a card's authorized without a capture time and any other captured now, and no later call changes its booking, key, amount or method |
| Payments.CaptureSettles | internal/payments/service.go:124-145 | capture takes a card's first intent of the booking to captured now at the gateway's word and leaves the other methods alone |
| Payments.VoidSettles | internal/payments/service.go:149-170 | void takes a card's to voided now at the gateway's word and refunds the other methods for a system timeout |
| Payments.RefundSettles | internal/payments/service.go:173-202 | a refund that goes through records the whole amount with its reason and marks the intent |
| Payments.NothingToSettle | internal/payments/repository.go:44-62 | capture, void and refund of a booking without an intent are refused and change nothing |
| Payments.WebhookSettles | internal/payments/service.go:70-119 | a new paid event captures, as of now, the intent its payload or else its own id names; others change no intent; every new event is marked |
| Payments.RunGrows | internal/payments/repository.go:88-99 | no row, amount or method changes and no timestamp is ever cleared |
| Payments.RefundedOnceExactly | internal/payments/service.go:149-202 | a run leaves at most one refund row per intent if and only if no call of it puts a refund through on an intent that already has one |
| Payments.StepRefundsOnceExactly | internal/payments/service.go:173-202 | the one-call form: one refund row per intent is kept if and only if the call does not refund again |
| Payments.TwoRefunds | internal/payments/service.go:173-202 | a run that refunds one captured intent twice in full |
| Payments.ReplaysAreIgnored | internal/payments/service.go:80-98 | folding any arrivals leaves the tables as folding each event id's first arrival does, times included |
| Payments.ReplaysDropOut | internal/payments/service.go:70-98 | in any run, mixed with captures, voids, refunds and time, dropping every replayed webhook changes nothing |
| Payments.FoldedStatus | internal/payments/service.go:92-119 | an intent ends captured if and only if a new payment event names it or it was captured already, and otherwise keeps its status |
| Payments.OrderDoesNotMatter | internal/payments/service.go:80-119 | the same distinct events in any order and at any times give every intent the same status, failed handlers included |
| Payments.PaymentService.Create | internal/payments/service.go:34-67 | the method's outcome and new tables are those of the specified call |
| Payments.PaymentService.HandleWebhook | internal/payments/service.go:70-98 | the method's outcome and new tables are those of the specified call |
| Payments.PaymentService.CapturePayment | internal/payments/service.go:124-145 | the method's outcome and new tables are those of the specified call |
| Payments.PaymentService.VoidPayment | internal/payments/service.go:149-170 | the method's outcome and new tables are those of the specified call |
| Payments.PaymentService.RefundPayment | internal/payments/service.go:173-202 | the method's outcome and new tables are those of the specified call |

## Left out

- HTTP handlers, JSON binding, middleware, configuration and connections: plumbing around the calls modelled here.
- Time-string parsing, UUIDs, row scanning and SQL text: times are integers, ids are positions, tables are sequences.
- Interleavings of the other calls: check-then-write in LockSlot, CreateBooking, Approve and RequestReschedule is not atomic in the code; the capacity, chain, status and counter theorems are about serial runs.
- The passing of time inside the classes: a call reads one clock value; time passes between calls, as Tick in the runs.
- The clock in the interleaved system stands still, and a statement failure there rolls its transaction back at once.
- A failing DeleteLock, which CreateBooking ignores, and a failure between the two writes of RequestReschedule.
- Soft deletion: no code of the repository sets deleted_at on a booking or a service.
- Daylight saving: a day is a fixed offset to which times of day are added.
- The lookups of date overrides and weekly rules: the row each returns is a parameter of the listing.
- Booking validation and the fourteen-day window of a review submission: whether validation passed is a parameter.
- PayMongo calls and signature checks: the gateway's answers are parameters and signatures are taken as verified.
- Two intents for one booking: a lookup by booking returns the first row, where SQL may return any.
- Search, notifications, participants, profiles, customer reviews, trust profiles, owner queue and customer lists: outside the reservation, rating and payment state modelled here.
