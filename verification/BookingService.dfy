/** The bookings repository and service, statement by statement, against the calls of Lifecycle. */
module BookingService {
  import opened Sums
  import opened Tables
  import opened Occupancy
  import opened Lifecycle

  /** The optional columns UpdateStatus may set beside the status. */
  datatype Extra = Extra(
    rejectedReason: Option<string>,
    cancelledBy: Option<Role>,
    attempts: Option<nat>,
    ownerResponseDeadline: Option<int>)

  const NO_EXTRA := Extra(None, None, None, None)

  function WithExtra(b: Booking, status: Status, extra: Extra): Booking {
    b.(status := status,
       rejectedReason := if extra.rejectedReason.Some? then extra.rejectedReason else b.rejectedReason,
       cancelledBy := if extra.cancelledBy.Some? then extra.cancelledBy else b.cancelledBy,
       attempts := if extra.attempts.Some? then extra.attempts.value else b.attempts,
       ownerResponseDeadline :=
         if extra.ownerResponseDeadline.Some? then extra.ownerResponseDeadline else b.ownerResponseDeadline)
  }

  /** The statements of the approval transaction at which the database may fail. */
  datatype Statement = Begin | LockRequest | LoadOriginal | CheckCapacity | MarkApproved | MarkRescheduled | InsertNew | Commit

  class Repository {
    const services: map<Id, ServiceRow>
    const branchOwner: map<Id, Id>
    var bookings: seq<Booking>
    var locks: seq<Option<BookingLock>>
    var requests: seq<RescheduleRequest>
    var now: int

    constructor (services: map<Id, ServiceRow>, branchOwner: map<Id, Id>, now: int)
      ensures State() == Store(services, branchOwner, [], [], [], now)
    {
      this.services, this.branchOwner, this.now := services, branchOwner, now;
      bookings, locks, requests := [], [], [];
    }

    function State(): Store
      reads this
    {
      Store(services, branchOwner, bookings, locks, requests, now)
    }

    /** The range index refuses a row that ends before it starts. */
    method Create(b: Booking) returns (o: Outcome)
      modifies this`bookings
      ensures o == if b.window.Ordered() then Ok else Err(ConstraintViolation)
      ensures bookings == if o == Ok then old(bookings) + [b.(id := |old(bookings)|)] else old(bookings)
    {
      if b.window.start > b.window.end {
        return Err(ConstraintViolation);
      }
      bookings := bookings + [b.(id := |bookings|)];
      o := Ok;
    }

    method GetByID(id: Id) returns (b: Option<Booking>)
      ensures b == if State().IsBooking(id) then Some(bookings[id]) else None
    {
      b := if id < |bookings| then Some(bookings[id]) else None;
    }

    method UpdateStatus(id: Id, status: Status, extra: Extra) returns (o: Outcome)
      modifies this`bookings
      ensures o == if !old(State()).IsBooking(id) then Err(BookingNotFound)
                   else if extra.cancelledBy == Some(Admin) then Err(ConstraintViolation) else Ok
      ensures bookings == if o == Ok then old(bookings)[id := WithExtra(old(bookings)[id], status, extra)] else old(bookings)
    {
      if id >= |bookings| {
        return Err(BookingNotFound);
      }
      if extra.cancelledBy == Some(Admin) {
        return Err(ConstraintViolation);
      }
      bookings := bookings[id := WithExtra(bookings[id], status, extra)];
      o := Ok;
    }

    method CreateLock(lock: BookingLock) returns (o: Outcome, id: Id)
      modifies this`locks
      ensures o == if lock.branch in branchOwner then Ok else Err(ConstraintViolation)
      ensures id == |old(locks)| && locks == if o == Ok then old(locks) + [Some(lock)] else old(locks)
    {
      id := |locks|;
      if lock.branch !in branchOwner {
        return Err(ConstraintViolation), id;
      }
      locks := locks + [Some(lock)];
      o := Ok;
    }

    method GetLock(id: Id) returns (lock: Option<BookingLock>)
      ensures lock == if State().IsLiveLock(id) then locks[id] else None
    {
      lock := if id < |locks| && locks[id].Some? && locks[id].value.expiresAt > now then locks[id] else None;
    }

    method DeleteLock(id: Id)
      modifies this`locks
      ensures locks == if id < |old(locks)| then old(locks)[id := None] else old(locks)
    {
      if id < |locks| {
        locks := locks[id := None];
      }
    }

    method CreateRescheduleRequest(request: RescheduleRequest)
      modifies this`requests
      ensures requests == old(requests) + [request]
    {
      requests := requests + [request];
    }

    method GetPendingRescheduleForBooking(id: Id) returns (found: Option<RescheduleRequest>)
      ensures found.Some? <==> HasPendingRequest(State(), id)
      ensures found.Some? ==> found.value in requests && found.value.booking == id && found.value.status == RequestPending
    {
      if r :| 0 <= r < |requests| && requests[r].booking == id && requests[r].status == RequestPending {
        found := Some(requests[r]);
      } else {
        found := None;
      }
    }

    method GetRescheduleByID(id: Id) returns (request: Option<RescheduleRequest>)
      ensures request == if State().IsRequest(id) then Some(requests[id]) else None
    {
      request := if id < |requests| then Some(requests[id]) else None;
    }

    method UpdateRescheduleStatus(id: Id, status: RequestStatus) returns (o: Outcome)
      modifies this`requests
      ensures o == if old(State()).IsRequest(id) then Ok else Err(RescheduleNotFound)
      ensures requests == if o == Ok then old(requests)[id := old(requests)[id].(status := status)] else old(requests)
    {
      if id >= |requests| {
        return Err(RescheduleNotFound);
      }
      requests := requests[id := requests[id].(status := status)];
      o := Ok;
    }

    method CheckSlotConflict(service: Id, window: Window, quantity: nat) returns (o: Outcome, conflict: bool)
      ensures o == if service in services then Ok else Err(ServiceNotFound)
      ensures o == Ok ==> conflict == Conflict(State(), service, window, quantity)
    {
      if service !in services {
        return Err(ServiceNotFound), false;
      }
      var capacity := services[service].capacity;
      var bookingQty := Sum(bookings, BookingIn(service, window));
      var lockQty := Sum(locks, LockIn(service, window, now));
      o, conflict := Ok, bookingQty + lockQty + quantity > capacity;
    }

    method CheckSlotAvailabilityTx(service: Id, window: Window, quantity: nat, excluded: Id) returns (o: Outcome)
      ensures o == if service !in services then Err(ServiceNotFound)
                   else if HeldByOthers(State(), service, window, excluded) + quantity > State().Capacity(service)
                   then Err(SlotUnavailable) else Ok
    {
      if service !in services {
        return Err(ServiceNotFound);
      }
      var capacity := services[service].capacity;
      var bookingQty := Sum(bookings, BookingInExcept(service, window, excluded));
      var lockQty := Sum(locks, LockIn(service, window, now));
      o := if bookingQty + lockQty + quantity > capacity then Err(SlotUnavailable) else Ok;
    }

    /** The statements between Begin and Commit; an error may leave some of the writes behind. */
    method ApprovalStatements(id: Id, customer: Id, payment: Option<PaymentMethod>, currency: string,
                              failing: Option<Statement>)
      returns (o: Outcome)
      modifies this`bookings, this`requests
      ensures failing == None ==> o == RescheduleTxGuard(old(State()), id)
      ensures o == Ok ==>
        && failing == None && RescheduleTxGuard(old(State()), id) == Ok
        && var s := Reschedule(old(State()), id);
           var last := |s.bookings| - 1;
           requests == s.requests
           && bookings == s.bookings[last := s.bookings[last].(customer := customer, paymentMethod := payment,
                                                               currency := currency)]
    {
      if failing == Some(Begin) || failing == Some(LockRequest) {
        return Err(DatabaseFailure);
      }
      var request := GetRescheduleByID(id);
      if request == None {
        return Err(RescheduleNotFound);
      }
      if request.value.status != RequestPending {
        return Err(IllegalStateTransition);
      }
      if failing == Some(LoadOriginal) {
        return Err(DatabaseFailure);
      }
      var original := GetByID(request.value.booking);
      if original == None {
        return Err(BookingNotFound);
      }
      if failing == Some(CheckCapacity) {
        return Err(DatabaseFailure);
      }
      o := CheckSlotAvailabilityTx(original.value.service, request.value.window, original.value.quantity,
                                   request.value.booking);
      if o != Ok {
        return;
      }
      if failing == Some(MarkApproved) {
        return Err(DatabaseFailure);
      }
      requests := requests[id := requests[id].(status := RequestApproved)];
      if failing == Some(MarkRescheduled) {
        return Err(DatabaseFailure);
      }
      bookings := bookings[request.value.booking := bookings[request.value.booking].(status := Rescheduled)];
      if failing == Some(InsertNew) {
        return Err(DatabaseFailure);
      }
      o := Create(Booking(0, original.value.service, original.value.branch, customer, request.value.window,
                          original.value.quantity, Confirmed, payment, None, Some(original.value.id), 0, None, None,
                          currency));
      if o != Ok {
        return;
      }
      if failing.Some? && failing.value.Commit? {
        return Err(DatabaseFailure);
      }
    }

    /** All or nothing: any error, at any statement, leaves the tables as they were. */
    method ApproveReschedule(id: Id, customer: Id, payment: Option<PaymentMethod>, currency: string,
                             failing: Option<Statement>)
      returns (o: Outcome)
      modifies this`bookings, this`requests
      ensures o != Ok ==> State() == old(State())
      ensures failing == None ==> o == RescheduleTxGuard(old(State()), id)
      ensures o == Ok ==>
        && failing == None && RescheduleTxGuard(old(State()), id) == Ok
        && var s := Reschedule(old(State()), id);
           var last := |s.bookings| - 1;
           requests == s.requests
           && bookings == s.bookings[last := s.bookings[last].(customer := customer, paymentMethod := payment,
                                                               currency := currency)]
    {
      var bookingsAtBegin, requestsAtBegin := bookings, requests;
      o := ApprovalStatements(id, customer, payment, currency, failing);
      if o != Ok {
        bookings, requests := bookingsAtBegin, requestsAtBegin;
      }
    }
  }

  class Service {
    const repo: Repository

    constructor (repo: Repository)
      ensures this.repo == repo
    {
      this.repo := repo;
    }

    method LockSlot(service: Id, branch: Id, window: Window, quantity: nat) returns (o: Outcome)
      modifies repo
      ensures var op := Op.LockSlot(service, branch, window, quantity);
        o == Guard(old(repo.State()), op) && repo.State() == Apply(old(repo.State()), op)
    {
      if !(window.start < window.end) {
        return Err(InvalidTimes);
      }
      var checked, conflict := repo.CheckSlotConflict(service, window, quantity);
      if checked != Ok {
        return checked;
      }
      if conflict {
        return Err(SlotUnavailable);
      }
      var lock := BookingLock(service, branch, window, quantity, repo.now + LOCK_TTL);
      var created, _ := repo.CreateLock(lock);
      o := created;
    }

    method CreateBooking(lockID: Id, window: Window, quantity: nat, payment: Option<PaymentMethod>, customer: Id)
      returns (o: Outcome)
      modifies repo
      ensures var op := Op.CreateBooking(lockID, window, quantity, payment, customer);
        o == Guard(old(repo.State()), op) && repo.State() == Apply(old(repo.State()), op)
    {
      var lock := repo.GetLock(lockID);
      if lock == None {
        return Err(LockNotFound);
      }
      o := repo.Create(Booking(0, lock.value.service, lock.value.branch, customer, window, quantity, Pending, payment,
                               None, None, 0, None, None, "PHP"));
      if o == Ok {
        repo.DeleteLock(lockID);
      }
    }

    method ConfirmPayment(id: Id) returns (o: Outcome)
      modifies repo
      ensures var op := Op.ConfirmPayment(id);
        o == Guard(old(repo.State()), op) && repo.State() == Apply(old(repo.State()), op)
    {
      var b := repo.GetByID(id);
      if b == None {
        return Err(BookingNotFound);
      }
      if b.value.status != Pending {
        return Err(IllegalStateTransition);
      }
      var deadline := repo.now + OWNER_RESPONSE_WINDOW;
      o := repo.UpdateStatus(id, AwaitingApproval, NO_EXTRA.(ownerResponseDeadline := Some(deadline)));
    }

    method Approve(id: Id, owner: Id) returns (o: Outcome)
      modifies repo
      ensures var op := Op.Approve(id, owner);
        o == Guard(old(repo.State()), op) && repo.State() == Apply(old(repo.State()), op)
    {
      if !repo.State().OwnsBookingBranch(id, owner) {
        return Err(Unauthorized);
      }
      var b := repo.GetByID(id);
      if b.value.status != AwaitingApproval {
        return Err(IllegalStateTransition);
      }
      var checked, conflict := repo.CheckSlotConflict(b.value.service, b.value.window, b.value.quantity);
      if checked != Ok {
        return checked;
      }
      if conflict {
        return Err(SlotUnavailable);
      }
      o := repo.UpdateStatus(id, Confirmed, NO_EXTRA);
    }

    method Reject(id: Id, owner: Id, reason: string) returns (o: Outcome)
      modifies repo
      ensures var op := Op.Reject(id, owner, reason);
        o == Guard(old(repo.State()), op) && repo.State() == Apply(old(repo.State()), op)
    {
      if !repo.State().OwnsBookingBranch(id, owner) {
        return Err(Unauthorized);
      }
      var b := repo.GetByID(id);
      if b.value.status != AwaitingApproval {
        return Err(IllegalStateTransition);
      }
      o := repo.UpdateStatus(id, Rejected, if reason != "" then NO_EXTRA.(rejectedReason := Some(reason)) else NO_EXTRA);
    }

    method Cancel(id: Id, caller: Id, role: Role) returns (o: Outcome)
      modifies repo
      ensures var op := Op.Cancel(id, caller, role);
        o == Guard(old(repo.State()), op) && repo.State() == Apply(old(repo.State()), op)
    {
      var b := repo.GetByID(id);
      if b == None {
        return Err(BookingNotFound);
      }
      if b.value.status != Confirmed {
        return Err(IllegalStateTransition);
      }
      if role == Customer && b.value.customer != caller {
        return Err(Unauthorized);
      }
      if role == Owner && !repo.State().OwnsBookingBranch(id, caller) {
        return Err(Unauthorized);
      }
      o := repo.UpdateStatus(id, Cancelled, NO_EXTRA.(cancelledBy := Some(role)));
    }

    method RequestReschedule(id: Id, customer: Id, window: Window) returns (o: Outcome)
      modifies repo
      ensures var op := Op.RequestReschedule(id, customer, window);
        o == Guard(old(repo.State()), op) && repo.State() == Apply(old(repo.State()), op)
    {
      var b := repo.GetByID(id);
      if b == None {
        return Err(BookingNotFound);
      }
      if b.value.status != Confirmed {
        return Err(IllegalStateTransition);
      }
      if b.value.customer != customer {
        return Err(Unauthorized);
      }
      if b.value.attempts >= MAX_RESCHEDULE_ATTEMPTS {
        return Err(RescheduleLimitReached);
      }
      var existing := repo.GetPendingRescheduleForBooking(id);
      if existing.Some? {
        return Err(PendingRescheduleExists);
      }
      if !(window.start < window.end) {
        return Err(InvalidTimes);
      }
      repo.CreateRescheduleRequest(RescheduleRequest(id, customer, window, RequestPending));
      o := repo.UpdateStatus(id, b.value.status, NO_EXTRA.(attempts := Some(b.value.attempts + 1)));
    }

    /** With no database failure this is the serial call; with one, nothing changes. */
    method ApproveReschedule(id: Id, owner: Id, failing: Option<Statement>) returns (o: Outcome)
      modifies repo
      ensures var op := Op.ApproveReschedule(id, owner);
        && (failing == None ==> o == Guard(old(repo.State()), op))
        && (o == Ok ==> Guard(old(repo.State()), op) == Ok)
        && repo.State() == if o == Ok then Apply(old(repo.State()), op) else old(repo.State())
    {
      if !repo.State().OwnsRescheduleBranch(id, owner) {
        return Err(Unauthorized);
      }
      var request := repo.GetRescheduleByID(id);
      var original := repo.GetByID(request.value.booking);
      o := repo.ApproveReschedule(id, original.value.customer, original.value.paymentMethod, original.value.currency, failing);
    }

    method RejectReschedule(id: Id, owner: Id) returns (o: Outcome)
      modifies repo
      ensures var op := Op.RejectReschedule(id, owner);
        o == Guard(old(repo.State()), op) && repo.State() == Apply(old(repo.State()), op)
    {
      if !repo.State().OwnsRescheduleBranch(id, owner) {
        return Err(Unauthorized);
      }
      var request := repo.GetRescheduleByID(id);
      if request.value.status != RequestPending {
        return Err(IllegalStateTransition);
      }
      o := repo.UpdateRescheduleStatus(id, RequestRejected);
    }
  }
}
