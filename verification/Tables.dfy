/**
 The rows of the reservation store and of the tables it reads. A row id is the row's position
 in its table, which is its creation order; deleted lock rows leave a gap, so ids are not reused.
 Times are whole seconds on one clock.
 */
module Tables {
  import opened Sums

  type Id = nat

  /** A half-open window. LockSlot and RequestReschedule insist on start < end, CreateBooking does not. */
  datatype Window = Window(start: int, end: int) {
    predicate Nonempty() { start < end }

    /** What the range index over the bookings insists on. */
    predicate Ordered() { start <= end }

    predicate Covers(t: int) { start <= t < end }

    /** The row test of every conflict query: row.start < query.end AND row.end > query.start. */
    predicate Overlaps(query: Window) { start < query.end && end > query.start }

    predicate Inside(outer: Window) { outer.start <= start && end <= outer.end }
  }

  /** A window whose times were parsed and found in order. */
  type ProperWindow = w: Window | w.Nonempty() witness Window(0, 1)

  datatype Status = Pending | AwaitingApproval | Confirmed | Rejected | Cancelled | Rescheduled | Completed

  datatype PaymentMethod = Card | GCash | Maya | BankTransfer

  /** The caller roles; the cancelled_by column accepts all of them but Admin. */
  datatype Role = Customer | Owner | System | Admin

  /** The IN ('pending', 'awaiting_approval', 'confirmed') filter of every occupancy query. */
  predicate IsActive(status: Status) {
    status == Pending || status == AwaitingApproval || status == Confirmed
  }

  /** A booking that an owner once approved: now confirmed, cancelled or rescheduled. */
  predicate WasConfirmed(status: Status) {
    status == Confirmed || status == Cancelled || status == Rescheduled
  }

  datatype Booking = Booking(
    id: Id,
    service: Id,
    branch: Id,
    customer: Id,
    window: Window,
    quantity: nat,
    status: Status,
    paymentMethod: Option<PaymentMethod>,
    ownerResponseDeadline: Option<int>,
    rescheduledFrom: Option<Id>,
    attempts: nat,
    rejectedReason: Option<string>,
    cancelledBy: Option<Role>,
    currency: string)

  datatype BookingLock = BookingLock(service: Id, branch: Id, window: Window, quantity: nat, expiresAt: int)

  datatype RequestStatus = RequestPending | RequestApproved | RequestRejected

  datatype RescheduleRequest = RescheduleRequest(booking: Id, requestedBy: Id, window: ProperWindow, status: RequestStatus)

  datatype CapacityType = Single | Multi

  datatype ServiceRow = ServiceRow(capacity: int, capacityType: CapacityType, stepMinutes: int, minDuration: int)

  datatype Store = Store(
    services: map<Id, ServiceRow>,
    branchOwner: map<Id, Id>,
    bookings: seq<Booking>,
    locks: seq<Option<BookingLock>>,
    requests: seq<RescheduleRequest>,
    now: int)
  {
    predicate IsBooking(id: Id) { id < |bookings| }

    predicate IsRequest(id: Id) { id < |requests| }

    /** WHERE id = $1 AND expires_at > now(). */
    predicate IsLiveLock(id: Id) {
      id < |locks| && locks[id].Some? && locks[id].value.expiresAt > now
    }

    predicate OwnsBookingBranch(id: Id, owner: Id) {
      IsBooking(id) && bookings[id].branch in branchOwner && branchOwner[bookings[id].branch] == owner
    }

    predicate OwnsRescheduleBranch(id: Id, owner: Id) {
      IsRequest(id) && OwnsBookingBranch(requests[id].booking, owner)
    }

    function Capacity(service: Id): int {
      if service in services then services[service].capacity else 0
    }

    predicate Empty() { bookings == [] && locks == [] && requests == [] }
  }

  datatype Error =
    | BookingNotFound
    | SlotUnavailable
    | IllegalStateTransition
    | RescheduleLimitReached
    | PendingRescheduleExists
    | Unauthorized
    | RescheduleNotFound
    | LockNotFound
    | ServiceNotFound
    | InvalidTimes
    | ConstraintViolation
    | DatabaseFailure

  datatype Outcome = Ok | Err(error: Error)
}
