/** What each call of the bookings service does to the tables: a guard that names the error, then an effect. */
module Lifecycle {
  import opened Sums
  import opened Tables
  import opened Occupancy

  const MAX_RESCHEDULE_ATTEMPTS: nat := 3
  const LOCK_TTL := 5 * 60
  const OWNER_RESPONSE_WINDOW := 24 * 60 * 60

  datatype Op =
    | LockSlot(service: Id, branch: Id, window: Window, quantity: nat)
    | CreateBooking(lock: Id, window: Window, quantity: nat, paymentMethod: Option<PaymentMethod>, customer: Id)
    | ConfirmPayment(booking: Id)
    | Approve(booking: Id, owner: Id)
    | Reject(booking: Id, owner: Id, reason: string)
    | Cancel(booking: Id, caller: Id, role: Role)
    | RequestReschedule(booking: Id, customer: Id, window: Window)
    | ApproveReschedule(request: Id, owner: Id)
    | RejectReschedule(request: Id, owner: Id)
    | Tick(seconds: nat)

  predicate HasPendingRequest(s: Store, booking: Id) {
    exists r :: 0 <= r < |s.requests| && s.requests[r].booking == booking && s.requests[r].status == RequestPending
  }

  function LockSlotGuard(s: Store, service: Id, branch: Id, window: Window, quantity: nat): Outcome {
    if !window.Nonempty() then Err(InvalidTimes)
    else if service !in s.services then Err(ServiceNotFound)
    else if Conflict(s, service, window, quantity) then Err(SlotUnavailable)
    else if branch !in s.branchOwner then Err(ConstraintViolation)
    else Ok
  }

  function ApproveGuard(s: Store, id: Id, owner: Id): Outcome {
    if !s.OwnsBookingBranch(id, owner) then Err(Unauthorized)
    else if s.bookings[id].status != AwaitingApproval then Err(IllegalStateTransition)
    else var b := s.bookings[id];
    if b.service !in s.services then Err(ServiceNotFound)
    else if Conflict(s, b.service, b.window, b.quantity) then Err(SlotUnavailable)
    else Ok
  }

  function CancelGuard(s: Store, id: Id, caller: Id, role: Role): Outcome {
    if !s.IsBooking(id) then Err(BookingNotFound)
    else if s.bookings[id].status != Confirmed then Err(IllegalStateTransition)
    else if role == Customer && s.bookings[id].customer != caller then Err(Unauthorized)
    else if role == Owner && !s.OwnsBookingBranch(id, caller) then Err(Unauthorized)
    else if role == Admin then Err(ConstraintViolation)
    else Ok
  }

  function RequestRescheduleGuard(s: Store, id: Id, customer: Id, window: Window): Outcome {
    if !s.IsBooking(id) then Err(BookingNotFound)
    else var b := s.bookings[id];
    if b.status != Confirmed then Err(IllegalStateTransition)
    else if b.customer != customer then Err(Unauthorized)
    else if b.attempts >= MAX_RESCHEDULE_ATTEMPTS then Err(RescheduleLimitReached)
    else if HasPendingRequest(s, id) then Err(PendingRescheduleExists)
    else if !window.Nonempty() then Err(InvalidTimes)
    else Ok
  }

  /** The guard of the approval transaction alone. */
  function RescheduleTxGuard(s: Store, request: Id): Outcome {
    if !s.IsRequest(request) then Err(RescheduleNotFound)
    else var r := s.requests[request];
    if r.status != RequestPending then Err(IllegalStateTransition)
    else if !s.IsBooking(r.booking) then Err(BookingNotFound)
    else var b := s.bookings[r.booking];
    if b.service !in s.services then Err(ServiceNotFound)
    else if HeldByOthers(s, b.service, r.window, r.booking) + b.quantity > s.Capacity(b.service) then Err(SlotUnavailable)
    else Ok
  }

  function Guard(s: Store, op: Op): Outcome {
    match op
    case LockSlot(service, branch, window, quantity) => LockSlotGuard(s, service, branch, window, quantity)
    case CreateBooking(lock, window, _, _, _) =>
      if !s.IsLiveLock(lock) then Err(LockNotFound)
      else if !window.Ordered() then Err(ConstraintViolation)
      else Ok
    case ConfirmPayment(id) =>
      if !s.IsBooking(id) then Err(BookingNotFound)
      else if s.bookings[id].status != Pending then Err(IllegalStateTransition)
      else Ok
    case Approve(id, owner) => ApproveGuard(s, id, owner)
    case Reject(id, owner, _) =>
      if !s.OwnsBookingBranch(id, owner) then Err(Unauthorized)
      else if s.bookings[id].status != AwaitingApproval then Err(IllegalStateTransition)
      else Ok
    case Cancel(id, caller, role) => CancelGuard(s, id, caller, role)
    case RequestReschedule(id, customer, window) => RequestRescheduleGuard(s, id, customer, window)
    case ApproveReschedule(request, owner) =>
      if !s.OwnsRescheduleBranch(request, owner) then Err(Unauthorized) else RescheduleTxGuard(s, request)
    case RejectReschedule(request, owner) =>
      if !s.OwnsRescheduleBranch(request, owner) then Err(Unauthorized)
      else if s.requests[request].status != RequestPending then Err(IllegalStateTransition)
      else Ok
    case Tick(_) => Ok
  }

  function NewLock(s: Store, service: Id, branch: Id, window: Window, quantity: nat): BookingLock {
    BookingLock(service, branch, window, quantity, s.now + LOCK_TTL)
  }

  function NewBooking(s: Store, lock: BookingLock, window: Window, quantity: nat, paymentMethod: Option<PaymentMethod>,
                      customer: Id): Booking
  {
    Booking(|s.bookings|, lock.service, lock.branch, customer, window, quantity, Pending, paymentMethod,
            None, None, 0, None, None, "PHP")
  }

  /** The booking that replaces a rescheduled one: confirmed at once, its attempts starting again at zero. */
  function Successor(s: Store, b: Booking, window: Window): Booking {
    Booking(|s.bookings|, b.service, b.branch, b.customer, window, b.quantity, Confirmed, b.paymentMethod,
            None, Some(b.id), 0, None, None, b.currency)
  }

  function WithBooking(s: Store, id: Id, b: Booking): Store
    requires s.IsBooking(id)
  {
    s.(bookings := s.bookings[id := b])
  }

  function WithRequestStatus(s: Store, id: Id, status: RequestStatus): Store
    requires s.IsRequest(id)
  {
    s.(requests := s.requests[id := s.requests[id].(status := status)])
  }

  /** The three writes of the approval transaction taken together. */
  function Reschedule(s: Store, request: Id): Store
    requires s.IsRequest(request) && s.IsBooking(s.requests[request].booking)
  {
    var r := s.requests[request];
    var b := s.bookings[r.booking];
    WithRequestStatus(s, request, RequestApproved).(
      bookings := s.bookings[r.booking := b.(status := Rescheduled)] + [Successor(s, b, r.window)])
  }

  function Effect(s: Store, op: Op): Store
    requires Guard(s, op) == Ok
  {
    match op
    case LockSlot(service, branch, window, quantity) =>
      s.(locks := s.locks + [Some(NewLock(s, service, branch, window, quantity))])
    case CreateBooking(lock, window, quantity, paymentMethod, customer) =>
      s.(bookings := s.bookings + [NewBooking(s, s.locks[lock].value, window, quantity, paymentMethod, customer)],
         locks := s.locks[lock := None])
    case ConfirmPayment(id) =>
      WithBooking(s, id, s.bookings[id].(status := AwaitingApproval,
                                         ownerResponseDeadline := Some(s.now + OWNER_RESPONSE_WINDOW)))
    case Approve(id, _) => WithBooking(s, id, s.bookings[id].(status := Confirmed))
    case Reject(id, _, reason) =>
      var b := s.bookings[id].(status := Rejected);
      WithBooking(s, id, if reason == "" then b else b.(rejectedReason := Some(reason)))
    case Cancel(id, _, role) => WithBooking(s, id, s.bookings[id].(status := Cancelled, cancelledBy := Some(role)))
    case RequestReschedule(id, customer, window) =>
      WithBooking(s, id, s.bookings[id].(attempts := s.bookings[id].attempts + 1)).(
        requests := s.requests + [RescheduleRequest(id, customer, window, RequestPending)])
    case ApproveReschedule(request, _) => Reschedule(s, request)
    case RejectReschedule(request, _) => WithRequestStatus(s, request, RequestRejected)
    case Tick(seconds) => s.(now := s.now + seconds)
  }

  function Apply(s: Store, op: Op): Store {
    if Guard(s, op) == Ok then Effect(s, op) else s
  }

  /** A serial run: one call at a time, each to completion. */
  function Run(s: Store, ops: seq<Op>): Store {
    if |ops| == 0 then s else Apply(Run(s, ops[..|ops| - 1]), ops[|ops| - 1])
  }

  lemma RunAppend(s: Store, ops: seq<Op>, op: Op)
    ensures Run(s, ops + [op]) == Apply(Run(s, ops), op)
  {
    assert (ops + [op])[..|ops|] == ops;
  }

  lemma RunOne(s: Store, op: Op)
    ensures Run(s, [op]) == Apply(s, op)
  {
    RunAppend(s, [], op);
    assert [] + [op] == [op];
  }
}
