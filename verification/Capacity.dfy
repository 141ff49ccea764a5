/** Capacity at every instant, over every serial run. */
module Capacity {
  import opened Sums
  import opened Tables
  import opened Occupancy
  import opened Lifecycle
  import opened Chains

  /** What CreateBooking does not check: the request asks for no more than its lock reserved. */
  predicate CoveredByLock(lock: BookingLock, window: Window, quantity: nat) {
    quantity == 0 || !window.Nonempty() || (window.Inside(lock.window) && quantity <= lock.quantity)
  }

  predicate Fits(s: Store, op: Op) {
    op.CreateBooking? && s.IsLiveLock(op.lock) ==> CoveredByLock(s.locks[op.lock].value, op.window, op.quantity)
  }

  /** Every CreateBooking of the run asks for no more than its lock reserved. */
  ghost predicate AllFit(s: Store, ops: seq<Op>) {
    forall k :: 0 <= k < |ops| ==> Fits(Run(s, ops[..k]), ops[k])
  }

  lemma LoadAfterBookingChange(s: Store, i: Id, b: Booking, service: Id, t: int)
    requires s.IsBooking(i)
    ensures Load(WithBooking(s, i, b), service, t) + BookingAt(service, t)(s.bookings[i])
         == Load(s, service, t) + BookingAt(service, t)(b)
  {
    SumUpdate(s.bookings, i, b, BookingAt(service, t));
  }

  /** The store after CreateBooking: one booking more, one lock fewer. */
  function Booked(s: Store, lock: Id, b: Booking): Store
    requires lock < |s.locks|
  {
    s.(bookings := s.bookings + [b], locks := s.locks[lock := None])
  }

  lemma LoadAfterCreate(s: Store, lock: Id, b: Booking, service: Id, t: int)
    requires lock < |s.locks|
    ensures Load(Booked(s, lock, b), service, t) + LockAt(service, t, s.now)(s.locks[lock])
         == Load(s, service, t) + BookingAt(service, t)(b)
  {
    SumAppend(s.bookings, b, BookingAt(service, t));
    SumUpdate(s.locks, lock, None, LockAt(service, t, s.now));
  }

  /** A committed reschedule moves the load by minus the original's share and plus the new window's, at each instant. */
  lemma LoadAfterReschedule(s: Store, request: Id, service: Id, t: int)
    requires s.IsRequest(request) && s.IsBooking(s.requests[request].booking)
    ensures var r := s.requests[request];
      var b := s.bookings[r.booking];
      Load(Reschedule(s, request), service, t)
        + (if b.service == service && IsActive(b.status) && b.window.Covers(t) then b.quantity else 0)
      == Load(s, service, t)
        + (if b.service == service && r.window.Covers(t) then b.quantity else 0)
  {
    var r := s.requests[request];
    var b := s.bookings[r.booking];
    SumUpdate(s.bookings, r.booking, b.(status := Rescheduled), BookingAt(service, t));
    SumAppend(s.bookings[r.booking := b.(status := Rescheduled)], Successor(s, b, r.window), BookingAt(service, t));
  }

  predicate Spans(window: Window, t: int) { window.start <= t < window.end }

  function Share(at: Id, window: Window, quantity: nat, service: Id, t: int): nat {
    if at == service && Spans(window, t) then quantity else 0
  }

  /** A grant adds; a booking takes over from its lock; a rejection or a cancellation gives back; a move gives back and
      adds; the other calls change nothing. */
  ghost function LoadChange(s: Store, op: Op, service: Id, t: int): int
    requires Proposed(s) && Guard(s, op) == Ok
  {
    match op
    case LockSlot(at, _, window, quantity) => Share(at, window, quantity, service, t)
    case CreateBooking(lock, window, quantity, _, _) =>
      var l := s.locks[lock].value;
      Share(l.service, window, quantity, service, t) - Share(l.service, l.window, l.quantity, service, t)
    case Reject(id, _, _) => var b := s.bookings[id]; 0 - Share(b.service, b.window, b.quantity, service, t)
    case Cancel(id, _, _) => var b := s.bookings[id]; 0 - Share(b.service, b.window, b.quantity, service, t)
    case ApproveReschedule(request, _) =>
      var r := s.requests[request];
      var b := s.bookings[r.booking];
      Share(b.service, r.window, b.quantity, service, t)
      - (if b.status == Confirmed then Share(b.service, b.window, b.quantity, service, t) else 0)
    case _ => 0
  }

  lemma StatusMovesLoad(s: Store, op: Op, service: Id, t: int)
    requires Proposed(s) && Guard(s, op) == Ok
    requires op.ConfirmPayment? || op.Approve? || op.Reject? || op.Cancel?
    ensures Load(Apply(s, op), service, t) == Load(s, service, t) + LoadChange(s, op, service, t)
  {
    var b := Effect(s, op).bookings[op.booking];
    LoadAfterBookingChange(s, op.booking, b, service, t);
    assert Apply(s, op) == WithBooking(s, op.booking, b);
    hide Load;
  }

  lemma LocksMoveLoad(s: Store, op: Op, service: Id, t: int)
    requires Proposed(s) && Guard(s, op) == Ok && (op.LockSlot? || op.CreateBooking?)
    ensures Load(Apply(s, op), service, t) == Load(s, service, t) + LoadChange(s, op, service, t)
  {
    match op {
      case LockSlot(at, branch, window, quantity) =>
        SumAppend(s.locks, Some(NewLock(s, at, branch, window, quantity)), LockAt(service, t, s.now));
      case CreateBooking(lock, window, quantity, payment, customer) =>
        LoadAfterCreate(s, lock, NewBooking(s, s.locks[lock].value, window, quantity, payment, customer), service, t);
    }
  }

  lemma AskingMovesNoLoad(s: Store, id: Id, customer: Id, window: Window, service: Id, t: int)
    requires Guard(s, RequestReschedule(id, customer, window)) == Ok
    ensures Load(Apply(s, RequestReschedule(id, customer, window)), service, t) == Load(s, service, t)
  {
    LoadAfterBookingChange(s, id, s.bookings[id].(attempts := s.bookings[id].attempts + 1), service, t);
  }

  lemma RequestsMoveLoad(s: Store, op: Op, service: Id, t: int)
    requires Proposed(s) && Guard(s, op) == Ok && (op.RequestReschedule? || op.ApproveReschedule? || op.RejectReschedule?)
    ensures Load(Apply(s, op), service, t) == Load(s, service, t) + LoadChange(s, op, service, t)
  {
    match op {
      case ApproveReschedule(request, _) =>
        LoadAfterReschedule(s, request, service, t);
        hide Load;
      case RejectReschedule(_, _) =>
      case RequestReschedule(id, customer, window) =>
        AskingMovesNoLoad(s, id, customer, window, service, t);
        hide Load, Apply;
    }
  }

  /** What each call but the clock's does to the load of each instant. */
  lemma LoadAfterCall(s: Store, op: Op, service: Id, t: int)
    requires Proposed(s) && Guard(s, op) == Ok && !op.Tick?
    ensures Load(Apply(s, op), service, t) == Load(s, service, t) + LoadChange(s, op, service, t)
  {
    hide Load, Apply, LoadChange, Guard;
    if op.LockSlot? || op.CreateBooking? {
      LocksMoveLoad(s, op, service, t);
    } else if op.RequestReschedule? || op.ApproveReschedule? || op.RejectReschedule? {
      RequestsMoveLoad(s, op, service, t);
    } else {
      StatusMovesLoad(s, op, service, t);
    }
  }

  /** The locks that expire within so many seconds. */
  function ExpiringAt(service: Id, t: int, now: int, seconds: nat): Option<BookingLock> -> nat {
    (l: Option<BookingLock>) =>
      if l.Some? && l.value.service == service && Spans(l.value.window, t) && now < l.value.expiresAt <= now + seconds
      then l.value.quantity else 0
  }

  /** The passing of time takes away what expires in it and nothing else. */
  lemma LoadAfterTick(s: Store, seconds: nat, service: Id, t: int)
    ensures Load(Apply(s, Tick(seconds)), service, t)
         == Load(s, service, t) - Sum(s.locks, ExpiringAt(service, t, s.now, seconds))
  {
    SumSplits(s.locks, LockAt(service, t, s.now), LockAt(service, t, s.now + seconds),
              ExpiringAt(service, t, s.now, seconds));
  }

  lemma LockKeepsSafe(s: Store, op: Op)
    requires op.LockSlot? && Guard(s, op) == Ok && Safe(s)
    ensures Safe(Effect(s, op))
  {
    var lock := NewLock(s, op.service, op.branch, op.window, op.quantity);
    var s' := Effect(s, op);
    forall service: Id, t: int
      ensures Load(s', service, t) == 0 || Load(s', service, t) <= s.Capacity(service)
    {
      assert Load(s, service, t) == 0 || Load(s, service, t) <= s.Capacity(service);
      SumAppend(s.locks, Some(lock), LockAt(service, t, s.now));
      if service == op.service && op.window.Covers(t) {
        LoadWithinHeld(s, service, op.window, t);
      }
    }
  }

  lemma CreateKeepsSafe(s: Store, lock: Id, b: Booking)
    requires Safe(s) && s.IsLiveLock(lock)
    requires b.service == s.locks[lock].value.service && CoveredByLock(s.locks[lock].value, b.window, b.quantity)
    ensures Safe(Booked(s, lock, b))
  {
    var s' := Booked(s, lock, b);
    forall service: Id, t: int
      ensures Load(s', service, t) == 0 || Load(s', service, t) <= s.Capacity(service)
    {
      LoadAfterCreate(s, lock, b, service, t);
      assert Load(s', service, t) <= Load(s, service, t);
    }
  }

  lemma RescheduleKeepsSafe(s: Store, request: Id)
    requires Numbered(s) && RescheduleTxGuard(s, request) == Ok && Safe(s)
    ensures Safe(Reschedule(s, request))
  {
    var r := s.requests[request];
    var b := s.bookings[r.booking];
    var s' := Reschedule(s, request);
    forall service: Id, t: int
      ensures Load(s', service, t) == 0 || Load(s', service, t) <= s.Capacity(service)
    {
      LoadAfterReschedule(s, request, service, t);
      if service == b.service && r.window.Covers(t) {
        OthersWithinLoad(s, service, r.window, t, r.booking);
      }
    }
  }

  lemma StatusChangeKeepsSafe(s: Store, i: Id, b: Booking)
    requires s.IsBooking(i) && Safe(s)
    requires b.service == s.bookings[i].service && b.window == s.bookings[i].window && b.quantity == s.bookings[i].quantity
    requires IsActive(b.status) ==> IsActive(s.bookings[i].status)
    ensures Safe(WithBooking(s, i, b))
  {
    forall service: Id, t: int
      ensures Load(WithBooking(s, i, b), service, t) == 0
           || Load(WithBooking(s, i, b), service, t) <= s.Capacity(service)
    {
      LoadAfterBookingChange(s, i, b, service, t);
    }
  }

  lemma TickKeepsSafe(s: Store, seconds: nat)
    requires Safe(s)
    ensures Safe(s.(now := s.now + seconds))
  {
    var s' := s.(now := s.now + seconds);
    forall service: Id, t: int
      ensures Load(s', service, t) == 0 || Load(s', service, t) <= s.Capacity(service)
    {
      SumLe(s.locks, LockAt(service, t, s'.now), LockAt(service, t, s.now));
      assert Load(s', service, t) <= Load(s, service, t);
    }
  }

  lemma SafeKept(s: Store, op: Op)
    requires Numbered(s) && Safe(s) && Fits(s, op)
    ensures Safe(Apply(s, op))
  {
    if Guard(s, op) == Ok {
      match op {
        case LockSlot(_, _, _, _) => LockKeepsSafe(s, op);
        case CreateBooking(lock, window, quantity, payment, customer) =>
          CreateKeepsSafe(s, lock, NewBooking(s, s.locks[lock].value, window, quantity, payment, customer));
        case Tick(seconds) => TickKeepsSafe(s, seconds);
        case ApproveReschedule(request, _) => RescheduleKeepsSafe(s, request);
        case RejectReschedule(request, _) =>
          assert forall service: Id, t: int :: Load(Effect(s, op), service, t) == Load(s, service, t);
        case RequestReschedule(id, _, _) =>
          StatusChangeKeepsSafe(s, id, s.bookings[id].(attempts := s.bookings[id].attempts + 1));
          var s1 := WithBooking(s, id, s.bookings[id].(attempts := s.bookings[id].attempts + 1));
          assert forall service: Id, t: int :: Load(Effect(s, op), service, t) == Load(s1, service, t);
        case _ => StatusChangeKeepsSafe(s, op.booking, Effect(s, op).bookings[op.booking]);
      }
    }
  }

  lemma {:induction false} RunSafe(s: Store, ops: seq<Op>)
    requires s.Empty() && AllFit(s, ops)
    ensures Safe(Run(s, ops))
  {
    if |ops| > 0 {
      var before := ops[..|ops| - 1];
      assert forall k :: 0 <= k < |before| ==> before[..k] == ops[..k];
      RunSafe(s, before);
      RunConsistent(s, before);
      SafeKept(Run(s, before), ops[|ops| - 1]);
    }
  }

  /** No instant of any service is ever booked and locked beyond its capacity. */
  lemma CapacityAtEveryInstant(s: Store, ops: seq<Op>, service: Id, t: int)
    requires s.Empty() && AllFit(s, ops)
    ensures Load(Run(s, ops), service, t) <= if s.Capacity(service) >= 0 then s.Capacity(service) else 0
  {
    RunSafe(s, ops);
    CapacityIsFixed(s, ops, service);
  }

  lemma {:induction false} CapacityIsFixed(s: Store, ops: seq<Op>, service: Id)
    ensures Run(s, ops).services == s.services
  {
    if |ops| > 0 {
      CapacityIsFixed(s, ops[..|ops| - 1], service);
    }
  }
}
