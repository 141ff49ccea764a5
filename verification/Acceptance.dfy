/** What the capacity checks of the three calls let through, instant by instant. */
module Acceptance {
  import opened Sums
  import opened Tables
  import opened Occupancy
  import opened Lifecycle
  import opened Chains
  import opened Capacity
  import opened CapacityLimits
  import opened OverlapTest

  /** LockSlot grants exactly what fits at every instant of the window, where no two held windows that overlap it keep
      apart. */
  lemma LockGrantedExactly(s: Store, service: Id, branch: Id, window: Window, quantity: nat, windows: iset<Window>)
    requires Reachable(s) && PairwiseMeet(windows, window) && UsesOnly(s, service, windows)
    ensures Guard(s, LockSlot(service, branch, window, quantity)) == Ok
       <==> && window.start < window.end && service in s.services && branch in s.branchOwner
            && forall t: int :: window.start <= t < window.end ==>
                 Load(s, service, t) + quantity <= s.services[service].capacity
    ensures Guard(s, LockSlot(service, branch, window, quantity)) == Err(SlotUnavailable)
       <==> && window.start < window.end && service in s.services
            && exists t: int :: window.start <= t < window.end
                 && Load(s, service, t) + quantity > s.services[service].capacity
    ensures Guard(s, LockSlot(service, branch, window, quantity)) == Err(ServiceNotFound)
       <==> window.start < window.end && service !in s.services
    ensures Guard(s, LockSlot(service, branch, window, quantity)) == Err(InvalidTimes) <==> window.start >= window.end
  {
    if window.Nonempty() {
      ReachableIsSound(s);
      AcceptedExactlyWithRoom(s, service, windows, window, quantity);
      assert forall t: int :: window.Covers(t) <==> window.start <= t < window.end;
    }
  }

  /** Approve accepts exactly what fits once more at every instant of a waiting booking's window: the load already
      counts the booking. */
  lemma ApprovedExactly(s: Store, id: Id, owner: Id, windows: iset<Window>)
    requires Reachable(s) && s.OwnsBookingBranch(id, owner) && s.bookings[id].status == AwaitingApproval
    requires s.bookings[id].window.Nonempty()
    requires PairwiseMeet(windows, s.bookings[id].window) && UsesOnly(s, s.bookings[id].service, windows)
    ensures var b := s.bookings[id];
      Guard(s, Approve(id, owner)) == Ok
      <==> forall t: int :: b.window.start <= t < b.window.end ==>
             Load(s, b.service, t) + b.quantity <= s.Capacity(b.service)
  {
    var b := s.bookings[id];
    ReachableIsSound(s);
    ReachableIsKnown(s);
    hide Reachable, Consistent, Safe;
    AcceptedExactlyWithRoom(s, b.service, windows, b.window, b.quantity);
    hide Held, Load;
    assert forall t: int :: b.window.Covers(t) <==> b.window.start <= t < b.window.end;
  }

  /** Every row is for a service that exists. */
  ghost predicate Known(s: Store) {
    && (forall i: Id :: s.IsBooking(i) ==> s.bookings[i].service in s.services)
    && (forall i: Id :: i < |s.locks| && s.locks[i].Some? ==> s.locks[i].value.service in s.services)
  }

  lemma KnownKept(s: Store, op: Op)
    requires Known(s)
    ensures Known(Apply(s, op))
  {
  }

  lemma {:induction false} RunKnown(s: Store, ops: seq<Op>)
    requires s.Empty()
    ensures Known(Run(s, ops))
  {
    if |ops| > 0 {
      RunKnown(s, ops[..|ops| - 1]);
      KnownKept(Run(s, ops[..|ops| - 1]), ops[|ops| - 1]);
    }
  }

  lemma ReachableIsKnown(s: Store)
    requires Reachable(s)
    ensures Known(s)
  {
    var s0: Store, ops: seq<Op> :| s0.Empty() && AllBound(ops) && Run(s0, ops) == s;
    RunKnown(s0, ops);
  }

  /** The store with one booking already moved out of the way. */
  function Vacated(s: Store, id: Id): Store
    requires s.IsBooking(id)
  {
    WithBooking(s, id, s.bookings[id].(status := Rescheduled))
  }

  lemma VacatedHolds(s: Store, id: Id, service: Id, query: Window)
    requires Numbered(s) && s.IsBooking(id)
    ensures Held(Vacated(s, id), service, query) == HeldByOthers(s, service, query, id)
  {
    SumUpdate(s.bookings, id, s.bookings[id].(status := Rescheduled), BookingIn(service, query));
    HeldSplits(s, service, query, id);
  }

  /** The approval transaction leaves the booking being moved out of account: it passes exactly when the conflict test
      would, were the booking already gone. */
  lemma MoveAcceptedExactly(s: Store, request: Id)
    requires Numbered(s) && IsPending(s, request) && s.IsBooking(s.requests[request].booking)
    requires s.bookings[s.requests[request].booking].service in s.services
    ensures var r := s.requests[request];
      var b := s.bookings[r.booking];
      RescheduleTxGuard(s, request) == Ok
      <==> !Conflict(WithBooking(s, r.booking, b.(status := Rescheduled)), b.service, r.window, b.quantity)
  {
    var r := s.requests[request];
    VacatedHolds(s, r.booking, s.bookings[r.booking].service, r.window);
  }

  lemma VacatedLoad(s: Store, id: Id, t: int)
    requires s.IsBooking(id)
    ensures var b := s.bookings[id];
      Load(Vacated(s, id), b.service, t) + (if IsActive(b.status) && b.window.Covers(t) then b.quantity else 0)
      == Load(s, b.service, t)
  {
    LoadAfterBookingChange(s, id, s.bookings[id].(status := Rescheduled), s.bookings[id].service, t);
  }

  lemma VacatedUses(s: Store, id: Id, windows: iset<Window>)
    requires s.IsBooking(id) && UsesOnly(s, s.bookings[id].service, windows) && RowsOrdered(s)
    ensures UsesOnly(Vacated(s, id), s.bookings[id].service, windows) && RowsOrdered(Vacated(s, id))
  {
    var service, s' := s.bookings[id].service, Vacated(s, id);
    forall w: Window | w in WindowsOf(s', service)
      ensures w in WindowsOf(s, service)
    {
      if b :| b in s'.bookings && b.service == service && IsActive(b.status) && b.window == w {
        assert b in s.bookings;
      }
    }
  }

  /** A move is approved exactly when its quantity fits at every instant of the new window beside all but the booking
      itself, where no two held windows that overlap the new one keep apart. */
  lemma MoveFitsExactly(s: Store, request: Id, owner: Id, windows: iset<Window>)
    requires Reachable(s) && IsPending(s, request) && s.OwnsRescheduleBranch(request, owner)
    requires PairwiseMeet(windows, s.requests[request].window)
    requires UsesOnly(s, s.bookings[s.requests[request].booking].service, windows)
    ensures var r := s.requests[request];
      var b := s.bookings[r.booking];
      Guard(s, ApproveReschedule(request, owner)) == Ok
      <==> forall t: int :: r.window.start <= t < r.window.end ==>
             Load(s, b.service, t) - (if b.status == Confirmed && b.window.start <= t < b.window.end then b.quantity else 0)
             + b.quantity <= s.Capacity(b.service)
  {
    var r := s.requests[request];
    var b := s.bookings[r.booking];
    ReachableIsSound(s);
    ReachableIsKnown(s);
    hide Reachable, Safe, Counted;
    MoveAcceptedExactly(s, request);
    VacatedUses(s, r.booking, windows);
    AcceptedExactlyWithRoom(Vacated(s, r.booking), b.service, windows, r.window, b.quantity);
    forall t: int { VacatedLoad(s, r.booking, t); }
    hide Conflict, Load;
    assert forall t: int :: r.window.Covers(t) <==> r.window.start <= t < r.window.end;
  }

  /** On a timetable a confirmed booking can always be moved to the window it holds. */
  lemma MoveInPlaceSucceeds(s: Store, request: Id, owner: Id, windows: iset<Window>)
    requires Reachable(s) && IsPending(s, request) && s.OwnsRescheduleBranch(request, owner) && Timetable(windows)
    requires UsesOnly(s, s.bookings[s.requests[request].booking].service, windows)
    requires s.bookings[s.requests[request].booking].status == Confirmed
    requires s.bookings[s.requests[request].booking].window == s.requests[request].window
    ensures Guard(s, ApproveReschedule(request, owner)) == Ok
  {
    var i := s.requests[request].booking;
    var b := s.bookings[i];
    assert b in s.bookings;
    assert b.window in WindowsOf(s, b.service);
    ReachableIsSound(s);
    assert PairwiseMeet(windows, b.window);
    MoveFitsExactly(s, request, owner, windows);
    forall t: int | b.window.start <= t < b.window.end
      ensures Load(s, b.service, t) <= s.Capacity(b.service)
    {
      SumMember(s.bookings, i, BookingAt(b.service, t));
      ReachableIsPositive(s);
      assert Load(s, b.service, t) == 0 || Load(s, b.service, t) <= s.Capacity(b.service);
    }
  }
}
