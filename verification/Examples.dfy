/** Reachable stores built call by call: one service, at branch 0 of owner 0, booked by customer 0. */
module Examples {
  import opened Sums
  import opened Tables
  import opened Occupancy
  import opened Lifecycle
  import opened Capacity
  import opened CapacityLimits

  /** A service about to open. */
  function Shop(row: ServiceRow): Store {
    Store(map[0 := row], map[0 := 0], [], [], [], 0)
  }

  predicate IsShop(s: Store) { 0 in s.services && 0 in s.branchOwner && s.branchOwner[0] == 0 }

  function MultiRow(capacity: int): ServiceRow { ServiceRow(capacity, Multi, 30, 30) }

  lemma ShopIsReachable(row: ServiceRow)
    ensures Reachable(Shop(row))
  {
    assert Run(Shop(row), []) == Shop(row);
    assert AllFit(Shop(row), []) && AllBound([]);
  }

  lemma ExtendReachable(s: Store, op: Op)
    requires Reachable(s) && Fits(s, op) && Bound(op)
    ensures Reachable(Apply(s, op))
  {
    var s0: Store, ops: seq<Op> :| s0.Empty() && AllFit(s0, ops) && AllBound(ops) && Run(s0, ops) == s;
    RunAppend(s0, ops, op);
    forall k | 0 <= k < |ops + [op]|
      ensures Fits(Run(s0, (ops + [op])[..k]), (ops + [op])[k])
    {
      assert (ops + [op])[..k] == ops[..k];
    }
    assert AllBound(ops + [op]);
  }

  function Locked(s: Store, window: Window, quantity: nat): Store {
    s.(locks := s.locks + [Some(NewLock(s, 0, 0, window, quantity))])
  }

  lemma GrantLock(s: Store, window: Window, quantity: nat)
    requires Reachable(s) && IsShop(s) && window.Nonempty() && quantity >= 1 && !Conflict(s, 0, window, quantity)
    ensures Reachable(Locked(s, window, quantity))
  {
    ExtendReachable(s, LockSlot(0, 0, window, quantity));
  }

  function PendingRow(id: Id, window: Window, quantity: nat): Booking {
    Booking(id, 0, 0, 0, window, quantity, Pending, None, None, None, 0, None, None, "PHP")
  }

  function ConfirmedRow(id: Id, window: Window, quantity: nat, now: int): Booking {
    PendingRow(id, window, quantity).(status := Confirmed, ownerResponseDeadline := Some(now + OWNER_RESPONSE_WINDOW))
  }

  /** One booking more; its lock is spent. */
  function Placed(s: Store, b: Booking): Store {
    s.(bookings := s.bookings + [b], locks := s.locks + [None])
  }

  lemma BookLocked(s: Store, locked: Window, reserved: nat, window: Window, quantity: nat)
    requires window.Ordered()
    ensures Apply(Locked(s, locked, reserved), CreateBooking(|s.locks|, window, quantity, None, 0))
         == Placed(s, PendingRow(|s.bookings|, window, quantity))
  {
    assert Locked(s, locked, reserved).locks[|s.locks| := None] == s.locks + [None];
  }

  /** Lock a window, then turn the lock into a booking. */
  lemma BookPending(s: Store, locked: Window, reserved: nat, window: Window, quantity: nat)
    requires Reachable(s) && IsShop(s) && locked.Nonempty() && !Conflict(s, 0, locked, reserved)
    requires reserved >= 1 && quantity >= 1 && window.Ordered()
    requires CoveredByLock(NewLock(s, 0, 0, locked, reserved), window, quantity)
    ensures Reachable(Placed(s, PendingRow(|s.bookings|, window, quantity)))
  {
    GrantLock(s, locked, reserved);
    var s1 := Locked(s, locked, reserved);
    var create := CreateBooking(|s.locks|, window, quantity, None, 0);
    BookLocked(s, locked, reserved, window, quantity);
    ExtendReachable(s1, create);
  }

  lemma PlacedHolds(s: Store, b: Booking, query: Window)
    ensures Held(Placed(s, b), 0, query) == Held(s, 0, query) + BookingIn(0, query)(b)
  {
    SumAppend(s.bookings, b, BookingIn(0, query));
    SumAppend(s.locks, None, LockIn(0, query, s.now));
  }

  lemma LockedHolds(s: Store, window: Window, quantity: nat, query: Window)
    ensures Held(Locked(s, window, quantity), 0, query)
         == Held(s, 0, query) + if window.Overlaps(query) then quantity else 0
  {
    SumAppend(s.locks, Some(NewLock(s, 0, 0, window, quantity)), LockIn(0, query, s.now));
  }

  function WaitingRow(id: Id, window: Window, quantity: nat, now: int): Booking {
    PendingRow(id, window, quantity).(status := AwaitingApproval, ownerResponseDeadline := Some(now + OWNER_RESPONSE_WINDOW))
  }

  lemma PayPlaced(s: Store, window: Window, quantity: nat)
    ensures var id := |s.bookings|;
      Apply(Placed(s, PendingRow(id, window, quantity)), ConfirmPayment(id))
      == Placed(s, WaitingRow(id, window, quantity, s.now))
  {
    var id := |s.bookings|;
    assert (s.bookings + [PendingRow(id, window, quantity)])[id := WaitingRow(id, window, quantity, s.now)]
        == s.bookings + [WaitingRow(id, window, quantity, s.now)];
  }

  lemma ApprovePlaced(s: Store, window: Window, quantity: nat)
    requires IsShop(s) && window.Nonempty() && !Conflict(s, 0, window, 2 * quantity)
    ensures var id := |s.bookings|;
      Apply(Placed(s, WaitingRow(id, window, quantity, s.now)), Approve(id, 0))
      == Placed(s, ConfirmedRow(id, window, quantity, s.now))
  {
    var id := |s.bookings|;
    var waiting, confirmed := WaitingRow(id, window, quantity, s.now), ConfirmedRow(id, window, quantity, s.now);
    PlacedHolds(s, waiting, window);
    hide Held;
    assert (s.bookings + [waiting])[id := confirmed] == s.bookings + [confirmed];
    assert ApproveGuard(Placed(s, waiting), id, 0) == Ok;
  }

  /** The whole way to 'confirmed', for which Approve needs twice the quantity. */
  lemma BookConfirmed(s: Store, window: Window, quantity: nat)
    requires Reachable(s) && IsShop(s) && window.Nonempty() && quantity >= 1 && !Conflict(s, 0, window, 2 * quantity)
    ensures Reachable(Placed(s, ConfirmedRow(|s.bookings|, window, quantity, s.now)))
  {
    hide Apply, Reachable;
    var id := |s.bookings|;
    BookPending(s, window, quantity, window, quantity);
    PayPlaced(s, window, quantity);
    ExtendReachable(Placed(s, PendingRow(id, window, quantity)), ConfirmPayment(id));
    ApprovePlaced(s, window, quantity);
    ExtendReachable(Placed(s, WaitingRow(id, window, quantity, s.now)), Approve(id, 0));
  }

  function LoneStore(capacity: int, b: Booking, requests: seq<RescheduleRequest>): Store {
    Store(map[0 := MultiRow(capacity)], map[0 := 0], [b], [None], requests, 0)
  }

  lemma LonePending(capacity: int, window: Window, quantity: nat)
    requires window.Nonempty() && 1 <= quantity <= capacity
    ensures Reachable(LoneStore(capacity, PendingRow(0, window, quantity), []))
  {
    hide Reachable;
    var shop := Shop(MultiRow(capacity));
    ShopIsReachable(MultiRow(capacity));
    assert Held(shop, 0, window) == 0;
    BookPending(shop, window, quantity, window, quantity);
    assert Placed(shop, PendingRow(0, window, quantity)) == LoneStore(capacity, PendingRow(0, window, quantity), []);
  }
}
