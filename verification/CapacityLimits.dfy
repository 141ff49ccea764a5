/** Where capacity safety ends: the exact condition on CreateBooking, and what the overlap test guarantees anywhere. */
module CapacityLimits {
  import opened Sums
  import opened Tables
  import opened Occupancy
  import opened Lifecycle
  import opened Chains
  import opened Capacity

  /** What the request binding lets through: a lock or a booking asks for at least one. */
  predicate Bound(op: Op) { op.LockSlot? || op.CreateBooking? ==> op.quantity >= 1 }

  predicate AllBound(ops: seq<Op>) { forall k :: 0 <= k < |ops| ==> Bound(ops[k]) }

  ghost predicate Reachable(s: Store) {
    exists s0: Store, ops: seq<Op> :: s0.Empty() && AllFit(s0, ops) && AllBound(ops) && Run(s0, ops) == s
  }

  lemma OrderedKept(s: Store, op: Op)
    requires RowsOrdered(s)
    ensures RowsOrdered(Apply(s, op))
  {
  }

  lemma {:induction false} RunOrdered(s: Store, ops: seq<Op>)
    requires s.Empty()
    ensures RowsOrdered(Run(s, ops))
  {
    if |ops| > 0 {
      RunOrdered(s, ops[..|ops| - 1]);
      OrderedKept(Run(s, ops[..|ops| - 1]), ops[|ops| - 1]);
    }
  }

  /** Every row is for at least one. */
  ghost predicate RowsPositive(s: Store) {
    && (forall i: Id :: s.IsBooking(i) ==> s.bookings[i].quantity >= 1)
    && (forall i: Id :: i < |s.locks| && s.locks[i].Some? ==> s.locks[i].value.quantity >= 1)
  }

  lemma PositiveKept(s: Store, op: Op)
    requires RowsPositive(s) && Bound(op)
    ensures RowsPositive(Apply(s, op))
  {
  }

  lemma {:induction false} RunPositive(s: Store, ops: seq<Op>)
    requires s.Empty() && AllBound(ops)
    ensures RowsPositive(Run(s, ops))
  {
    if |ops| > 0 {
      RunPositive(s, ops[..|ops| - 1]);
      PositiveKept(Run(s, ops[..|ops| - 1]), ops[|ops| - 1]);
    }
  }

  lemma ReachableIsPositive(s: Store)
    requires Reachable(s)
    ensures RowsPositive(s)
  {
    var s0: Store, ops: seq<Op> :| s0.Empty() && AllFit(s0, ops) && AllBound(ops) && Run(s0, ops) == s;
    RunPositive(s0, ops);
  }

  lemma ReachableIsSound(s: Store)
    requires Reachable(s)
    ensures Consistent(s) && Safe(s) && RowsOrdered(s)
  {
    var s0: Store, ops: seq<Op> :| s0.Empty() && AllFit(s0, ops) && AllBound(ops) && Run(s0, ops) == s;
    RunSafe(s0, ops);
    RunConsistent(s0, ops);
    RunOrdered(s0, ops);
  }

  /** In every reachable store that holds the lock, turning it into this booking leaves capacity respected. */
  ghost predicate AlwaysSafeToCreate(lock: BookingLock, capacity: int, window: Window, quantity: nat) {
    forall s: Store, id: Id, payment: Option<PaymentMethod>, customer: Id ::
      Reachable(s) && s.IsLiveLock(id) && s.locks[id].value == lock && s.Capacity(lock.service) == capacity
      ==> Safe(Apply(s, CreateBooking(id, window, quantity, payment, customer)))
  }

  /** An instant at which an uncovered request exceeds its lock, and the room the lock leaves there. */
  lemma UncoveredInstant(lock: BookingLock, window: Window, quantity: nat) returns (t: int)
    requires !CoveredByLock(lock, window, quantity)
    ensures window.Covers(t) && quantity > (if lock.window.Covers(t) then lock.quantity else 0)
  {
    t := if window.start < lock.window.start then window.start
         else if quantity <= lock.quantity then window.end - 1 else window.start;
  }

  /** An empty store whose one service has the lock's service and branch, at the instant the lock is granted. */
  function Bare(lock: BookingLock, capacity: int): Store {
    Store(map[lock.service := ServiceRow(capacity, Multi, 30, 30)], map[lock.branch := 0], [], [], [],
          lock.expiresAt - LOCK_TTL)
  }

  /** What the lock leaves of an instant. */
  function Rest(lock: BookingLock, capacity: int, t: int): nat
    requires lock.quantity <= capacity
  {
    capacity - if lock.window.Covers(t) then lock.quantity else 0
  }

  lemma LockedLoads(s: Store, lock: BookingLock, t: int)
    requires s.bookings == [] && s.locks == [Some(lock)] && s.now < lock.expiresAt
    ensures Load(s, lock.service, t) == if lock.window.Covers(t) then lock.quantity else 0
  {
    OneRow(Some(lock), LockAt(lock.service, t, s.now));
  }

  /** After granting the lock and locking all the rest of one instant, the store is full there. */
  lemma FillInstant(lock: BookingLock, capacity: int, t: int) returns (s: Store)
    requires lock.window.Nonempty() && 1 <= lock.quantity <= capacity
    ensures Reachable(s) && s.IsLiveLock(0) && s.locks[0].value == lock && s.Capacity(lock.service) == capacity
    ensures s.bookings == [] && Load(s, lock.service, t) == capacity
  {
    var s0 := Bare(lock, capacity);
    var first := LockSlot(lock.service, lock.branch, lock.window, lock.quantity);
    assert Held(s0, lock.service, lock.window) == 0;
    var s1 := Apply(s0, first);
    assert s1.locks == [Some(lock)];
    RunOne(s0, first);
    assert AllFit(s0, [first]);
    LockedLoads(s1, lock, t);
    s := s1;
    if Rest(lock, capacity, t) > 0 {
      s := FillRest(s0, s1, first, lock, capacity, t);
    }
  }

  lemma FillRest(s0: Store, s1: Store, first: Op, lock: BookingLock, capacity: int, t: int) returns (s: Store)
    requires s0 == Bare(lock, capacity) && s1 == Run(s0, [first]) && AllFit(s0, [first]) && Bound(first)
    requires s1 == s0.(locks := [Some(lock)]) && lock.quantity <= capacity && Rest(lock, capacity, t) > 0
    ensures Reachable(s) && s.IsLiveLock(0) && s.locks[0].value == lock && s.Capacity(lock.service) == capacity
    ensures s.bookings == [] && Load(s, lock.service, t) == capacity
  {
    var second := LockSlot(lock.service, lock.branch, Window(t, t + 1), Rest(lock, capacity, t));
    s := RestLocked(s1, second, lock, capacity, t);
    hide Load, Apply;
    RunAppend(s0, [first], second);
    var ops := [first] + [second];
    assert ops[..1] == [first];
    assert AllFit(s0, ops) && AllBound(ops);
  }

  lemma RestLocked(s1: Store, second: Op, lock: BookingLock, capacity: int, t: int) returns (s: Store)
    requires lock.quantity <= capacity && s1 == Bare(lock, capacity).(locks := [Some(lock)])
    requires second == LockSlot(lock.service, lock.branch, Window(t, t + 1), Rest(lock, capacity, t))
    ensures s == Apply(s1, second)
    ensures s.IsLiveLock(0) && s.locks[0].value == lock && s.Capacity(lock.service) == capacity
    ensures s.bookings == [] && Load(s, lock.service, t) == capacity
  {
    OneRow(Some(lock), LockIn(lock.service, second.window, s1.now));
    s := Apply(s1, second);
    var filler := NewLock(s1, lock.service, lock.branch, second.window, second.quantity);
    assert s.locks == [Some(lock)] + [Some(filler)];
    SumAppend([Some(lock)], Some(filler), LockAt(lock.service, t, s.now));
    LockedLoads(s1, lock, t);
  }

  lemma OneRow<R>(row: R, weight: R -> nat)
    ensures Sum([row], weight) == weight(row)
  {
    assert [] + [row] == [row];
    SumAppend([], row, weight);
  }

  /** For a lock the service can grant, CreateBooking is safe in every reachable store
      exactly when the request stays within the lock. */
  lemma CreateIsSafeExactlyWithinLock(lock: BookingLock, capacity: int, window: Window, quantity: nat)
    requires lock.window.Nonempty() && 1 <= lock.quantity <= capacity
    ensures AlwaysSafeToCreate(lock, capacity, window, quantity) <==> CoveredByLock(lock, window, quantity)
  {
    if CoveredByLock(lock, window, quantity) {
      forall s: Store, id: Id, payment: Option<PaymentMethod>, customer: Id |
        Reachable(s) && s.IsLiveLock(id) && s.locks[id].value == lock && s.Capacity(lock.service) == capacity
        ensures Safe(Apply(s, CreateBooking(id, window, quantity, payment, customer)))
      {
        ReachableIsSound(s);
        SafeKept(s, CreateBooking(id, window, quantity, payment, customer));
      }
    } else {
      var t := UncoveredInstant(lock, window, quantity);
      var s := FillInstant(lock, capacity, t);
      var create := CreateBooking(0, window, quantity, None, 0);
      LoadAfterCreate(s, 0, NewBooking(s, lock, window, quantity, None, 0), lock.service, t);
      assert Load(Apply(s, create), lock.service, t) > capacity;
      assert !Safe(Apply(s, create));
    }
  }

  /** The overlap-sum test never lets an instant past capacity, whatever the windows. */
  lemma AcceptedMeansRoomEverywhere(s: Store, service: Id, window: Window, quantity: nat)
    requires !Conflict(s, service, window, quantity)
    ensures forall t: int :: window.Covers(t) ==> Load(s, service, t) + quantity <= s.Capacity(service)
  {
    forall t: int | window.Covers(t)
      ensures Load(s, service, t) + quantity <= s.Capacity(service)
    {
      LoadWithinHeld(s, service, window, t);
    }
  }
}
