/** The life of a slot lock: five minutes, and at most one booking. */
module Locks {
  import opened Sums
  import opened Tables
  import opened Lifecycle

  /** Granted once, and now expired or spent. */
  predicate Dead(s: Store, id: Id) { id < |s.locks| && !s.IsLiveLock(id) }

  lemma DeadStaysDead(s: Store, op: Op, id: Id)
    requires Dead(s, id)
    ensures Dead(Apply(s, op), id)
  {
  }

  lemma {:induction false} DeadThroughRun(s: Store, ops: seq<Op>, id: Id)
    requires Dead(s, id)
    ensures Dead(Run(s, ops), id)
  {
    if |ops| > 0 {
      DeadThroughRun(s, ops[..|ops| - 1], id);
      DeadStaysDead(Run(s, ops[..|ops| - 1]), ops[|ops| - 1], id);
    }
  }

  /** Once a lock became a booking, no later call of any run turns it into another. */
  lemma OneBookingPerLock(s: Store, create: Op, later: seq<Op>, again: Op)
    requires create.CreateBooking? && Guard(s, create) == Ok
    requires again.CreateBooking? && again.lock == create.lock
    ensures Guard(Run(Apply(s, create), later), again) == Err(LockNotFound)
  {
    DeadThroughRun(Apply(s, create), later, create.lock);
  }

  function Seconds(): Op -> nat { (op: Op) => if op.Tick? then op.seconds else 0 }

  /** How much time passes in a run. */
  function Elapsed(ops: seq<Op>): nat { Sum(ops, Seconds()) }

  /** The call asks to turn the lock into a booking whose row the table accepts. */
  predicate Books(op: Op, lock: Id) { op.CreateBooking? && op.lock == lock && op.window.Ordered() }

  predicate NoneBooks(ops: seq<Op>, lock: Id) { forall k :: 0 <= k < |ops| ==> !Books(ops[k], lock) }

  /** The lock granted at an instant, so many seconds later: untouched, or gone. */
  predicate Aged(s: Store, id: Id, lock: BookingLock, granted: int, seconds: nat, untouched: bool) {
    && id < |s.locks| && s.now == granted + seconds && lock.expiresAt == granted + LOCK_TTL
    && (s.locks[id] == None || s.locks[id] == Some(lock))
    && (if untouched then s.locks[id].Some? else !s.IsLiveLock(id))
  }

  lemma StepAges(s: Store, op: Op, id: Id, lock: BookingLock, granted: int, seconds: nat, untouched: bool)
    requires Aged(s, id, lock, granted, seconds, untouched)
    ensures Aged(Apply(s, op), id, lock, granted, seconds + Seconds()(op), untouched && !Books(op, id))
  {
  }

  lemma {:induction false} RunAges(s: Store, ops: seq<Op>, id: Id, lock: BookingLock)
    requires id < |s.locks| && s.locks[id] == Some(lock) && lock.expiresAt == s.now + LOCK_TTL
    ensures Aged(Run(s, ops), id, lock, s.now, Elapsed(ops), NoneBooks(ops, id))
  {
    if |ops| > 0 {
      var before, last := ops[..|ops| - 1], ops[|ops| - 1];
      RunAges(s, before, id, lock);
      StepAges(Run(s, before), last, id, lock, s.now, Elapsed(before), NoneBooks(before, id));
      assert NoneBooks(ops, id) <==> NoneBooks(before, id) && !Books(last, id);
    }
  }

  /** After any run since it was granted, a lock is there to be booked exactly when less than five minutes have passed
      and no call of the run booked it; the booking then goes through unless it ends before it starts. */
  lemma BookableForFiveMinutes(s: Store, grant: Op, later: seq<Op>, create: Op)
    requires grant.LockSlot? && Guard(s, grant) == Ok
    requires create.CreateBooking? && create.lock == |s.locks|
    ensures Guard(Run(Apply(s, grant), later), create)
         == if Elapsed(later) >= 300 || !NoneBooks(later, create.lock) then Err(LockNotFound)
            else if create.window.start > create.window.end then Err(ConstraintViolation) else Ok
  {
    RunAges(Apply(s, grant), later, |s.locks|, NewLock(s, grant.service, grant.branch, grant.window, grant.quantity));
  }
}
