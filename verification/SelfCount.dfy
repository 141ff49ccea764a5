/** Approve re-checks the slot with a query that counts the booking being approved. */
module SelfCount {
  import opened Sums
  import opened Tables
  import opened Occupancy
  import opened Lifecycle
  import opened Chains
  import opened Capacity
  import opened CapacityLimits
  import opened Examples
  import opened StatusRelation

  /** How often CheckSlotConflict weighs a booking against its own window: twice if the window is nonempty. */
  function Demand(b: Booking): nat { if b.window.Nonempty() then 2 * b.quantity else b.quantity }

  lemma ApproveAcceptsExactly(s: Store, id: Id, owner: Id)
    requires Numbered(s) && s.OwnsBookingBranch(id, owner) && s.bookings[id].status == AwaitingApproval
    requires s.bookings[id].service in s.services
    ensures var b := s.bookings[id];
      ApproveGuard(s, id, owner) == Ok <==> HeldByOthers(s, b.service, b.window, id) + Demand(b) <= s.Capacity(b.service)
  {
    HeldSplits(s, s.bookings[id].service, s.bookings[id].window, id);
  }

  /** The re-check the comment above it describes: room for this booking beside the others. */
  predicate RoomBesideOthers(s: Store, id: Id)
    requires s.IsBooking(id)
  {
    var b := s.bookings[id];
    HeldByOthers(s, b.service, b.window, id) + b.quantity <= s.Capacity(b.service)
  }

  /** In every reachable store the re-check decides a waiting booking of this shape as the self-excluding one would. */
  ghost predicate RecheckIsFaithful(window: Window, quantity: nat) {
    forall s: Store, id: Id :: Reachable(s) && Waiting(s, id, window, quantity) ==>
      (Conflict(s, s.bookings[id].service, window, quantity) <==> !RoomBesideOthers(s, id))
  }

  predicate Waiting(s: Store, id: Id, window: Window, quantity: nat) {
    && s.IsBooking(id) && s.bookings[id].status == AwaitingApproval
    && s.bookings[id].window == window && s.bookings[id].quantity == quantity
  }

  /** A lone booking awaiting approval that fills its service exactly. */
  lemma LoneBooking(window: Window, quantity: nat) returns (s: Store)
    requires window.Nonempty() && quantity >= 1
    ensures Reachable(s) && Waiting(s, 0, window, quantity) && |s.bookings| == 1 && s.locks == [None]
    ensures s.bookings[0].service == 0 && s.bookings[0].id == 0 && s.Capacity(0) == quantity
  {
    LonePending(quantity, window, quantity);
    var before := LoneStore(quantity, PendingRow(0, window, quantity), []);
    ExtendReachable(before, ConfirmPayment(0));
    s := Apply(before, ConfirmPayment(0));
  }

  /** It is refused, though it is alone and fits. */
  lemma LoneBookingIsRefused(s: Store, window: Window, quantity: nat)
    requires window.Nonempty() && quantity > 0
    requires Waiting(s, 0, window, quantity) && |s.bookings| == 1 && s.locks == [None]
    requires s.bookings[0].service == 0 && s.bookings[0].id == 0 && s.Capacity(0) == quantity
    ensures Conflict(s, 0, window, quantity) && RoomBesideOthers(s, 0)
  {
    var b := s.bookings[0];
    assert s.bookings == [b];
    OneRow(b, BookingIn(0, window));
    OneRow(b, BookingInExcept(0, window, 0));
    OneRow<Option<BookingLock>>(None, LockIn(0, window, s.now));
  }

  lemma EmptyWindowCountsOnce(s: Store, id: Id, window: Window, quantity: nat)
    requires Reachable(s) && Waiting(s, id, window, quantity)
    requires !window.Nonempty() || quantity == 0
    ensures Conflict(s, s.bookings[id].service, window, quantity) <==> !RoomBesideOthers(s, id)
  {
    ReachableIsSound(s);
    HeldSplits(s, s.bookings[id].service, window, id);
  }

  /** Counting the booking itself is harmless exactly when its window is empty or its quantity is zero. */
  lemma RecheckFaithfulExactlyWhen(window: Window, quantity: nat)
    ensures RecheckIsFaithful(window, quantity) <==> !window.Nonempty() || quantity == 0
  {
    if !window.Nonempty() || quantity == 0 {
      forall s: Store, id: Id | Reachable(s) && Waiting(s, id, window, quantity)
        ensures Conflict(s, s.bookings[id].service, window, quantity) <==> !RoomBesideOthers(s, id)
      {
        EmptyWindowCountsOnce(s, id, window, quantity);
      }
    } else {
      var s := LoneBooking(window, quantity);
      LoneBookingIsRefused(s, window, quantity);
    }
  }

  /** Every CreateBooking of the run carries a nonempty window. */
  predicate AllNonempty(ops: seq<Op>) {
    forall k :: 0 <= k < |ops| && ops[k].CreateBooking? ==> ops[k].window.Nonempty()
  }

  ghost predicate Doubled(s: Store) {
    && (forall i: Id :: s.IsBooking(i) ==> s.bookings[i].window.Nonempty())
    && (forall r: Id :: s.IsRequest(r) ==> s.requests[r].window.Nonempty())
    && (forall i: Id :: s.IsBooking(i) && WasConfirmed(s.bookings[i].status) ==>
          2 * s.bookings[i].quantity <= s.Capacity(s.bookings[i].service))
  }

  lemma ApproveDoubled(s: Store, id: Id, owner: Id)
    requires Numbered(s) && Doubled(s) && ApproveGuard(s, id, owner) == Ok
    ensures Doubled(WithBooking(s, id, s.bookings[id].(status := Confirmed)))
  {
    ApproveAcceptsExactly(s, id, owner);
  }

  lemma RescheduleDoubled(s: Store, request: Id)
    requires Proposed(s) && Doubled(s) && RescheduleTxGuard(s, request) == Ok
    ensures Doubled(Reschedule(s, request))
  {
  }

  /** Any other call leaves every booking's shape alone and confirms nothing. */
  ghost predicate KeepsShape(s: Store, s': Store) {
    && s'.services == s.services
    && (forall i: Id :: s'.IsBooking(i) ==>
          if s.IsBooking(i) then
            && s'.bookings[i].window == s.bookings[i].window
            && s'.bookings[i].quantity == s.bookings[i].quantity
            && s'.bookings[i].service == s.bookings[i].service
            && (WasConfirmed(s'.bookings[i].status) ==>
                  WasConfirmed(s.bookings[i].status))
          else
            s'.bookings[i].window.Nonempty() && s'.bookings[i].status == Pending)
    && (forall r: Id :: s'.IsRequest(r) ==>
          if s.IsRequest(r) then s'.requests[r].window == s.requests[r].window else s'.requests[r].window.Nonempty())
  }

  lemma ShapeKept(s: Store, op: Op)
    requires Proposed(s) && Guard(s, op) == Ok && !op.Approve? && !op.ApproveReschedule?
    requires op.CreateBooking? ==> op.window.Nonempty()
    ensures KeepsShape(s, Effect(s, op))
  {
  }

  lemma DoubledKept(s: Store, op: Op)
    requires Numbered(s) && Proposed(s) && Doubled(s)
    requires op.CreateBooking? ==> op.window.Nonempty()
    ensures Doubled(Apply(s, op))
  {
    if Guard(s, op) == Ok {
      match op {
        case Approve(id, owner) => ApproveDoubled(s, id, owner);
        case ApproveReschedule(request, _) => RescheduleDoubled(s, request);
        case _ => ShapeKept(s, op);
      }
    }
  }

  /** With nonempty booking windows, whatever was ever confirmed fits its service twice. */
  lemma {:induction false} ConfirmedFitsTwice(s: Store, ops: seq<Op>)
    requires s.Empty() && AllNonempty(ops)
    ensures Doubled(Run(s, ops))
    ensures var r := Run(s, ops);
      forall i: Id :: r.IsBooking(i) && (r.bookings[i].status == Confirmed || r.bookings[i].status == Cancelled
                                         || r.bookings[i].status == Rescheduled) ==>
        2 * r.bookings[i].quantity <= r.Capacity(r.bookings[i].service)
  {
    if |ops| > 0 {
      var before := ops[..|ops| - 1];
      ConfirmedFitsTwice(s, before);
      RunConsistent(s, before);
      DoubledKept(Run(s, before), ops[|ops| - 1]);
    }
  }

  /** So a service of capacity one never gets a booking to 'confirmed'. */
  lemma CapacityOneNeverConfirms(s: Store, ops: seq<Op>, i: Id)
    requires s.Empty() && AllNonempty(ops) && Run(s, ops).IsBooking(i)
    requires Run(s, ops).bookings[i].quantity >= 1 && s.Capacity(Run(s, ops).bookings[i].service) <= 1
    ensures var status := Run(s, ops).bookings[i].status;
      status == Pending || status == AwaitingApproval || status == Rejected
  {
    ConfirmedFitsTwice(s, ops);
    CapacityIsFixed(s, ops, 0);
    NeverCompleted(s, ops, i);
  }
}
