/** The exact status relation of a booking over all serial runs. */
module StatusRelation {
  import opened Sums
  import opened Tables
  import opened Occupancy
  import opened Lifecycle
  import opened Chains
  import opened CapacityLimits
  import opened Examples

  predicate Edge(a: Status, b: Status) {
    match a
    case Pending => b == AwaitingApproval
    case AwaitingApproval => b == Confirmed || b == Rejected
    case Confirmed => b == Cancelled || b == Rescheduled
    case Cancelled => b == Rescheduled
    case _ => false
  }

  ghost predicate SeriallyReachable(s: Store) {
    exists s0: Store, ops: seq<Op> :: s0.Empty() && Run(s0, ops) == s
  }

  ghost predicate Moves(s: Store, op: Op, i: Id, a: Status, b: Status) {
    SeriallyReachable(s) && s.IsBooking(i) && s.bookings[i].status == a && Apply(s, op).IsBooking(i)
    && Apply(s, op).bookings[i].status == b
  }

  ghost predicate EdgeTaken(a: Status, b: Status) {
    exists s: Store, op: Op, i: Id :: Moves(s, op, i, a, b)
  }

  lemma StepFollowsEdge(s: Store, op: Op, i: Id)
    requires Proposed(s) && s.IsBooking(i)
    ensures var s' := Apply(s, op);
      s'.IsBooking(i) && (s'.bookings[i].status == s.bookings[i].status || Edge(s.bookings[i].status, s'.bookings[i].status))
  {
  }

  lemma Extend(s: Store, op: Op)
    requires SeriallyReachable(s)
    ensures SeriallyReachable(Apply(s, op))
  {
    var s0: Store, ops: seq<Op> :| s0.Empty() && Run(s0, ops) == s;
    RunAppend(s0, ops, op);
  }

  const FIRST := Window(0, 60)
  const OTHER := Window(600, 660)
  const ASKED := [RescheduleRequest(0, 0, OTHER, RequestPending)]

  lemma PendingExample(b: Booking)
    requires b == PendingRow(0, FIRST, 1)
    ensures SeriallyReachable(LoneStore(2, b, []))
  {
    LonePending(2, FIRST, 1);
  }

  lemma AwaitingExample(b: Booking)
    requires b == PendingRow(0, FIRST, 1).(status := AwaitingApproval, ownerResponseDeadline := Some(OWNER_RESPONSE_WINDOW))
    ensures SeriallyReachable(LoneStore(2, b, [])) && EdgeTaken(Pending, AwaitingApproval)
  {
    var before := LoneStore(2, PendingRow(0, FIRST, 1), []);
    PendingExample(PendingRow(0, FIRST, 1));
    Extend(before, ConfirmPayment(0));
    assert [before.bookings[0]][0 := b] == [b];
    assert Apply(before, ConfirmPayment(0)) == LoneStore(2, b, []);
    assert Moves(before, ConfirmPayment(0), 0, Pending, AwaitingApproval);
  }

  lemma ConfirmedExample(waiting: Booking, b: Booking)
    requires waiting == PendingRow(0, FIRST, 1).(status := AwaitingApproval,
                                           ownerResponseDeadline := Some(OWNER_RESPONSE_WINDOW))
    requires b == waiting.(status := Confirmed)
    ensures SeriallyReachable(LoneStore(2, b, []))
    ensures EdgeTaken(AwaitingApproval, Confirmed) && EdgeTaken(AwaitingApproval, Rejected)
  {
    AwaitingExample(waiting);
    var before := LoneStore(2, waiting, []);
    OneRow(waiting, BookingIn(0, FIRST));
    OneRow<Option<BookingLock>>(None, LockIn(0, FIRST, 0));
    Extend(before, Approve(0, 0));
    assert [waiting][0 := b] == [b];
    assert Apply(before, Approve(0, 0)) == LoneStore(2, b, []);
    assert Moves(before, Approve(0, 0), 0, AwaitingApproval, Confirmed);
    assert Moves(before, Reject(0, 0, ""), 0, AwaitingApproval, Rejected);
  }

  predicate IsLoneRow(b: Booking, status: Status) {
    b.id == b.service == b.branch == b.customer == 0 && b.window == FIRST && b.quantity == 1 && b.status == status
  }

  lemma RequestStep(b: Booking)
    requires IsLoneRow(b, Confirmed) && b.attempts == 0
    ensures Apply(LoneStore(2, b, []), RequestReschedule(0, 0, OTHER)) == LoneStore(2, b.(attempts := 1), ASKED)
  {
  }

  lemma RequestedExample() returns (b: Booking)
    ensures SeriallyReachable(LoneStore(2, b, ASKED)) && IsLoneRow(b, Confirmed)
  {
    var waiting := PendingRow(0, FIRST, 1).(status := AwaitingApproval, ownerResponseDeadline := Some(OWNER_RESPONSE_WINDOW));
    var confirmed := waiting.(status := Confirmed);
    ConfirmedExample(waiting, confirmed);
    Extend(LoneStore(2, confirmed, []), RequestReschedule(0, 0, OTHER));
    RequestStep(confirmed);
    b := confirmed.(attempts := 1);
  }

  lemma ReschedulesFrom(b: Booking, status: Status)
    requires SeriallyReachable(LoneStore(2, b, ASKED)) && IsLoneRow(b, status)
    ensures EdgeTaken(status, Rescheduled)
  {
    var s := LoneStore(2, b, ASKED);
    OneRow(b, BookingInExcept(0, OTHER, 0));
    OneRow<Option<BookingLock>>(None, LockIn(0, OTHER, 0));
    assert Moves(s, ApproveReschedule(0, 0), 0, status, Rescheduled);
  }

  /** Cancelling leaves the pending request behind, and approving it afterwards still moves the booking. */
  lemma CancelledCanBeRescheduled()
    ensures EdgeTaken(Confirmed, Cancelled) && EdgeTaken(Confirmed, Rescheduled) && EdgeTaken(Cancelled, Rescheduled)
  {
    var b := RequestedExample();
    var s := LoneStore(2, b, ASKED);
    ReschedulesFrom(b, Confirmed);
    assert Moves(s, Cancel(0, 0, Customer), 0, Confirmed, Cancelled);
    Extend(s, Cancel(0, 0, Customer));
    var b' := b.(status := Cancelled, cancelledBy := Some(Customer));
    assert [b][0 := b'] == [b'];
    assert Apply(s, Cancel(0, 0, Customer)) == LoneStore(2, b', ASKED);
    ReschedulesFrom(b', Cancelled);
  }

  lemma OnlyEdgesTaken(a: Status, b: Status)
    requires a != b && EdgeTaken(a, b)
    ensures Edge(a, b)
  {
    var s: Store, op: Op, i: Id :| Moves(s, op, i, a, b);
    var s0: Store, ops: seq<Op> :| s0.Empty() && Run(s0, ops) == s;
    RunConsistent(s0, ops);
    StepFollowsEdge(s, op, i);
  }

  lemma EveryEdgeTaken(a: Status, b: Status)
    requires Edge(a, b)
    ensures EdgeTaken(a, b)
  {
    var waiting := PendingRow(0, FIRST, 1).(status := AwaitingApproval, ownerResponseDeadline := Some(OWNER_RESPONSE_WINDOW));
    AwaitingExample(waiting);
    ConfirmedExample(waiting, waiting.(status := Confirmed));
    CancelledCanBeRescheduled();
  }

  /** Some serial run moves some booking from a to b exactly when a to b is an edge. */
  lemma StatusRelationExact(a: Status, b: Status)
    requires a != b
    ensures EdgeTaken(a, b) <==> Edge(a, b)
  {
    if EdgeTaken(a, b) {
      OnlyEdgesTaken(a, b);
    }
    if Edge(a, b) {
      EveryEdgeTaken(a, b);
    }
  }

  lemma EntersPendingOrConfirmed(s: Store, op: Op, i: Id)
    requires !s.IsBooking(i) && Apply(s, op).IsBooking(i)
    ensures Apply(s, op).bookings[i].status == if op.ApproveReschedule? then Confirmed else Pending
  {
  }

  /** A booking enters the table pending or, as a successor, confirmed; nothing ever completes one. */
  lemma {:induction false} NeverCompleted(s: Store, ops: seq<Op>, i: Id)
    requires s.Empty() && Run(s, ops).IsBooking(i)
    ensures Run(s, ops).bookings[i].status != Completed
  {
    var before := ops[..|ops| - 1];
    if Run(s, before).IsBooking(i) {
      NeverCompleted(s, before, i);
      RunConsistent(s, before);
      StepFollowsEdge(Run(s, before), ops[|ops| - 1], i);
    } else {
      EntersPendingOrConfirmed(Run(s, before), ops[|ops| - 1], i);
    }
  }
}
