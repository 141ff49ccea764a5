/** How often a customer may ask to reschedule: three times per booking, whatever becomes of the requests. */
module Attempts {
  import opened Sums
  import opened Tables
  import opened Occupancy
  import opened Lifecycle
  import opened Capacity
  import opened Chains
  import opened CapacityLimits
  import opened Examples

  /** The requests for a booking that a run accepted. */
  function RequestsMade(s: Store, ops: seq<Op>, i: Id): nat {
    if |ops| == 0 then 0
    else
      var before, last := ops[..|ops| - 1], ops[|ops| - 1];
      RequestsMade(s, before, i)
        + if last.RequestReschedule? && last.booking == i && Guard(Run(s, before), last) == Ok then 1 else 0
  }

  lemma StepCounts(s: Store, op: Op, i: Id)
    requires Counted(s)
    ensures RequestCount(Apply(s, op), i)
         == RequestCount(s, i) + if op.RequestReschedule? && op.booking == i && Guard(s, op) == Ok then 1 else 0
  {
    if Guard(s, op) == Ok {
      match op {
        case RequestReschedule(id, customer, window) =>
          SumAppend(s.requests, RescheduleRequest(id, customer, window, RequestPending), ForBooking(i));
        case ApproveReschedule(request, _) => RescheduleKeepsCounts(s, request);
        case RejectReschedule(request, _) => StatusKeepsCounts(s, request, RequestRejected);
        case _ => OtherCallsKeepCounts(s, op);
      }
    }
  }

  /** The request rows of a booking are the requests a run accepted for it. */
  lemma {:induction false} RowsAreRequestsMade(s: Store, ops: seq<Op>, i: Id)
    requires s.Empty()
    ensures RequestCount(Run(s, ops), i) == RequestsMade(s, ops, i)
  {
    if |ops| > 0 {
      RowsAreRequestsMade(s, ops[..|ops| - 1], i);
      RunConsistent(s, ops[..|ops| - 1]);
      StepCounts(Run(s, ops[..|ops| - 1]), ops[|ops| - 1], i);
    }
  }

  /** In every run, a request is accepted exactly for a confirmed booking of the customer's own, with a window in order,
      none pending, and fewer than three accepted before. */
  lemma RequestAcceptedExactly(s: Store, ops: seq<Op>, i: Id, customer: Id, window: Window)
    requires s.Empty()
    ensures var r := Run(s, ops);
      Guard(r, RequestReschedule(i, customer, window)) == Ok
      <==> && r.IsBooking(i) && r.bookings[i].status == Confirmed && r.bookings[i].customer == customer
           && window.start < window.end && RequestsMade(s, ops, i) < 3
           && (forall q: Id :: r.IsRequest(q) && r.requests[q].booking == i ==> r.requests[q].status != RequestPending)
    ensures var r := Run(s, ops);
      r.IsBooking(i) && r.bookings[i].status == Confirmed && r.bookings[i].customer == customer ==>
        && (Guard(r, RequestReschedule(i, customer, window)) == Err(RescheduleLimitReached) <==> RequestsMade(s, ops, i) >= 3)
        && (Guard(r, RequestReschedule(i, customer, window)) == Err(PendingRescheduleExists)
            <==> RequestsMade(s, ops, i) < 3
                 && exists q: Id :: r.IsRequest(q) && r.requests[q].booking == i && r.requests[q].status == RequestPending)
  {
    var r := Run(s, ops);
    RunConsistent(s, ops);
    RowsAreRequestsMade(s, ops, i);
    assert HasPendingRequest(r, i) <==>
           exists q: Id :: r.IsRequest(q) && r.requests[q].booking == i && r.requests[q].status == RequestPending;
  }

  // ----- a run that makes all three

  /** One confirmed booking for which so many requests were made and rejected. */
  function Tried(window: ProperWindow, attempts: nat): Store {
    Placed(Shop(MultiRow(2)), ConfirmedRow(0, window, 1, 0).(attempts := attempts)).(
      requests := seq(attempts, k => RescheduleRequest(0, 0, window, RequestRejected)))
  }

  lemma TryAgain(window: ProperWindow, attempts: nat)
    requires attempts < 3 && Reachable(Tried(window, attempts))
    ensures Guard(Tried(window, attempts), RequestReschedule(0, 0, window)) == Ok
    ensures Reachable(Tried(window, attempts + 1))
  {
    hide Reachable;
    var s := Tried(window, attempts);
    var ask, reject := RequestReschedule(0, 0, window), RejectReschedule(attempts, 0);
    assert !HasPendingRequest(s, 0);
    ExtendReachable(s, ask);
    var asked := Tried(window, attempts + 1).(requests := s.requests + [RescheduleRequest(0, 0, window, RequestPending)]);
    assert Apply(s, ask).bookings == asked.bookings;
    assert Apply(s, ask) == asked;
    ExtendReachable(asked, reject);
    assert Apply(asked, reject).requests == Tried(window, attempts + 1).requests;
    assert Apply(asked, reject) == Tried(window, attempts + 1);
  }

  lemma {:induction false} TriedIsReachable(window: ProperWindow, attempts: nat)
    requires attempts <= 3
    ensures Reachable(Tried(window, attempts))
  {
    if attempts == 0 {
      hide Reachable;
      ShopIsReachable(MultiRow(2));
      assert Held(Shop(MultiRow(2)), 0, window) == 0;
      BookConfirmed(Shop(MultiRow(2)), window, 1);
      assert Tried(window, 0) == Placed(Shop(MultiRow(2)), ConfirmedRow(0, window, 1, 0));
    } else {
      TriedIsReachable(window, attempts - 1);
      TryAgain(window, attempts - 1);
    }
  }

  lemma RunTo(r: Store) returns (s: Store, ops: seq<Op>)
    requires Reachable(r)
    ensures s.Empty() && Run(s, ops) == r
  {
    var s0: Store, run: seq<Op> :| s0.Empty() && AllFit(s0, run) && AllBound(run) && Run(s0, run) == r;
    s, ops := s0, run;
  }

  lemma FourthGuard(window: ProperWindow)
    ensures var r := Tried(window, 3);
      && r.IsBooking(0) && r.bookings[0].status == Confirmed && r.bookings[0].customer == 0 && r.bookings[0].attempts == 3
      && Guard(r, RequestReschedule(0, 0, window)) == Err(RescheduleLimitReached)
  {
  }

  /** Some run accepts three requests for a booking, and then its customer is refused the fourth. */
  lemma FourthIsRefused(window: ProperWindow) returns (s: Store, ops: seq<Op>)
    ensures s.Empty() && RequestsMade(s, ops, 0) == 3
    ensures var r := Run(s, ops);
      && r.IsBooking(0) && r.bookings[0].status == Confirmed && r.bookings[0].customer == 0
      && Guard(r, RequestReschedule(0, 0, window)) == Err(RescheduleLimitReached)
  {
    var r := Tried(window, 3);
    TriedIsReachable(window, 3);
    s, ops := RunTo(r);
    hide Run, RequestsMade, Reachable;
    RowsAreRequestsMade(s, ops, 0);
    RunConsistent(s, ops);
    FourthGuard(window);
  }
}
