/** What every serial run keeps: reschedule chains, pending proposals and the attempt counter. */
module Chains {
  import opened Sums
  import opened Tables
  import opened Occupancy
  import opened Lifecycle

  /** What a successor inherits from the booking it replaces. */
  predicate SameTerms(a: Booking, b: Booking) {
    && a.service == b.service && a.branch == b.branch && a.customer == b.customer
    && a.quantity == b.quantity && a.currency == b.currency && a.paymentMethod == b.paymentMethod
  }

  predicate Replaces(s: Store, i: Id, p: Id)
    requires s.IsBooking(i)
  {
    s.bookings[i].rescheduledFrom == Some(p)
  }

  ghost predicate Linked(s: Store) {
    && Numbered(s)
    && (forall i: Id, p: Id :: s.IsBooking(i) && Replaces(s, i, p) ==>
          p < i && s.bookings[p].status == Rescheduled && SameTerms(s.bookings[p], s.bookings[i]))
    && (forall i: Id, j: Id, p: Id :: s.IsBooking(i) && s.IsBooking(j) && Replaces(s, i, p) && Replaces(s, j, p) ==> i == j)
    && (forall p: Id :: s.IsBooking(p) && s.bookings[p].status == Rescheduled ==>
          exists i: Id :: s.IsBooking(i) && Replaces(s, i, p))
  }

  predicate IsPending(s: Store, r: Id) { s.IsRequest(r) && s.requests[r].status == RequestPending }

  predicate IsApproved(s: Store, r: Id) { s.IsRequest(r) && s.requests[r].status == RequestApproved }

  /** Cancel leaves a pending request in place, so a cancelled booking may still have one. */
  predicate MayBeProposed(status: Status) { status == Confirmed || status == Cancelled }

  ghost predicate Proposed(s: Store) {
    && (forall r: Id :: s.IsRequest(r) ==> s.IsBooking(s.requests[r].booking))
    && (forall r: Id :: IsPending(s, r) ==> MayBeProposed(s.bookings[s.requests[r].booking].status))
    && (forall q: Id, r: Id :: IsPending(s, q) && IsPending(s, r) && s.requests[q].booking == s.requests[r].booking ==> q == r)
  }

  function ForBooking(id: Id): RescheduleRequest -> nat {
    (r: RescheduleRequest) => if r.booking == id then 1 else 0
  }

  /** How many reschedule requests were ever made for a booking. */
  function RequestCount(s: Store, id: Id): nat { Sum(s.requests, ForBooking(id)) }

  ghost predicate Counted(s: Store) {
    && (forall r: Id :: s.IsRequest(r) ==> s.IsBooking(s.requests[r].booking))
    && (forall i: Id :: s.IsBooking(i) ==>
          s.bookings[i].attempts == RequestCount(s, i) <= MAX_RESCHEDULE_ATTEMPTS)
  }

  ghost predicate Consistent(s: Store) { Linked(s) && Proposed(s) && Counted(s) }

  /** A change that adds at most fresh, unlinked bookings and moves nothing in or out of 'rescheduled'. */
  ghost predicate KeepsLinks(s: Store, s': Store) {
    && |s.bookings| <= |s'.bookings|
    && (forall i: Id :: s.IsBooking(i) ==>
          && s'.bookings[i].id == s.bookings[i].id
          && s'.bookings[i].rescheduledFrom == s.bookings[i].rescheduledFrom
          && SameTerms(s.bookings[i], s'.bookings[i])
          && (s'.bookings[i].status == Rescheduled <==> s.bookings[i].status == Rescheduled))
    && (forall i: Id :: s'.IsBooking(i) && !s.IsBooking(i) ==>
          s'.bookings[i].id == i && s'.bookings[i].rescheduledFrom == None && s'.bookings[i].status != Rescheduled)
  }

  lemma LinksFramed(s: Store, s': Store)
    requires Linked(s) && KeepsLinks(s, s')
    ensures Linked(s')
  {
    assert forall i: Id, p: Id :: s'.IsBooking(i) && Replaces(s', i, p) ==> s.IsBooking(i) && Replaces(s, i, p);
    forall p: Id | s'.IsBooking(p) && s'.bookings[p].status == Rescheduled
      ensures exists i: Id :: s'.IsBooking(i) && Replaces(s', i, p)
    {
      var i: Id :| s.IsBooking(i) && Replaces(s, i, p);
      assert Replaces(s', i, p);
    }
  }

  lemma RescheduleLinks(s: Store, request: Id)
    requires Linked(s) && Proposed(s) && IsPending(s, request)
    ensures Linked(Reschedule(s, request))
  {
    var s' := Reschedule(s, request);
    var p := s.requests[request].booking;
    var n: Id := |s.bookings|;
    assert forall i: Id, q: Id :: s.IsBooking(i) ==> (Replaces(s', i, q) <==> Replaces(s, i, q));
    assert forall q: Id :: Replaces(s', n, q) <==> q == p;
    assert forall i: Id :: s.IsBooking(i) ==> !Replaces(s, i, p);
    forall q: Id | s'.IsBooking(q) && s'.bookings[q].status == Rescheduled
      ensures exists i: Id :: s'.IsBooking(i) && Replaces(s', i, q)
    {
      if q == p {
        assert Replaces(s', n, p);
      } else {
        var i: Id :| s.IsBooking(i) && Replaces(s, i, q);
        assert Replaces(s', i, q);
      }
    }
  }

  lemma OneRowKeepsLinks(s: Store, id: Id, b: Booking)
    requires s.IsBooking(id) && b.id == s.bookings[id].id && b.rescheduledFrom == s.bookings[id].rescheduledFrom
    requires SameTerms(s.bookings[id], b) && b.status != Rescheduled && s.bookings[id].status != Rescheduled
    ensures KeepsLinks(s, WithBooking(s, id, b))
  {
  }

  lemma OtherCallsKeepLinks(s: Store, op: Op)
    requires Numbered(s) && Proposed(s) && Guard(s, op) == Ok && !op.ApproveReschedule?
    ensures KeepsLinks(s, Effect(s, op))
  {
    match op {
      case LockSlot(_, _, _, _) =>
      case CreateBooking(_, _, _, _, _) =>
      case RejectReschedule(_, _) =>
      case Tick(_) =>
      case ApproveReschedule(_, _) =>
      case RequestReschedule(id, _, _) =>
        OneRowKeepsLinks(s, id, s.bookings[id].(attempts := s.bookings[id].attempts + 1));
      case _ => OneRowKeepsLinks(s, op.booking, Effect(s, op).bookings[op.booking]);
    }
  }

  lemma LinkedKept(s: Store, op: Op)
    requires Linked(s) && Proposed(s)
    ensures Linked(Apply(s, op))
  {
    if Guard(s, op) == Ok {
      if op.ApproveReschedule? {
        assert IsPending(s, op.request);
        RescheduleLinks(s, op.request);
      } else {
        OtherCallsKeepLinks(s, op);
        LinksFramed(s, Effect(s, op));
      }
    }
  }

  /** A change that adds no pending request and leaves confirmed and cancelled bookings so. */
  ghost predicate KeepsProposals(s: Store, s': Store) {
    && |s.bookings| <= |s'.bookings| && |s.requests| == |s'.requests|
    && (forall r: Id :: s.IsRequest(r) ==> s'.requests[r].booking == s.requests[r].booking)
    && (forall r: Id :: IsPending(s', r) ==> IsPending(s, r))
    && (forall i: Id :: s.IsBooking(i) && MayBeProposed(s.bookings[i].status) ==> MayBeProposed(s'.bookings[i].status))
  }

  lemma ProposalsFramed(s: Store, s': Store)
    requires Proposed(s) && KeepsProposals(s, s')
    ensures Proposed(s')
  {
  }

  lemma RequestProposed(s: Store, id: Id, customer: Id, window: Window)
    requires Proposed(s) && RequestRescheduleGuard(s, id, customer, window) == Ok
    ensures Proposed(Effect(s, RequestReschedule(id, customer, window)))
  {
  }

  lemma RescheduleProposed(s: Store, request: Id)
    requires Proposed(s) && IsPending(s, request)
    ensures Proposed(Reschedule(s, request))
  {
  }

  lemma OtherCallsKeepProposals(s: Store, op: Op)
    requires Proposed(s) && Guard(s, op) == Ok && !op.RequestReschedule? && !op.ApproveReschedule?
    ensures KeepsProposals(s, Effect(s, op))
  {
  }

  lemma ProposedKept(s: Store, op: Op)
    requires Proposed(s)
    ensures Proposed(Apply(s, op))
  {
    if Guard(s, op) == Ok {
      match op {
        case RequestReschedule(id, customer, window) => RequestProposed(s, id, customer, window);
        case ApproveReschedule(request, _) => RescheduleProposed(s, request);
        case _ =>
          OtherCallsKeepProposals(s, op);
          ProposalsFramed(s, Effect(s, op));
      }
    }
  }

  lemma CountIgnoresStatus(s: Store, request: Id, status: RequestStatus, id: Id)
    requires s.IsRequest(request)
    ensures RequestCount(WithRequestStatus(s, request, status), id) == RequestCount(s, id)
  {
    SumUpdate(s.requests, request, s.requests[request].(status := status), ForBooking(id));
  }

  /** A change that makes no request and moves no counter; fresh bookings start at zero. */
  ghost predicate KeepsCounts(s: Store, s': Store) {
    && |s.bookings| <= |s'.bookings| && |s.requests| == |s'.requests|
    && (forall r: Id :: s.IsRequest(r) ==> s'.requests[r].booking == s.requests[r].booking)
    && (forall i: Id :: RequestCount(s', i) == RequestCount(s, i))
    && (forall i: Id :: s'.IsBooking(i) ==>
          s'.bookings[i].attempts == if s.IsBooking(i) then s.bookings[i].attempts else 0)
  }

  lemma CountsFramed(s: Store, s': Store)
    requires Counted(s) && KeepsCounts(s, s')
    ensures Counted(s')
  {
    forall i: Id | s'.IsBooking(i)
      ensures s'.bookings[i].attempts == RequestCount(s', i) <= MAX_RESCHEDULE_ATTEMPTS
    {
      if !s.IsBooking(i) {
        SumZero(s.requests, ForBooking(i));
      }
    }
  }

  lemma RequestCounted(s: Store, id: Id, customer: Id, window: Window)
    requires Counted(s) && RequestRescheduleGuard(s, id, customer, window) == Ok
    ensures Counted(Effect(s, RequestReschedule(id, customer, window)))
  {
    var row := RescheduleRequest(id, customer, window, RequestPending);
    var s' := Effect(s, RequestReschedule(id, customer, window));
    forall i: Id
      ensures RequestCount(s', i) == RequestCount(s, i) + ForBooking(i)(row)
    {
      SumAppend(s.requests, row, ForBooking(i));
    }
    hide RequestCount;
  }

  lemma OtherCallsKeepCounts(s: Store, op: Op)
    requires Counted(s) && Guard(s, op) == Ok
    requires !op.RequestReschedule? && !op.ApproveReschedule? && !op.RejectReschedule?
    ensures KeepsCounts(s, Effect(s, op))
  {
  }

  lemma StatusKeepsCounts(s: Store, request: Id, status: RequestStatus)
    requires Counted(s) && s.IsRequest(request)
    ensures KeepsCounts(s, WithRequestStatus(s, request, status))
  {
    forall i: Id { CountIgnoresStatus(s, request, status, i); }
  }

  lemma RescheduleKeepsCounts(s: Store, request: Id)
    requires Counted(s) && s.IsRequest(request)
    ensures KeepsCounts(s, Reschedule(s, request))
  {
    StatusKeepsCounts(s, request, RequestApproved);
    var s1 := WithRequestStatus(s, request, RequestApproved);
    assert forall i: Id :: RequestCount(Reschedule(s, request), i) == RequestCount(s1, i);
  }

  lemma CountedKept(s: Store, op: Op)
    requires Counted(s)
    ensures Counted(Apply(s, op))
  {
    if Guard(s, op) == Ok {
      match op {
        case RequestReschedule(id, customer, window) => RequestCounted(s, id, customer, window);
        case ApproveReschedule(request, _) =>
          RescheduleKeepsCounts(s, request);
          CountsFramed(s, Reschedule(s, request));
        case RejectReschedule(request, _) =>
          StatusKeepsCounts(s, request, RequestRejected);
          CountsFramed(s, Effect(s, op));
        case _ =>
          OtherCallsKeepCounts(s, op);
          CountsFramed(s, Effect(s, op));
      }
    }
  }

  /** Every store a serial run reaches from empty tables is consistent. */
  lemma {:induction false} RunConsistent(s: Store, ops: seq<Op>)
    requires s.Empty()
    ensures Consistent(Run(s, ops))
  {
    if |ops| > 0 {
      var before := ops[..|ops| - 1];
      RunConsistent(s, before);
      LinkedKept(Run(s, before), ops[|ops| - 1]);
      ProposedKept(Run(s, before), ops[|ops| - 1]);
      CountedKept(Run(s, before), ops[|ops| - 1]);
    }
  }

  /** The first booking of a booking's reschedule chain. */
  ghost function Root(s: Store, i: Id): (root: Id)
    requires Linked(s) && s.IsBooking(i)
    ensures s.IsBooking(root) && root <= i
    ensures s.bookings[root].rescheduledFrom == None && SameTerms(s.bookings[root], s.bookings[i])
  {
    match s.bookings[i].rescheduledFrom
    case None => i
    case Some(p) => assert Replaces(s, i, p); Root(s, p)
  }

  ghost function Depth(s: Store, i: Id): nat
    requires Linked(s) && s.IsBooking(i)
    decreases i
  {
    match s.bookings[i].rescheduledFrom
    case None => 0
    case Some(p) => assert Replaces(s, i, p); 1 + Depth(s, p)
  }

  lemma {:induction false} SameDepthIsSame(s: Store, i: Id, j: Id)
    requires Linked(s) && s.IsBooking(i) && s.IsBooking(j)
    requires Root(s, i) == Root(s, j) && Depth(s, i) == Depth(s, j)
    ensures i == j
    decreases i
  {
    if Depth(s, i) > 0 {
      var p, q := s.bookings[i].rescheduledFrom.value, s.bookings[j].rescheduledFrom.value;
      assert Replaces(s, i, p) && Replaces(s, j, q);
      SameDepthIsSame(s, p, q);
    }
  }

  lemma {:induction false} DeeperReplacesShallower(s: Store, i: Id, j: Id)
    requires Linked(s) && s.IsBooking(i) && s.IsBooking(j)
    requires Root(s, i) == Root(s, j) && Depth(s, i) < Depth(s, j)
    ensures s.bookings[i].status == Rescheduled
    decreases j
  {
    var q := s.bookings[j].rescheduledFrom.value;
    assert Replaces(s, j, q);
    if Depth(s, i) == Depth(s, q) {
      SameDepthIsSame(s, i, q);
    } else {
      DeeperReplacesShallower(s, i, q);
    }
  }

  lemma {:induction false} ChainEnds(s: Store, i: Id) returns (head: Id)
    requires Linked(s) && s.IsBooking(i)
    ensures s.IsBooking(head) && Root(s, head) == Root(s, i) && s.bookings[head].status != Rescheduled
    decreases |s.bookings| - i
  {
    head := i;
    if s.bookings[i].status == Rescheduled {
      var j: Id :| s.IsBooking(j) && Replaces(s, j, i);
      head := ChainEnds(s, j);
    }
  }

  /** Two bookings of one chain that are not 'rescheduled' are the same booking. */
  lemma HeadIsUnique(s: Store, i: Id, j: Id)
    requires Linked(s) && s.IsBooking(i) && s.IsBooking(j) && Root(s, i) == Root(s, j)
    requires s.bookings[i].status != Rescheduled && s.bookings[j].status != Rescheduled
    ensures i == j
  {
    if Depth(s, i) < Depth(s, j) {
      DeeperReplacesShallower(s, i, j);
    } else if Depth(s, j) < Depth(s, i) {
      DeeperReplacesShallower(s, j, i);
    } else {
      SameDepthIsSame(s, i, j);
    }
  }

  ghost predicate NamedBy(s: Store, p: Id, i: Id) { s.IsBooking(i) && Replaces(s, i, p) }

  /** In every serial run a booking is 'rescheduled' exactly when exactly one booking names it, and that one is later. */
  lemma RescheduledExactlyWhenReplacedOnce(s: Store, ops: seq<Op>, p: Id)
    requires s.Empty() && Run(s, ops).IsBooking(p)
    ensures var r := Run(s, ops);
      && (r.bookings[p].status == Rescheduled <==> exists i: Id :: NamedBy(r, p, i))
      && (forall i: Id, j: Id :: NamedBy(r, p, i) && NamedBy(r, p, j) ==> i == j)
      && (forall i: Id :: NamedBy(r, p, i) ==> p < i && SameTerms(r.bookings[p], r.bookings[i]))
  {
    RunConsistent(s, ops);
    var r := Run(s, ops);
    if r.bookings[p].status == Rescheduled {
      var i: Id :| r.IsBooking(i) && Replaces(r, i, p);
      assert NamedBy(r, p, i);
    }
  }

  /** Each chain of a serial run has exactly one booking that is not 'rescheduled', hence at most one active one. */
  lemma OneHeadPerChain(s: Store, ops: seq<Op>, i: Id) returns (head: Id)
    requires s.Empty() && Run(s, ops).IsBooking(i)
    ensures var r := Run(s, ops);
      && Linked(r) && r.IsBooking(head) && Root(r, head) == Root(r, i) && r.bookings[head].status != Rescheduled
      && (forall j: Id :: r.IsBooking(j) && Root(r, j) == Root(r, i) && r.bookings[j].status != Rescheduled ==> j == head)
      && (forall j: Id :: r.IsBooking(j) && Root(r, j) == Root(r, i) && IsActive(r.bookings[j].status) ==> j == head)
      && (forall j: Id :: r.IsBooking(j) && Root(r, j) == Root(r, i) ==> SameTerms(r.bookings[j], r.bookings[head]))
  {
    RunConsistent(s, ops);
    var r := Run(s, ops);
    head := ChainEnds(r, i);
    forall j: Id | r.IsBooking(j) && Root(r, j) == Root(r, i) && r.bookings[j].status != Rescheduled
      ensures j == head
    {
      HeadIsUnique(r, j, head);
    }
  }

  /** The attempt counter is the number of requests ever made, never above three, at most one of them pending. */
  lemma AttemptsCountRequests(s: Store, ops: seq<Op>, i: Id)
    requires s.Empty() && Run(s, ops).IsBooking(i)
    ensures var r := Run(s, ops);
      && r.bookings[i].attempts == RequestCount(r, i) <= 3
      && (forall p: Id, q: Id :: IsPending(r, p) && IsPending(r, q) && r.requests[p].booking == r.requests[q].booking == i
            ==> p == q)
      && (forall p: Id :: IsPending(r, p) && r.requests[p].booking == i ==> MayBeProposed(r.bookings[i].status))
  {
    RunConsistent(s, ops);
  }
}
