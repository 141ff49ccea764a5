/** What a customer ordered is what the booking stays: its terms, who may act on it, and what each act leaves on it. */
module Terms {
  import opened Sums
  import opened Tables
  import opened Occupancy
  import opened Lifecycle
  import opened Chains
  import opened Locks

  // ----- the terms

  /** Everything about a booking that no call changes. */
  predicate SameRow(a: Booking, b: Booking) {
    && a.id == b.id && a.service == b.service && a.branch == b.branch && a.customer == b.customer
    && a.window == b.window && a.quantity == b.quantity && a.paymentMethod == b.paymentMethod
    && a.currency == b.currency && a.rescheduledFrom == b.rescheduledFrom
  }

  lemma StepKeepsRow(s: Store, op: Op, i: Id)
    requires s.IsBooking(i)
    ensures Apply(s, op).IsBooking(i) && SameRow(s.bookings[i], Apply(s, op).bookings[i])
  {
  }

  lemma {:induction false} RunKeepsRow(s: Store, ops: seq<Op>, i: Id)
    requires s.IsBooking(i)
    ensures Run(s, ops).IsBooking(i) && SameRow(s.bookings[i], Run(s, ops).bookings[i])
  {
    if |ops| > 0 {
      RunKeepsRow(s, ops[..|ops| - 1], i);
      StepKeepsRow(Run(s, ops[..|ops| - 1]), ops[|ops| - 1], i);
    }
  }

  lemma {:induction false} RunKeepsOwners(s: Store, ops: seq<Op>)
    ensures Run(s, ops).branchOwner == s.branchOwner
  {
    if |ops| > 0 {
      RunKeepsOwners(s, ops[..|ops| - 1]);
    }
  }

  /** A lock is granted and, some calls later, turned into a booking. */
  predicate Sold(s: Store, grant: Op, between: seq<Op>, create: Op) {
    && grant.LockSlot? && Guard(s, grant) == Ok
    && create.CreateBooking? && create.lock == |s.locks|
    && Guard(Run(Apply(s, grant), between), create) == Ok
  }

  /** The store some calls after the sale, and the id of the booking sold. */
  function AfterSale(s: Store, grant: Op, between: seq<Op>, create: Op, later: seq<Op>): Store {
    Run(Apply(Run(Apply(s, grant), between), create), later)
  }

  function SoldId(s: Store, grant: Op, between: seq<Op>): Id { |Run(Apply(s, grant), between).bookings| }

  lemma LockIsAsGranted(s: Store, grant: Op, between: seq<Op>, create: Op)
    requires Sold(s, grant, between, create)
    ensures var s1 := Run(Apply(s, grant), between);
      create.lock < |s1.locks| && s1.locks[create.lock].Some?
      && s1.locks[create.lock].value.service == grant.service && s1.locks[create.lock].value.branch == grant.branch
  {
    RunAges(Apply(s, grant), between, |s.locks|, NewLock(s, grant.service, grant.branch, grant.window, grant.quantity));
  }

  /** A booking has the service and branch of the lock it was made from and everything else from the order itself, and
      keeps them through any later run. */
  lemma BookingIsAsOrdered(s: Store, grant: Op, between: seq<Op>, create: Op, later: seq<Op>)
    requires Sold(s, grant, between, create)
    ensures var r, id := AfterSale(s, grant, between, create, later), SoldId(s, grant, between);
      && r.IsBooking(id)
      && var b := r.bookings[id];
         && b.service == grant.service && b.branch == grant.branch && b.customer == create.customer
         && b.window == create.window && b.quantity == create.quantity && b.paymentMethod == create.paymentMethod
         && b.currency == "PHP" && b.rescheduledFrom == None
  {
    LockIsAsGranted(s, grant, between, create);
    var s1 := Run(Apply(s, grant), between);
    hide Run;
    RunKeepsRow(Apply(s1, create), later, |s1.bookings|);
  }

  // ----- who may act

  lemma OwnerIsAsGranted(s: Store, grant: Op, between: seq<Op>, create: Op, later: seq<Op>)
    requires Sold(s, grant, between, create)
    ensures grant.branch in s.branchOwner
    ensures var r, id := AfterSale(s, grant, between, create, later), SoldId(s, grant, between);
      forall x: Id :: r.OwnsBookingBranch(id, x) <==> x == s.branchOwner[grant.branch]
  {
    BookingIsAsOrdered(s, grant, between, create, later);
    var s1 := Run(Apply(s, grant), between);
    RunKeepsOwners(Apply(s, grant), between);
    RunKeepsOwners(Apply(s1, create), later);
  }

  /** Approve and Reject are for the owner of the branch that was locked. */
  lemma OwnerDecides(s: Store, grant: Op, between: seq<Op>, create: Op, later: seq<Op>, x: Id, reason: string)
    requires Sold(s, grant, between, create)
    ensures grant.branch in s.branchOwner
    ensures var r, id := AfterSale(s, grant, between, create, later), SoldId(s, grant, between);
      && r.IsBooking(id)
      && (Guard(r, Approve(id, x)) == Err(Unauthorized) <==> x != s.branchOwner[grant.branch])
      && (x == s.branchOwner[grant.branch] ==>
            (Guard(r, Approve(id, x)) == Err(IllegalStateTransition) <==> r.bookings[id].status != AwaitingApproval))
      && Guard(r, Reject(id, x, reason))
         == if x != s.branchOwner[grant.branch] then Err(Unauthorized)
            else if r.bookings[id].status != AwaitingApproval then Err(IllegalStateTransition) else Ok
  {
    BookingIsAsOrdered(s, grant, between, create, later);
    OwnerIsAsGranted(s, grant, between, create, later);
  }

  /** Cancel is for the customer who booked, the owner of the branch that was locked and the system. */
  lemma WhoMayCancel(s: Store, grant: Op, between: seq<Op>, create: Op, later: seq<Op>, x: Id, role: Role)
    requires Sold(s, grant, between, create)
    ensures grant.branch in s.branchOwner
    ensures var r, id := AfterSale(s, grant, between, create, later), SoldId(s, grant, between);
      && r.IsBooking(id)
      && Guard(r, Cancel(id, x, role))
         == if r.bookings[id].status != Confirmed then Err(IllegalStateTransition)
            else match role
              case Customer => if x == create.customer then Ok else Err(Unauthorized)
              case Owner => if x == s.branchOwner[grant.branch] then Ok else Err(Unauthorized)
              case System => Ok
              case Admin => Err(ConstraintViolation)
  {
    BookingIsAsOrdered(s, grant, between, create, later);
    OwnerIsAsGranted(s, grant, between, create, later);
  }

  /** Asking to reschedule is for the customer who booked, deciding on it for the owner of the branch that was locked. */
  lemma WhoMayReschedule(s: Store, grant: Op, between: seq<Op>, create: Op, later: seq<Op>, x: Id, window: Window, q: Id)
    requires Sold(s, grant, between, create)
    ensures grant.branch in s.branchOwner
    ensures var r, id := AfterSale(s, grant, between, create, later), SoldId(s, grant, between);
      && r.IsBooking(id)
      && (r.bookings[id].status == Confirmed ==>
            (Guard(r, RequestReschedule(id, x, window)) == Err(Unauthorized) <==> x != create.customer))
      && (r.IsRequest(q) && r.requests[q].booking == id ==>
            && (Guard(r, ApproveReschedule(q, x)) == Err(Unauthorized) <==> x != s.branchOwner[grant.branch])
            && (x == s.branchOwner[grant.branch] ==>
                  (Guard(r, ApproveReschedule(q, x)) == Err(IllegalStateTransition)
                   <==> r.requests[q].status != RequestPending))
            && Guard(r, RejectReschedule(q, x))
               == if x != s.branchOwner[grant.branch] then Err(Unauthorized)
                  else if r.requests[q].status != RequestPending then Err(IllegalStateTransition) else Ok)
  {
    BookingIsAsOrdered(s, grant, between, create, later);
    OwnerIsAsGranted(s, grant, between, create, later);
  }

  /** Nobody may act on what is not there. */
  lemma UnknownIsRefused(s: Store, id: Id, q: Id, x: Id, role: Role, window: Window, reason: string)
    ensures !s.IsBooking(id) ==>
      && Guard(s, ConfirmPayment(id)) == Err(BookingNotFound) && Guard(s, Cancel(id, x, role)) == Err(BookingNotFound)
      && Guard(s, RequestReschedule(id, x, window)) == Err(BookingNotFound)
      && Guard(s, Approve(id, x)) == Err(Unauthorized) && Guard(s, Reject(id, x, reason)) == Err(Unauthorized)
    ensures !s.IsRequest(q) ==>
      && Guard(s, ApproveReschedule(q, x)) == Err(Unauthorized) && Guard(s, RejectReschedule(q, x)) == Err(Unauthorized)
  {
  }

  // ----- what an act leaves

  lemma StepKeepsDeadline(s: Store, op: Op, i: Id)
    requires s.IsBooking(i) && s.bookings[i].status != Pending
    ensures var s' := Apply(s, op);
      && s'.IsBooking(i) && s'.bookings[i].status != Pending
      && s'.bookings[i].ownerResponseDeadline == s.bookings[i].ownerResponseDeadline
  {
  }

  lemma {:induction false} RunKeepsDeadline(s: Store, ops: seq<Op>, i: Id)
    requires s.IsBooking(i) && s.bookings[i].status != Pending
    ensures var r := Run(s, ops);
      && r.IsBooking(i) && r.bookings[i].status != Pending
      && r.bookings[i].ownerResponseDeadline == s.bookings[i].ownerResponseDeadline
  {
    if |ops| > 0 {
      RunKeepsDeadline(s, ops[..|ops| - 1], i);
      StepKeepsDeadline(Run(s, ops[..|ops| - 1]), ops[|ops| - 1], i);
    }
  }

  /** A paid booking gives its owner 24 hours from the payment, and no later call moves that deadline. */
  lemma OwnerHasADay(s: Store, id: Id, later: seq<Op>)
    requires s.IsBooking(id)
    ensures Guard(s, ConfirmPayment(id)) == if s.bookings[id].status == Pending then Ok else Err(IllegalStateTransition)
    ensures s.bookings[id].status == Pending ==>
      var r := Run(Apply(s, ConfirmPayment(id)), later);
      r.IsBooking(id) && r.bookings[id].ownerResponseDeadline == Some(s.now + 86400)
  {
    if s.bookings[id].status == Pending {
      RunKeepsDeadline(Apply(s, ConfirmPayment(id)), later, id);
    }
  }

  /** A reason only on rejected bookings. */
  ghost predicate Reasoned(s: Store) {
    && (forall i: Id :: s.IsBooking(i) && s.bookings[i].rejectedReason.Some? ==> s.bookings[i].status == Rejected)
    && (forall i: Id :: s.IsBooking(i) && s.bookings[i].cancelledBy.Some? ==>
          s.bookings[i].status == Cancelled || s.bookings[i].status == Rescheduled)
  }

  lemma ReasonedKept(s: Store, op: Op)
    requires Proposed(s) && Reasoned(s)
    ensures Reasoned(Apply(s, op))
  {
  }

  lemma {:induction false} RunReasoned(s: Store, ops: seq<Op>)
    requires s.Empty()
    ensures Reasoned(Run(s, ops))
  {
    if |ops| > 0 {
      RunReasoned(s, ops[..|ops| - 1]);
      RunConsistent(s, ops[..|ops| - 1]);
      ReasonedKept(Run(s, ops[..|ops| - 1]), ops[|ops| - 1]);
    }
  }

  predicate StaysRejected(s: Store, i: Id, reason: Option<string>) {
    s.IsBooking(i) && s.bookings[i].status == Rejected && s.bookings[i].rejectedReason == reason
  }

  lemma StepStaysRejected(s: Store, op: Op, i: Id, reason: Option<string>)
    requires Proposed(s) && StaysRejected(s, i, reason)
    ensures StaysRejected(Apply(s, op), i, reason)
  {
  }

  lemma {:induction false} RunStaysRejected(s: Store, ops: seq<Op>, i: Id, reason: Option<string>)
    requires Proposed(s) && StaysRejected(s, i, reason)
    ensures Proposed(Run(s, ops)) && StaysRejected(Run(s, ops), i, reason)
  {
    if |ops| > 0 {
      RunStaysRejected(s, ops[..|ops| - 1], i, reason);
      ProposedKept(Run(s, ops[..|ops| - 1]), ops[|ops| - 1]);
      StepStaysRejected(Run(s, ops[..|ops| - 1]), ops[|ops| - 1], i, reason);
    }
  }

  /** A rejection is final and keeps the reason given, if one was. */
  lemma RejectionIsFinal(s: Store, ops: seq<Op>, id: Id, owner: Id, reason: string, later: seq<Op>)
    requires s.Empty() && Guard(Run(s, ops), Reject(id, owner, reason)) == Ok
    ensures StaysRejected(Run(Apply(Run(s, ops), Reject(id, owner, reason)), later), id,
                          if reason == "" then None else Some(reason))
  {
    var r := Run(s, ops);
    RunConsistent(s, ops);
    RunReasoned(s, ops);
    ProposedKept(r, Reject(id, owner, reason));
    assert r.bookings[id].rejectedReason == None;
    RunStaysRejected(Apply(r, Reject(id, owner, reason)), later, id, if reason == "" then None else Some(reason));
  }

  predicate CancelledBy(s: Store, i: Id, role: Role) {
    && s.IsBooking(i) && s.bookings[i].cancelledBy == Some(role)
    && (s.bookings[i].status == Cancelled || s.bookings[i].status == Rescheduled)
  }

  lemma StepStaysCancelled(s: Store, op: Op, i: Id, role: Role)
    requires CancelledBy(s, i, role)
    ensures CancelledBy(Apply(s, op), i, role)
  {
  }

  lemma {:induction false} RunStaysCancelled(s: Store, ops: seq<Op>, i: Id, role: Role)
    requires CancelledBy(s, i, role)
    ensures CancelledBy(Run(s, ops), i, role)
  {
    if |ops| > 0 {
      RunStaysCancelled(s, ops[..|ops| - 1], i, role);
      StepStaysCancelled(Run(s, ops[..|ops| - 1]), ops[|ops| - 1], i, role);
    }
  }

  /** A cancelled booking keeps the role that cancelled it, even when it is rescheduled later, and is never confirmed
      again. */
  lemma CancellationKeepsItsRole(s: Store, id: Id, caller: Id, role: Role, later: seq<Op>)
    requires Guard(s, Cancel(id, caller, role)) == Ok
    ensures CancelledBy(Run(Apply(s, Cancel(id, caller, role)), later), id, role)
  {
    RunStaysCancelled(Apply(s, Cancel(id, caller, role)), later, id, role);
  }

  predicate AskedFor(s: Store, q: Id, booking: Id, customer: Id, window: Window) {
    && s.IsRequest(q) && s.requests[q].booking == booking
    && s.requests[q].requestedBy == customer && s.requests[q].window == window
  }

  lemma {:induction false} RunKeepsRequest(s: Store, ops: seq<Op>, q: Id, booking: Id, customer: Id, window: Window)
    requires AskedFor(s, q, booking, customer, window)
    ensures AskedFor(Run(s, ops), q, booking, customer, window)
  {
    if |ops| > 0 {
      RunKeepsRequest(s, ops[..|ops| - 1], q, booking, customer, window);
    }
  }

  /** A request stays what the customer asked for, and its approval books exactly that: the asked window, confirmed, on
      the booking's own terms, in place of the booking. */
  lemma MoveLandsWhereAsked(s: Store, id: Id, customer: Id, window: Window, later: seq<Op>, owner: Id)
    requires Numbered(s) && Guard(s, RequestReschedule(id, customer, window)) == Ok
    ensures var r := Run(Apply(s, RequestReschedule(id, customer, window)), later);
      && AskedFor(r, |s.requests|, id, customer, window) && r.IsBooking(id)
      && (Guard(r, ApproveReschedule(|s.requests|, owner)) == Ok ==>
            var r' := Apply(r, ApproveReschedule(|s.requests|, owner));
            && |r'.bookings| == |r.bookings| + 1 && r'.bookings[id].status == Rescheduled
            && r'.requests[|s.requests|].status == RequestApproved
            && var b := r'.bookings[|r.bookings|];
               && b.window == window && b.status == Confirmed && b.rescheduledFrom == Some(id) && b.customer == customer
               && b.service == s.bookings[id].service && b.branch == s.bookings[id].branch
               && b.quantity == s.bookings[id].quantity && b.paymentMethod == s.bookings[id].paymentMethod
               && b.currency == s.bookings[id].currency && b.attempts == 0 && b.ownerResponseDeadline == None)
  {
    var s1 := Apply(s, RequestReschedule(id, customer, window));
    RunKeepsRequest(s1, later, |s.requests|, id, customer, window);
    RunKeepsRow(s1, later, id);
  }
}
