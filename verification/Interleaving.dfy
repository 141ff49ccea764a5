/**
 Concurrent reschedule approvals and rejections over one store, one statement at a time.
 An approval is a transaction: it takes its request row and then its booking row FOR UPDATE, keeps its
 writes to itself until it commits, and gives both rows back when it ends. A rejection reads the request
 without a lock and later overwrites its status in one statement, which waits while the row is locked.
 */
module Interleaving {
  import opened Sums
  import opened Tables
  import opened Occupancy
  import opened Lifecycle
  import opened Chains

  datatype Pc = AtRequest | AtBooking | AtCheck | AtApprove | AtReplace | AtInsert | AtCommit | Finished

  datatype Worker =
    | Approver(request: Id, pc: Pc, seen: Option<RescheduleRequest>, original: Option<Booking>)
    | Rejecter(request: Id, checked: bool, finished: bool)
  {
    predicate Done() { if Approver? then pc == Finished else finished }

    /** Between taking the request row and ending. */
    predicate HoldsRequest() { Approver? && pc != AtRequest && pc != Finished }

    predicate HoldsBooking() { HoldsRequest() && pc != AtBooking }
  }

  type Pid = nat

  datatype System = System(
    db: Store,
    workers: seq<Worker>,
    requestLock: map<Id, Pid>,
    bookingLock: map<Id, Pid>,
    log: seq<Id>)
  {
    predicate IsWorker(w: Pid) { w < |workers| }
  }

  function With(s: System, w: Pid, worker: Worker): System
    requires s.IsWorker(w)
  {
    s.(workers := s.workers[w := worker])
  }

  /** The end of a transaction, committed or rolled back: its row locks are released. */
  function Ended(s: System, w: Pid): System
    requires s.IsWorker(w) && s.workers[w].Approver?
  {
    With(s, w, s.workers[w].(pc := Finished)).(
      requestLock := map r | r in s.requestLock && s.requestLock[r] != w :: s.requestLock[r],
      bookingLock := map b | b in s.bookingLock && s.bookingLock[b] != w :: s.bookingLock[b])
  }

  /** The three writes of a transaction, from what it read. */
  function Commit(db: Store, request: Id, seen: RescheduleRequest, original: Booking): Store
    requires db.IsRequest(request) && db.IsBooking(seen.booking)
  {
    db.(requests := db.requests[request := db.requests[request].(status := RequestApproved)],
        bookings := db.bookings[seen.booking := db.bookings[seen.booking].(status := Rescheduled)]
                    + [Successor(db, original, seen.window)])
  }

  function NextApprover(s: System, w: Pid): Option<System>
    requires s.IsWorker(w) && s.workers[w].Approver?
  {
    var me := s.workers[w];
    match me.pc
    case AtRequest =>
      if !s.db.IsRequest(me.request) then Some(Ended(s, w))
      else if me.request in s.requestLock then None
      else if s.db.requests[me.request].status != RequestPending then Some(Ended(s, w))
      else
        Some(With(s, w, me.(pc := AtBooking, seen := Some(s.db.requests[me.request]))).(
               requestLock := s.requestLock[me.request := w]))
    case AtBooking =>
      if me.seen == None || !s.db.IsBooking(me.seen.value.booking) then Some(Ended(s, w))
      else if me.seen.value.booking in s.bookingLock then None
      else
        Some(With(s, w, me.(pc := AtCheck, original := Some(s.db.bookings[me.seen.value.booking]))).(
               bookingLock := s.bookingLock[me.seen.value.booking := w]))
    case AtCheck =>
      if me.seen == None || me.original == None then Some(Ended(s, w))
      else
        var b := me.original.value;
        if b.service in s.db.services
           && HeldByOthers(s.db, b.service, me.seen.value.window, me.seen.value.booking) + b.quantity
              <= s.db.Capacity(b.service)
        then Some(With(s, w, me.(pc := AtApprove)))
        else Some(Ended(s, w))
    case AtApprove => Some(With(s, w, me.(pc := AtReplace)))
    case AtReplace => Some(With(s, w, me.(pc := AtInsert)))
    case AtInsert => Some(With(s, w, me.(pc := AtCommit)))
    case AtCommit =>
      if me.seen == None || me.original == None || !s.db.IsRequest(me.request) || !s.db.IsBooking(me.seen.value.booking)
      then Some(Ended(s, w))
      else
        Some(Ended(s, w).(db := Commit(s.db, me.request, me.seen.value, me.original.value), log := s.log + [me.request]))
    case Finished => None
  }

  function NextRejecter(s: System, w: Pid): Option<System>
    requires s.IsWorker(w) && s.workers[w].Rejecter?
  {
    var me := s.workers[w];
    if me.finished then None
    else if !s.db.IsRequest(me.request) then Some(With(s, w, me.(finished := true)))
    else if !me.checked then
      if s.db.requests[me.request].status != RequestPending then Some(With(s, w, me.(finished := true)))
      else Some(With(s, w, me.(checked := true)))
    else if me.request in s.requestLock then None
    else Some(With(s, w, me.(finished := true)).(db := WithRequestStatus(s.db, me.request, RequestRejected)))
  }

  /** What worker w does next; None while it waits for a row or has ended. */
  function Next(s: System, w: Pid): Option<System> {
    if !s.IsWorker(w) then None
    else if s.workers[w].Approver? then NextApprover(s, w)
    else NextRejecter(s, w)
  }

  /** A scheduler picks a worker; it moves, or its transaction fails and rolls back. */
  datatype Choice = Go(w: Pid) | Fail(w: Pid)

  function Do(s: System, c: Choice): System {
    match c
    case Go(w) => if Next(s, w).Some? then Next(s, w).value else s
    case Fail(w) =>
      if s.IsWorker(w) && s.workers[w].Approver? then Ended(s, w)
      else if s.IsWorker(w) then With(s, w, s.workers[w].(finished := true))
      else s
  }

  function Interleave(s: System, choices: seq<Choice>): System {
    if |choices| == 0 then s else Do(Interleave(s, choices[..|choices| - 1]), choices[|choices| - 1])
  }

  /** Any number of approvals and rejections about to start on a store. */
  predicate Starting(s: System) {
    && s.requestLock == map[] && s.bookingLock == map[] && s.log == []
    && (forall w :: 0 <= w < |s.workers| ==>
          match s.workers[w]
          case Approver(_, pc, _, _) => pc == AtRequest
          case Rejecter(_, checked, finished) => !checked && !finished)
  }

  /** A held request row is still pending and as its holder read it; a held booking row too. */
  ghost predicate Guarded(s: System) {
    && (forall r: Id :: r in s.requestLock ==>
          s.IsWorker(s.requestLock[r]) && s.workers[s.requestLock[r]].HoldsRequest()
          && s.workers[s.requestLock[r]].request == r)
    && (forall b: Id :: b in s.bookingLock ==>
          s.IsWorker(s.bookingLock[b]) && s.workers[s.bookingLock[b]].HoldsBooking()
          && s.workers[s.bookingLock[b]].seen.Some? && s.workers[s.bookingLock[b]].seen.value.booking == b)
    && (forall w: Pid :: s.IsWorker(w) && s.workers[w].HoldsRequest() ==> RequestGuarded(s, w))
    && (forall w: Pid :: s.IsWorker(w) && s.workers[w].HoldsBooking() ==> BookingGuarded(s, w))
  }

  predicate RequestGuarded(s: System, w: Pid)
    requires s.IsWorker(w) && s.workers[w].Approver?
  {
    var me := s.workers[w];
    && me.request in s.requestLock && s.requestLock[me.request] == w
    && IsPending(s.db, me.request) && me.seen == Some(s.db.requests[me.request])
  }

  predicate BookingGuarded(s: System, w: Pid)
    requires s.IsWorker(w) && s.workers[w].Approver?
  {
    var me := s.workers[w];
    && me.seen.Some? && me.seen.value.booking in s.bookingLock && s.bookingLock[me.seen.value.booking] == w
    && s.db.IsBooking(me.seen.value.booking) && me.original == Some(s.db.bookings[me.seen.value.booking])
  }

  /** Each committed request is logged once, and is pending no more. */
  ghost predicate Logged(s: System) {
    && (forall k :: 0 <= k < |s.log| ==> s.db.IsRequest(s.log[k]) && !IsPending(s.db, s.log[k]))
    && (forall j, k :: 0 <= j < k < |s.log| ==> s.log[j] != s.log[k])
  }

  ghost predicate Sound(s: System) { Guarded(s) && Logged(s) && Linked(s.db) && Proposed(s.db) }

  /** All a step may do to the store: nothing, one serial reschedule of a pending request, or one rejection. */
  predicate DbStep(s: System, s': System, w: Pid)
    requires s.IsWorker(w)
  {
    var r := s.workers[w].request;
    || (s'.db == s.db && s'.log == s.log)
    || (IsPending(s.db, r) && s.db.IsBooking(s.db.requests[r].booking)
        && s'.db == Reschedule(s.db, r) && s'.log == s.log + [r]
        && s.workers[w].Approver? && s.workers[w].pc == AtCommit)
    || (s.db.IsRequest(r) && s'.db == WithRequestStatus(s.db, r, RequestRejected) && s'.log == s.log
        && s.workers[w].Rejecter? && r !in s.requestLock)
  }

  lemma StepMovesOneWorker(s: System, w: Pid)
    requires s.IsWorker(w) && Next(s, w).Some?
    ensures var s' := Next(s, w).value;
      && |s'.workers| == |s.workers| && s'.workers == s.workers[w := s'.workers[w]]
      && s'.workers[w].Approver? == s.workers[w].Approver? && s'.workers[w].request == s.workers[w].request
  {
  }

  lemma CommitIsSerialReschedule(s: System, w: Pid)
    requires Guarded(s) && s.IsWorker(w) && s.workers[w].Approver? && s.workers[w].pc == AtCommit
    ensures IsPending(s.db, s.workers[w].request)
    ensures s.db.IsBooking(s.db.requests[s.workers[w].request].booking)
    ensures Next(s, w) == Some(Ended(s, w).(db := Reschedule(s.db, s.workers[w].request),
                                            log := s.log + [s.workers[w].request]))
  {
  }

  lemma StepTouchesStore(s: System, w: Pid)
    requires Guarded(s) && s.IsWorker(w) && Next(s, w).Some?
    ensures DbStep(s, Next(s, w).value, w)
  {
    if s.workers[w].Approver? && s.workers[w].pc == AtCommit {
      CommitIsSerialReschedule(s, w);
    }
  }

  /** Ending a transaction without touching the store keeps everyone else's rows guarded. */
  lemma EndedGuarded(s: System, w: Pid)
    requires Guarded(s) && s.IsWorker(w) && s.workers[w].Approver?
    ensures Guarded(Ended(s, w))
  {
    var s' := Ended(s, w);
    forall v: Pid | s'.IsWorker(v) && s'.workers[v].HoldsRequest()
      ensures RequestGuarded(s', v)
    {
      assert RequestGuarded(s, v);
    }
    forall v: Pid | s'.IsWorker(v) && s'.workers[v].HoldsBooking()
      ensures BookingGuarded(s', v)
    {
      assert BookingGuarded(s, v);
    }
  }

  /** A write to rows nobody holds disturbs nobody. */
  lemma WriteGuarded(s: System, db: Store)
    requires Guarded(s)
    requires |db.requests| == |s.db.requests| && |db.bookings| >= |s.db.bookings|
    requires forall r: Id :: r in s.requestLock && s.db.IsRequest(r) ==> db.requests[r] == s.db.requests[r]
    requires forall b: Id :: b in s.bookingLock && s.db.IsBooking(b) ==> db.bookings[b] == s.db.bookings[b]
    ensures Guarded(s.(db := db))
  {
    var s' := s.(db := db);
    forall v: Pid | s'.IsWorker(v) && s'.workers[v].HoldsRequest()
      ensures RequestGuarded(s', v)
    {
      assert RequestGuarded(s, v);
    }
    forall v: Pid | s'.IsWorker(v) && s'.workers[v].HoldsBooking()
      ensures BookingGuarded(s', v)
    {
      assert BookingGuarded(s, v);
    }
  }

  lemma TakeRequestGuarded(s: System, w: Pid)
    requires Guarded(s) && s.IsWorker(w) && s.workers[w].Approver? && s.workers[w].pc == AtRequest && Next(s, w).Some?
    ensures Guarded(Next(s, w).value)
  {
    var me := s.workers[w];
    var s' := Next(s, w).value;
    if s' == Ended(s, w) {
      EndedGuarded(s, w);
    } else {
      forall v: Pid | s'.IsWorker(v) && s'.workers[v].HoldsRequest()
        ensures RequestGuarded(s', v)
      {
        assert v != w ==> RequestGuarded(s, v);
      }
      forall v: Pid | s'.IsWorker(v) && s'.workers[v].HoldsBooking()
        ensures BookingGuarded(s', v)
      {
        assert BookingGuarded(s, v);
      }
    }
  }

  lemma TakeBookingGuarded(s: System, w: Pid)
    requires Guarded(s) && s.IsWorker(w) && s.workers[w].Approver? && s.workers[w].pc == AtBooking && Next(s, w).Some?
    ensures Guarded(Next(s, w).value)
  {
    var s' := Next(s, w).value;
    if s' == Ended(s, w) {
      EndedGuarded(s, w);
    } else {
      forall v: Pid | s'.IsWorker(v) && s'.workers[v].HoldsRequest()
        ensures RequestGuarded(s', v)
      {
        assert RequestGuarded(s, v);
      }
      forall v: Pid | s'.IsWorker(v) && s'.workers[v].HoldsBooking()
        ensures BookingGuarded(s', v)
      {
        assert v != w ==> BookingGuarded(s, v);
      }
    }
  }

  /** A statement that only moves its own transaction along, both rows already held. */
  lemma MoveGuarded(s: System, w: Pid, pc: Pc)
    requires Guarded(s) && s.IsWorker(w) && s.workers[w].HoldsBooking()
    requires pc != AtRequest && pc != AtBooking && pc != Finished
    ensures Guarded(With(s, w, s.workers[w].(pc := pc)))
  {
    var s' := With(s, w, s.workers[w].(pc := pc));
    forall v: Pid | s'.IsWorker(v) && s'.workers[v].HoldsRequest()
      ensures RequestGuarded(s', v)
    {
      assert RequestGuarded(s, v);
    }
    forall v: Pid | s'.IsWorker(v) && s'.workers[v].HoldsBooking()
      ensures BookingGuarded(s', v)
    {
      assert BookingGuarded(s, v);
    }
  }

  lemma LogIsNoGuard(s: System, log: seq<Id>)
    requires Guarded(s)
    ensures Guarded(s.(log := log))
  {
    var s' := s.(log := log);
    assert forall w: Pid :: s.IsWorker(w) && s.workers[w].HoldsRequest() ==> RequestGuarded(s, w) && RequestGuarded(s', w);
    assert forall w: Pid :: s.IsWorker(w) && s.workers[w].HoldsBooking() ==> BookingGuarded(s, w) && BookingGuarded(s', w);
  }

  lemma RescheduleGuarded(s: System, r: Id, log: seq<Id>)
    requires Guarded(s) && s.db.IsRequest(r) && s.db.IsBooking(s.db.requests[r].booking)
    requires r !in s.requestLock && s.db.requests[r].booking !in s.bookingLock
    ensures Guarded(s.(db := Reschedule(s.db, r), log := log))
  {
    WriteGuarded(s, Reschedule(s.db, r));
    LogIsNoGuard(s.(db := Reschedule(s.db, r)), log);
  }

  lemma CommitGuarded(s: System, w: Pid)
    requires Guarded(s) && s.IsWorker(w) && s.workers[w].Approver? && s.workers[w].pc == AtCommit
    ensures Next(s, w).Some? && Guarded(Next(s, w).value)
  {
    var r := s.workers[w].request;
    CommitIsSerialReschedule(s, w);
    EndedGuarded(s, w);
    assert RequestGuarded(s, w) && BookingGuarded(s, w);
    RescheduleGuarded(Ended(s, w), r, s.log + [r]);
  }

  lemma RejecterMoveGuarded(s: System, w: Pid, worker: Worker)
    requires Guarded(s) && s.IsWorker(w) && s.workers[w].Rejecter? && worker.Rejecter?
    ensures Guarded(With(s, w, worker))
  {
    var s' := With(s, w, worker);
    forall v: Pid | s'.IsWorker(v) && s'.workers[v].HoldsRequest()
      ensures RequestGuarded(s', v)
    {
      assert RequestGuarded(s, v);
    }
    forall v: Pid | s'.IsWorker(v) && s'.workers[v].HoldsBooking()
      ensures BookingGuarded(s', v)
    {
      assert BookingGuarded(s, v);
    }
  }

  lemma RejecterGuarded(s: System, w: Pid)
    requires Guarded(s) && s.IsWorker(w) && s.workers[w].Rejecter? && Next(s, w).Some?
    ensures Guarded(Next(s, w).value)
  {
    var me := s.workers[w];
    var s' := Next(s, w).value;
    RejecterMoveGuarded(s, w, s'.workers[w]);
    if s'.db != s.db {
      WriteGuarded(With(s, w, s'.workers[w]), s'.db);
    }
  }

  lemma StepGuarded(s: System, w: Pid)
    requires Guarded(s) && s.IsWorker(w) && Next(s, w).Some?
    ensures Guarded(Next(s, w).value)
  {
    if s.workers[w].Rejecter? {
      RejecterGuarded(s, w);
    } else {
      match s.workers[w].pc {
        case AtRequest => TakeRequestGuarded(s, w);
        case AtBooking => TakeBookingGuarded(s, w);
        case AtCommit => CommitGuarded(s, w);
        case AtCheck => EndedGuarded(s, w); MoveGuarded(s, w, AtApprove);
        case AtApprove => MoveGuarded(s, w, AtReplace);
        case AtReplace => MoveGuarded(s, w, AtInsert);
        case AtInsert => MoveGuarded(s, w, AtCommit);
      }
    }
  }

  lemma RejectLinks(db: Store, r: Id)
    requires Linked(db) && Proposed(db) && db.IsRequest(r)
    ensures Linked(WithRequestStatus(db, r, RequestRejected)) && Proposed(WithRequestStatus(db, r, RequestRejected))
  {
    LinksFramed(db, WithRequestStatus(db, r, RequestRejected));
    ProposalsFramed(db, WithRequestStatus(db, r, RequestRejected));
  }

  lemma StepSound(s: System, w: Pid)
    requires Sound(s) && s.IsWorker(w) && Next(s, w).Some?
    ensures Sound(Next(s, w).value)
  {
    StepGuarded(s, w);
    StepTouchesStore(s, w);
    var r := s.workers[w].request;
    if IsPending(s.db, r) {
      RescheduleLinks(s.db, r);
      RescheduleProposed(s.db, r);
    }
    if s.db.IsRequest(r) {
      RejectLinks(s.db, r);
    }
  }

  lemma FailSound(s: System, w: Pid)
    requires Sound(s) && s.IsWorker(w)
    ensures Sound(Do(s, Fail(w))) && Do(s, Fail(w)).db == s.db && Do(s, Fail(w)).log == s.log
  {
    if s.workers[w].Approver? {
      EndedGuarded(s, w);
    } else {
      RejecterMoveGuarded(s, w, s.workers[w].(finished := true));
    }
  }

  lemma DoSound(s: System, c: Choice)
    requires Sound(s)
    ensures Sound(Do(s, c))
  {
    if s.IsWorker(c.w) {
      if c.Fail? {
        FailSound(s, c.w);
      } else if Next(s, c.w).Some? {
        StepSound(s, c.w);
      }
    }
  }

  lemma {:induction false} StaysSound(s: System, choices: seq<Choice>)
    requires Sound(s)
    ensures Sound(Interleave(s, choices))
  {
    if |choices| > 0 {
      StaysSound(s, choices[..|choices| - 1]);
      DoSound(Interleave(s, choices[..|choices| - 1]), choices[|choices| - 1]);
    }
  }

  lemma InterleaveSound(s: System, choices: seq<Choice>)
    requires Starting(s) && Consistent(s.db)
    ensures Sound(Interleave(s, choices))
  {
    StaysSound(s, choices);
  }
}
