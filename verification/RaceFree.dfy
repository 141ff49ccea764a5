/** When approvals may run concurrently without overbooking: their new windows do not compete. */
module RaceFree {
  import opened Sums
  import opened Tables
  import opened Occupancy
  import opened Lifecycle
  import opened Capacity
  import opened Chains
  import opened Interleaving

  /** Two requests of different bookings want overlapping windows of one service. */
  predicate Compete(db: Store, p: Id, q: Id) {
    && db.IsRequest(p) && db.IsRequest(q) && db.requests[p].booking != db.requests[q].booking
    && db.IsBooking(db.requests[p].booking) && db.IsBooking(db.requests[q].booking)
    && var a, b := db.bookings[db.requests[p].booking], db.bookings[db.requests[q].booking];
       a.service == b.service && db.requests[p].window.Overlaps(db.requests[q].window)
  }

  ghost predicate NobodyCompetes(s: System) {
    forall v: Pid, w: Pid :: s.IsWorker(v) && s.IsWorker(w) && s.workers[v].Approver? && s.workers[w].Approver?
      ==> !Compete(s.db, s.workers[v].request, s.workers[w].request)
  }

  /** A transaction past its capacity check would still pass it. */
  ghost predicate ChecksStand(s: System) {
    forall w: Pid :: s.IsWorker(w) && PastCheck(s.workers[w]) ==> RescheduleTxGuard(s.db, s.workers[w].request) == Ok
  }

  predicate PastCheck(worker: Worker) { worker.HoldsBooking() && worker.pc != AtCheck }

  ghost predicate Unraced(s: System) { Sound(s) && NobodyCompetes(s) && ChecksStand(s) }

  lemma RescheduleFreesRoom(db: Store, p: Id, service: Id, window: Window, other: Id)
    requires Linked(db) && db.IsRequest(p) && db.IsBooking(db.requests[p].booking)
    requires var a := db.bookings[db.requests[p].booking];
      a.service == service ==> !db.requests[p].window.Overlaps(window)
    ensures HeldByOthers(Reschedule(db, p), service, window, other) <= HeldByOthers(db, service, window, other)
  {
    var r, a := db.requests[p], db.bookings[db.requests[p].booking];
    var weight := BookingInExcept(service, window, other);
    SumUpdate(db.bookings, r.booking, a.(status := Rescheduled), weight);
    SumAppend(db.bookings[r.booking := a.(status := Rescheduled)], Successor(db, a, r.window), weight);
  }

  /** A reschedule that does not compete takes no room from another's window. */
  lemma RescheduleLeavesRoom(db: Store, p: Id, q: Id)
    requires Linked(db) && RescheduleTxGuard(db, q) == Ok && db.IsRequest(p) && db.IsBooking(db.requests[p].booking)
    requires db.requests[p].booking != db.requests[q].booking && !Compete(db, p, q)
    ensures RescheduleTxGuard(Reschedule(db, p), q) == Ok
  {
    var b := db.bookings[db.requests[q].booking];
    hide HeldByOthers;
    RescheduleFreesRoom(db, p, b.service, db.requests[q].window, db.requests[q].booking);
  }

  /** Passing the check means passing the serial guard, since the rows read are still the rows there. */
  lemma CheckIsGuard(s: System, w: Pid)
    requires Guarded(s) && s.IsWorker(w) && s.workers[w].Approver? && s.workers[w].pc == AtCheck
    ensures Next(s, w).Some? && (PastCheck(Next(s, w).value.workers[w]) ==> RescheduleTxGuard(s.db, s.workers[w].request) == Ok)
  {
  }

  lemma RejectLeavesRoom(db: Store, r: Id, q: Id)
    requires db.IsRequest(r) && r != q && RescheduleTxGuard(db, q) == Ok
    ensures RescheduleTxGuard(WithRequestStatus(db, r, RequestRejected), q) == Ok
  {
  }

  lemma PastCheckByChecking(s: System, w: Pid)
    requires s.IsWorker(w) && Next(s, w).Some?
    ensures var s' := Next(s, w).value;
      s'.IsWorker(w) && (PastCheck(s'.workers[w]) ==>
        s'.db == s.db && (PastCheck(s.workers[w]) || (s.workers[w].Approver? && s.workers[w].pc == AtCheck)))
  {
  }

  lemma StepKeepsChecks(s: System, w: Pid)
    requires Unraced(s) && s.IsWorker(w) && Next(s, w).Some?
    ensures ChecksStand(Next(s, w).value)
  {
    hide Next, RescheduleTxGuard;
    var s' := Next(s, w).value;
    StepTouchesStore(s, w);
    StepMovesOneWorker(s, w);
    PastCheckByChecking(s, w);
    forall v: Pid | s'.IsWorker(v) && PastCheck(s'.workers[v])
      ensures RescheduleTxGuard(s'.db, s'.workers[v].request) == Ok
    {
      if v != w {
        OthersKeepCheck(s, s', w, v);
      } else if !PastCheck(s.workers[w]) {
        CheckIsGuard(s, w);
      }
    }
  }

  lemma OthersKeepCheck(s: System, s': System, w: Pid, v: Pid)
    requires Unraced(s) && s.IsWorker(w) && s.IsWorker(v) && v != w && PastCheck(s.workers[v]) && DbStep(s, s', w)
    ensures RescheduleTxGuard(s'.db, s.workers[v].request) == Ok
  {
    hide RescheduleTxGuard, Compete;
    assert RequestGuarded(s, v) && BookingGuarded(s, v);
    var r := s.workers[w].request;
    if s'.db != s.db {
      if s.workers[w].Rejecter? {
        RejectLeavesRoom(s.db, r, s.workers[v].request);
      } else {
        assert RequestGuarded(s, w) && BookingGuarded(s, w);
        RescheduleLeavesRoom(s.db, r, s.workers[v].request);
      }
    }
  }

  lemma StepKeepsSafe(s: System, w: Pid)
    requires Unraced(s) && Safe(s.db) && s.IsWorker(w) && Next(s, w).Some?
    ensures Safe(Next(s, w).value.db)
  {
    hide Next;
    var db := Next(s, w).value.db;
    StepTouchesStore(s, w);
    if db != s.db {
      if s.workers[w].Approver? {
        RescheduleKeepsSafe(s.db, s.workers[w].request);
      } else {
        assert forall service: Id, t: int :: Load(db, service, t) == Load(s.db, service, t);
      }
    }
  }

  /** Requests, windows, services and quantities do not change. */
  lemma StoreKeepsRivals(s: System, s': System, w: Pid)
    requires s.IsWorker(w) && DbStep(s, s', w) && Proposed(s.db)
    ensures forall p: Id, q: Id :: Compete(s'.db, p, q) ==> Compete(s.db, p, q)
  {
  }

  lemma StepKeepsPeace(s: System, w: Pid)
    requires Unraced(s) && s.IsWorker(w) && Next(s, w).Some?
    ensures NobodyCompetes(Next(s, w).value)
  {
    hide Next, Compete;
    var s' := Next(s, w).value;
    StepTouchesStore(s, w);
    StepMovesOneWorker(s, w);
    StoreKeepsRivals(s, s', w);
    forall v: Pid, u: Pid | s'.IsWorker(v) && s'.IsWorker(u) && s'.workers[v].Approver? && s'.workers[u].Approver?
      ensures !Compete(s'.db, s'.workers[v].request, s'.workers[u].request)
    {
      assert s.workers[v].request == s'.workers[v].request && s.workers[u].request == s'.workers[u].request;
    }
  }

  lemma FailKeepsUnraced(s: System, w: Pid)
    requires Unraced(s) && s.IsWorker(w)
    ensures Unraced(Do(s, Fail(w)))
  {
    hide RescheduleTxGuard, Compete;
    FailSound(s, w);
    var s' := Do(s, Fail(w));
    forall v: Pid | s'.IsWorker(v)
      ensures s'.workers[v].request == s.workers[v].request && s'.workers[v].Approver? == s.workers[v].Approver?
      ensures PastCheck(s'.workers[v]) ==> PastCheck(s.workers[v])
    {
    }
  }

  lemma DoKeepsUnraced(s: System, c: Choice)
    requires Unraced(s)
    ensures Unraced(Do(s, c))
  {
    hide NextApprover, NextRejecter;
    if s.IsWorker(c.w) {
      if c.Fail? {
        FailKeepsUnraced(s, c.w);
      } else if Next(s, c.w).Some? {
        StepSound(s, c.w);
        StepKeepsChecks(s, c.w);
        StepKeepsPeace(s, c.w);
      }
    }
  }

  lemma {:induction false} InterleaveUnraced(s: System, choices: seq<Choice>)
    requires Starting(s) && Consistent(s.db) && NobodyCompetes(s)
    ensures Unraced(Interleave(s, choices))
  {
    if |choices| > 0 {
      InterleaveUnraced(s, choices[..|choices| - 1]);
      DoKeepsUnraced(Interleave(s, choices[..|choices| - 1]), choices[|choices| - 1]);
    }
  }

  /** When no two approvals want overlapping windows of one service, every interleaving keeps every instant
      within capacity, and every commit would have passed its check at the moment it commits. */
  lemma {:induction false} NonCompetingApprovalsKeepCapacity(s: System, choices: seq<Choice>)
    requires Starting(s) && Consistent(s.db) && Safe(s.db) && NobodyCompetes(s)
    ensures var e := Interleave(s, choices);
      Safe(e.db) && ChecksStand(e) && Unraced(e)
  {
    InterleaveUnraced(s, choices);
    if |choices| > 0 {
      hide Next, Safe;
      var e, last := Interleave(s, choices[..|choices| - 1]), choices[|choices| - 1];
      NonCompetingApprovalsKeepCapacity(s, choices[..|choices| - 1]);
      if e.IsWorker(last.w) {
        if last.Fail? {
          FailSound(e, last.w);
        } else if Next(e, last.w).Some? {
          StepKeepsSafe(e, last.w);
        }
      }
    }
  }
}
