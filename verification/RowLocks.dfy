/** What the row locks guarantee over every interleaving, and what they leave open. */
module RowLocks {
  import opened Sums
  import opened Tables
  import opened Occupancy
  import opened Lifecycle
  import opened Capacity
  import opened Chains
  import opened Interleaving

  /** Each logged request has one booking to show for it, added in the order of the log. */
  ghost predicate Produced(before: Store, s: System) {
    && |s.db.bookings| == |before.bookings| + |s.log|
    && |s.db.requests| == |before.requests|
    && (forall k :: 0 <= k < |s.log| ==> s.db.IsRequest(s.log[k]) && SucceedsBy(s.db, |before.bookings| + k, s.log[k]))
  }

  predicate SucceedsBy(db: Store, i: Id, r: Id)
    requires db.IsBooking(i) && db.IsRequest(r)
  {
    db.bookings[i].rescheduledFrom == Some(db.requests[r].booking) && db.bookings[i].window == db.requests[r].window
  }

  lemma RescheduleProduces(before: Store, s: System, r: Id)
    requires Numbered(s.db) && s.db.IsRequest(r) && s.db.IsBooking(s.db.requests[r].booking) && Produced(before, s)
    ensures Produced(before, s.(db := Reschedule(s.db, r), log := s.log + [r]))
  {
  }

  lemma RejectProduces(before: Store, s: System, r: Id)
    requires s.db.IsRequest(r) && Produced(before, s)
    ensures Produced(before, s.(db := WithRequestStatus(s.db, r, RequestRejected)))
  {
  }

  /** Produced looks at nothing but the store and the log. */
  lemma ProducedFramed(before: Store, s: System, s': System)
    requires Produced(before, s) && s'.db == s.db && s'.log == s.log
    ensures Produced(before, s')
  {
  }

  lemma StepProduces(before: Store, s: System, c: Choice)
    requires Sound(s) && Produced(before, s)
    ensures Produced(before, Do(s, c))
  {
    if s.IsWorker(c.w) {
      if c.Fail? {
        FailSound(s, c.w);
      } else if Next(s, c.w).Some? {
        StepTouchesStore(s, c.w);
        var s' := Next(s, c.w).value;
        var r := s.workers[c.w].request;
        if s'.db == s.db && s'.log == s.log {
          ProducedFramed(before, s, s');
        } else if s.workers[c.w].Approver? {
          RescheduleProduces(before, s, r);
          ProducedFramed(before, s.(db := s'.db, log := s'.log), s');
        } else {
          RejectProduces(before, s, r);
          ProducedFramed(before, s.(db := s'.db), s');
        }
      }
    }
  }

  lemma {:induction false} InterleaveProduces(s: System, choices: seq<Choice>)
    requires Starting(s) && Consistent(s.db)
    ensures Produced(s.db, Interleave(s, choices))
  {
    if |choices| > 0 {
      InterleaveProduces(s, choices[..|choices| - 1]);
      InterleaveSound(s, choices[..|choices| - 1]);
      StepProduces(s.db, Interleave(s, choices[..|choices| - 1]), choices[|choices| - 1]);
    }
  }

  /** A rejection of r that has checked the request's status and has not written yet. */
  predicate AboutToReject(worker: Worker, r: Id) {
    worker.Rejecter? && worker.request == r && worker.checked && !worker.finished
  }

  /** Only requests pending at the start are decided, and the log holds those an approval decided. */
  ghost predicate Recorded(before: Store, s: System) {
    && (forall r: Id :: IsPending(s.db, r) ==> IsPending(before, r))
    && (forall r: Id :: r in s.log ==> IsPending(before, r))
    && (forall r: Id :: IsPending(before, r) && IsApproved(s.db, r) ==> r in s.log)
    && (forall w: Pid, r: Id :: s.IsWorker(w) && AboutToReject(s.workers[w], r) ==> IsPending(before, r))
  }

  /** A rejection starts waiting to write only after it found the request pending. */
  lemma CheckFindsPending(s: System, w: Pid, r: Id)
    requires s.IsWorker(w) && Next(s, w).Some? && !AboutToReject(s.workers[w], r)
    ensures Next(s, w).value.IsWorker(w) && (AboutToReject(Next(s, w).value.workers[w], r) ==> IsPending(s.db, r))
  {
  }

  lemma DecisionRecorded(before: Store, s: System, s': System, w: Pid)
    requires s.IsWorker(w) && DbStep(s, s', w) && Recorded(before, s)
    ensures forall r: Id :: IsPending(s'.db, r) ==> IsPending(before, r)
    ensures forall r: Id :: r in s'.log ==> IsPending(before, r)
    ensures forall r: Id :: IsPending(before, r) && IsApproved(s'.db, r) ==> r in s'.log
  {
  }

  lemma StepRecords(before: Store, s: System, w: Pid)
    requires Sound(s) && Recorded(before, s) && s.IsWorker(w) && Next(s, w).Some?
    ensures Recorded(before, Next(s, w).value)
  {
    StepTouchesStore(s, w);
    hide Next, Sound;
    var s' := Next(s, w).value;
    StepMovesOneWorker(s, w);
    DecisionRecorded(before, s, s', w);
    forall v: Pid, r: Id | s'.IsWorker(v) && AboutToReject(s'.workers[v], r)
      ensures IsPending(before, r)
    {
      if v != w {
        assert s'.workers[v] == s.workers[v];
      } else if !AboutToReject(s.workers[w], r) {
        CheckFindsPending(s, w, r);
      }
    }
  }

  lemma FailRecords(before: Store, s: System, w: Pid)
    requires Sound(s) && Recorded(before, s) && s.IsWorker(w)
    ensures Recorded(before, Do(s, Fail(w)))
  {
    FailSound(s, w);
    var s' := Do(s, Fail(w));
    assert forall v: Pid, r: Id :: s'.IsWorker(v) && AboutToReject(s'.workers[v], r) ==> AboutToReject(s.workers[v], r);
  }

  lemma {:induction false} InterleaveRecords(s: System, choices: seq<Choice>)
    requires Starting(s) && Consistent(s.db)
    ensures Recorded(s.db, Interleave(s, choices))
  {
    if |choices| > 0 {
      hide Next, Sound, Recorded;
      var e, last := Interleave(s, choices[..|choices| - 1]), choices[|choices| - 1];
      InterleaveRecords(s, choices[..|choices| - 1]);
      InterleaveSound(s, choices[..|choices| - 1]);
      if e.IsWorker(last.w) {
        if last.Fail? {
          FailRecords(s.db, e, last.w);
        } else if Next(e, last.w).Some? {
          StepRecords(s.db, e, last.w);
        }
      }
    }
  }

  /** Under every interleaving the new bookings are exactly one per committed request, no request commits twice,
      no booking is replaced twice, and every request that went from pending to approved has committed. */
  lemma OneSuccessorPerRequest(s: System, choices: seq<Choice>)
    requires Starting(s) && Consistent(s.db)
    ensures var e := Interleave(s, choices);
      && Produced(s.db, e)
      && (forall j, k :: 0 <= j < k < |e.log| ==> e.log[j] != e.log[k])
      && (forall r: Id :: r in e.log ==> IsPending(s.db, r) && !IsPending(e.db, r))
      && (forall r: Id :: IsPending(s.db, r) && IsApproved(e.db, r) ==> r in e.log)
      && Linked(e.db)
  {
    InterleaveProduces(s, choices);
    InterleaveSound(s, choices);
    InterleaveRecords(s, choices);
  }

  lemma StepKeepsDecided(s: System, c: Choice, r: Id)
    requires Sound(s) && s.db.IsRequest(r) && !IsPending(s.db, r)
    ensures Do(s, c).db.IsRequest(r) && !IsPending(Do(s, c).db, r)
  {
    if s.IsWorker(c.w) {
      if c.Fail? {
        FailSound(s, c.w);
      } else if Next(s, c.w).Some? {
        StepTouchesStore(s, c.w);
      }
    }
  }

  /** A request that has left 'pending' never returns to it. */
  lemma {:induction false} NeverPendingAgain(s: System, choices: seq<Choice>, k: nat, r: Id)
    requires Starting(s) && Consistent(s.db) && k <= |choices|
    requires Interleave(s, choices[..k]).db.IsRequest(r) && !IsPending(Interleave(s, choices[..k]).db, r)
    ensures Interleave(s, choices).db.IsRequest(r) && !IsPending(Interleave(s, choices).db, r)
  {
    if k == |choices| {
      assert choices[..k] == choices;
    } else {
      var before := choices[..|choices| - 1];
      assert before[..k] == choices[..k];
      NeverPendingAgain(s, before, k, r);
      InterleaveSound(s, before);
      StepKeepsDecided(Interleave(s, before), choices[|choices| - 1], r);
    }
  }

  /** While anyone is unfinished, someone can move: nobody waits in a circle. */
  lemma SomeoneCanMove(s: System, w: Pid) returns (v: Pid)
    requires Guarded(s) && s.IsWorker(w) && !s.workers[w].Done()
    ensures Next(s, v).Some?
  {
    v := w;
    if Next(s, w) == None {
      if b: Id :| b in s.bookingLock {
        v := s.bookingLock[b];
      } else if r: Id :| r in s.requestLock {
        v := s.requestLock[r];
      }
    }
  }

  lemma NoDeadlock(s: System, choices: seq<Choice>)
    requires Starting(s) && Consistent(s.db)
    ensures var e := Interleave(s, choices);
      (exists w: Pid :: e.IsWorker(w) && !e.workers[w].Done()) ==> exists v: Pid :: Next(e, v).Some?
  {
    InterleaveSound(s, choices);
    var e := Interleave(s, choices);
    if w: Pid :| e.IsWorker(w) && !e.workers[w].Done() {
      var _ := SomeoneCanMove(e, w);
    }
  }

  /** The statements a worker has left. */
  function StepsLeft(): Worker -> nat {
    (w: Worker) =>
      match w
      case Approver(_, pc, _, _) =>
        (match pc
         case AtRequest => 7
         case AtBooking => 6
         case AtCheck => 5
         case AtApprove => 4
         case AtReplace => 3
         case AtInsert => 2
         case AtCommit => 1
         case Finished => 0)
      case Rejecter(_, checked, finished) => if finished then 0 else if checked then 1 else 2
  }

  lemma StepShrinks(s: System, w: Pid)
    requires s.IsWorker(w) && Next(s, w).Some?
    ensures StepsLeft()(Next(s, w).value.workers[w]) < StepsLeft()(s.workers[w])
  {
  }

  lemma StepUsesUpWork(s: System, w: Pid)
    requires s.IsWorker(w) && Next(s, w).Some?
    ensures Sum(Next(s, w).value.workers, StepsLeft()) < Sum(s.workers, StepsLeft())
  {
    var s' := Next(s, w).value;
    assert s'.workers == s.workers[w := s'.workers[w]];
    SumUpdate(s.workers, w, s'.workers[w], StepsLeft());
    StepShrinks(s, w);
  }

  /** Every choice of the schedule is a move its worker can make. */
  ghost predicate AllEnabled(s: System, choices: seq<Choice>) {
    forall k :: 0 <= k < |choices| ==> choices[k].Go? && Next(Interleave(s, choices[..k]), choices[k].w).Some?
  }

  /** So however the moves are scheduled, they run out after at most seven per worker; by NoDeadlock all have then ended. */
  lemma {:induction false} SchedulesAreBounded(s: System, choices: seq<Choice>)
    requires AllEnabled(s, choices)
    ensures |choices| + Sum(Interleave(s, choices).workers, StepsLeft()) <= Sum(s.workers, StepsLeft()) <= 7 * |s.workers|
  {
    AtMostSeven(s.workers);
    if |choices| > 0 {
      var before := choices[..|choices| - 1];
      assert forall k :: 0 <= k < |before| ==> before[..k] == choices[..k];
      SchedulesAreBounded(s, before);
      StepUsesUpWork(Interleave(s, before), choices[|choices| - 1].w);
    }
  }

  lemma {:induction false} AtMostSeven(workers: seq<Worker>)
    ensures Sum(workers, StepsLeft()) <= 7 * |workers|
  {
    if |workers| > 0 {
      AtMostSeven(workers[..|workers| - 1]);
    }
  }

  /** The system once approver w, undisturbed, has run every statement but its commit. */
  function Prepared(s: System, w: Pid): System
    requires s.IsWorker(w) && s.workers[w].Approver? && s.db.IsRequest(s.workers[w].request)
    requires s.db.IsBooking(s.db.requests[s.workers[w].request].booking)
  {
    var r := s.workers[w].request;
    var b := s.db.requests[r].booking;
    With(s, w, Approver(r, AtCommit, Some(s.db.requests[r]), Some(s.db.bookings[b]))).(
      requestLock := s.requestLock[r := w], bookingLock := s.bookingLock[b := w])
  }

  lemma InterleaveAppend(s: System, choices: seq<Choice>, c: Choice)
    ensures Interleave(s, choices + [c]) == Do(Interleave(s, choices), c)
  {
    assert (choices + [c])[..|choices|] == choices;
  }

  lemma {:induction false} InterleaveJoin(s: System, first: seq<Choice>, second: seq<Choice>)
    ensures Interleave(s, first + second) == Interleave(Interleave(s, first), second)
    decreases |second|
  {
    hide Do;
    if second == [] {
      assert first + second == first;
    } else {
      var most, last := second[..|second| - 1], second[|second| - 1];
      var middle, end := Interleave(s, first), Interleave(s, first + most);
      InterleaveJoin(s, first, most);
      assert second == most + [last] && first + second == (first + most) + [last];
      var joined := Do(end, last);
      assert Interleave(s, first + second) == joined by { InterleaveAppend(s, first + most, last); }
      assert Interleave(middle, second) == joined by { InterleaveAppend(middle, most, last); }
    }
  }

  function SixMoves(w: Pid): seq<Choice> { [Go(w), Go(w), Go(w)] + [Go(w), Go(w), Go(w)] }

  lemma ThreeMoves(s: System, w: Pid)
    ensures Interleave(s, [Go(w), Go(w), Go(w)]) == Do(Do(Do(s, Go(w)), Go(w)), Go(w))
  {
    InterleaveAppend(s, [], Go(w));
    InterleaveAppend(s, [Go(w)], Go(w));
    InterleaveAppend(s, [Go(w), Go(w)], Go(w));
    assert [] + [Go(w)] == [Go(w)];
    assert [Go(w)] + [Go(w)] == [Go(w), Go(w)];
    assert [Go(w), Go(w)] + [Go(w)] == [Go(w), Go(w), Go(w)];
  }

  lemma UndisturbedPrepares(s: System, w: Pid)
    requires s.IsWorker(w) && s.workers[w].Approver? && s.workers[w].pc == AtRequest
    requires RescheduleTxGuard(s.db, s.workers[w].request) == Ok
    requires s.workers[w].request !in s.requestLock
    requires s.db.requests[s.workers[w].request].booking !in s.bookingLock
    ensures Interleave(s, SixMoves(w)) == Prepared(s, w)
  {
    var r := s.workers[w].request;
    var b := s.db.requests[r].booking;
    var me := s.workers[w].(seen := Some(s.db.requests[r]));
    var s1 := With(s, w, me.(pc := AtBooking)).(requestLock := s.requestLock[r := w]);
    assert Do(s, Go(w)) == s1;
    var mine := me.(original := Some(s.db.bookings[b]));
    var s2 := With(s1, w, mine.(pc := AtCheck)).(bookingLock := s.bookingLock[b := w]);
    assert Do(s1, Go(w)) == s2;
    var s3 := With(s2, w, mine.(pc := AtApprove));
    assert Do(s2, Go(w)) == s3;
    ThreeMoves(s, w);
    ThreeMoves(s3, w);
    assert Do(Do(Do(s3, Go(w)), Go(w)), Go(w)) == Prepared(s, w);
    InterleaveJoin(s, [Go(w), Go(w), Go(w)], [Go(w), Go(w), Go(w)]);
  }

  lemma PreparedCommits(s: System, w: Pid)
    requires s.IsWorker(w) && s.workers[w].Approver? && s.db.IsRequest(s.workers[w].request)
    requires s.db.IsBooking(s.db.requests[s.workers[w].request].booking)
    ensures Do(Prepared(s, w), Go(w)).db == Reschedule(s.db, s.workers[w].request)
  {
  }

  lemma {:induction false} DoneStays(s: System, w: Pid, choices: seq<Choice>)
    requires s.IsWorker(w) && s.workers[w].Done() && forall k :: 0 <= k < |choices| ==> choices[k] == Go(w)
    ensures Interleave(s, choices) == s
  {
    if |choices| > 0 {
      DoneStays(s, w, choices[..|choices| - 1]);
    }
  }

  lemma RefusedLeavesStore(s: System, w: Pid)
    requires s.IsWorker(w) && s.workers[w].Approver? && s.workers[w].pc == AtRequest
    requires RescheduleTxGuard(s.db, s.workers[w].request) != Ok
    requires s.workers[w].request !in s.requestLock
    requires s.db.IsRequest(s.workers[w].request) ==> s.db.requests[s.workers[w].request].booking !in s.bookingLock
    ensures var e := Interleave(s, [Go(w), Go(w), Go(w)]);
      e.db == s.db && e.IsWorker(w) && e.workers[w].Done()
  {
    ThreeMoves(s, w);
    var s1 := Do(s, Go(w));
    var s2 := Do(s1, Go(w));
    assert s1.workers[w].Done() ==> s2 == s1;
    assert s2.workers[w].Done() ==> Do(s2, Go(w)) == s2;
  }

  lemma UndisturbedCommit(s: System, w: Pid)
    requires s.IsWorker(w) && s.workers[w].Approver? && s.workers[w].pc == AtRequest
    requires RescheduleTxGuard(s.db, s.workers[w].request) == Ok
    requires s.workers[w].request !in s.requestLock
    requires s.db.requests[s.workers[w].request].booking !in s.bookingLock
    ensures Interleave(s, SixMoves(w) + [Go(w)]) == Do(Prepared(s, w), Go(w))
    ensures Interleave(s, SixMoves(w) + [Go(w)]).db == Reschedule(s.db, s.workers[w].request)
  {
    UndisturbedPrepares(s, w);
    PreparedCommits(s, w);
    hide Do, Prepared;
    InterleaveAppend(s, SixMoves(w), Go(w));
  }

  /** A worker that has ended after three moves wastes the others. */
  lemma ThreeAreEnough(s: System, w: Pid)
    requires var e := Interleave(s, [Go(w), Go(w), Go(w)]); e.IsWorker(w) && e.workers[w].Done()
    ensures Interleave(s, SixMoves(w) + [Go(w)]) == Interleave(s, [Go(w), Go(w), Go(w)])
  {
    hide Do, Interleave;
    var three := [Go(w), Go(w), Go(w)];
    DoneStays(Interleave(s, three), w, three + [Go(w)]);
    InterleaveJoin(s, three, three + [Go(w)]);
    assert SixMoves(w) + [Go(w)] == three + (three + [Go(w)]);
  }

  /** An approval that nobody disturbs is the serial transaction, whether it commits or is refused. */
  lemma UndisturbedIsSerial(s: System, w: Pid)
    requires s.IsWorker(w) && s.workers[w].Approver? && s.workers[w].pc == AtRequest
    requires s.workers[w].request !in s.requestLock
    requires s.db.IsRequest(s.workers[w].request) ==> s.db.requests[s.workers[w].request].booking !in s.bookingLock
    ensures Interleave(s, SixMoves(w) + [Go(w)]).db
         == if RescheduleTxGuard(s.db, s.workers[w].request) == Ok then Reschedule(s.db, s.workers[w].request) else s.db
  {
    hide Interleave;
    if RescheduleTxGuard(s.db, s.workers[w].request) == Ok {
      UndisturbedCommit(s, w);
    } else {
      RefusedLeavesStore(s, w);
      ThreeAreEnough(s, w);
    }
  }

  /** The system once approver w, undisturbed, has committed. */
  function Committed(s: System, w: Pid): System
    requires s.IsWorker(w) && s.workers[w].Approver? && s.db.IsRequest(s.workers[w].request)
    requires s.db.IsBooking(s.db.requests[s.workers[w].request].booking)
  {
    Do(Prepared(s, w), Go(w))
  }

  lemma UndisturbedCommits(s: System, w: Pid)
    requires s.IsWorker(w) && s.workers[w].Approver? && s.workers[w].pc == AtRequest
    requires RescheduleTxGuard(s.db, s.workers[w].request) == Ok
    requires s.requestLock == map[] && s.bookingLock == map[]
    ensures Interleave(s, SixMoves(w) + [Go(w)]) == Committed(s, w)
    ensures Committed(s, w).db == Reschedule(s.db, s.workers[w].request) && Committed(s, w).requestLock == map[]
    ensures Committed(s, w).IsWorker(w) && Committed(s, w).workers[w].Done()
    ensures Committed(s, w).log == s.log + [s.workers[w].request]
    ensures forall v: Pid :: s.IsWorker(v) && v != w ==>
      Committed(s, w).IsWorker(v) && Committed(s, w).workers[v] == s.workers[v]
  {
    hide Interleave;
    UndisturbedCommit(s, w);
  }

  lemma CheckedRejecterWrites(s: System, w: Pid)
    requires s.IsWorker(w) && s.workers[w].Rejecter? && s.workers[w].checked && !s.workers[w].finished
    requires s.db.IsRequest(s.workers[w].request) && s.workers[w].request !in s.requestLock
    ensures Do(s, Go(w)).db == WithRequestStatus(s.db, s.workers[w].request, RequestRejected)
  {
  }

  ghost predicate NobodyAboutToReject(s: System, r: Id) {
    forall w: Pid :: s.IsWorker(w) ==> !AboutToReject(s.workers[w], r)
  }

  ghost predicate StaysApproved(s: System, r: Id) {
    forall choices: seq<Choice> :: IsApproved(Interleave(s, choices).db, r)
  }

  /** A rejection that checks now finds the request approved. */
  lemma CheckComesTooLate(s: System, w: Pid, r: Id)
    requires s.IsWorker(w) && Next(s, w).Some? && IsApproved(s.db, r) && !AboutToReject(s.workers[w], r)
    ensures Next(s, w).value.IsWorker(w) && !AboutToReject(Next(s, w).value.workers[w], r)
  {
  }

  lemma FailKeepsApproval(s: System, w: Pid, r: Id)
    requires Sound(s) && s.IsWorker(w) && IsApproved(s.db, r) && NobodyAboutToReject(s, r)
    ensures var s' := Do(s, Fail(w)); IsApproved(s'.db, r) && NobodyAboutToReject(s', r)
  {
    FailSound(s, w);
  }

  lemma StepKeepsApproval(s: System, w: Pid, r: Id)
    requires Sound(s) && s.IsWorker(w) && Next(s, w).Some? && IsApproved(s.db, r) && NobodyAboutToReject(s, r)
    ensures var s' := Next(s, w).value; IsApproved(s'.db, r) && NobodyAboutToReject(s', r)
  {
    StepTouchesStore(s, w);
    StepMovesOneWorker(s, w);
    CheckComesTooLate(s, w, r);
    StepWritesNoRejection(s, w, r);
    hide Next;
  }

  lemma StepWritesNoRejection(s: System, w: Pid, r: Id)
    requires s.IsWorker(w) && Next(s, w).Some? && DbStep(s, Next(s, w).value, w)
    requires IsApproved(s.db, r) && !AboutToReject(s.workers[w], r)
    ensures IsApproved(Next(s, w).value.db, r)
  {
  }

  lemma {:induction false} ApprovalStands(s: System, choices: seq<Choice>, r: Id)
    requires Sound(s) && IsApproved(s.db, r) && NobodyAboutToReject(s, r)
    ensures var e := Interleave(s, choices); Sound(e) && IsApproved(e.db, r) && NobodyAboutToReject(e, r)
  {
    if |choices| > 0 {
      hide Next, Sound, IsApproved, NobodyAboutToReject;
      var e, last := Interleave(s, choices[..|choices| - 1]), choices[|choices| - 1];
      ApprovalStands(s, choices[..|choices| - 1], r);
      DoSound(e, last);
      if e.IsWorker(last.w) {
        if last.Fail? {
          FailKeepsApproval(e, last.w, r);
        } else if Next(e, last.w).Some? {
          StepKeepsApproval(e, last.w, r);
        }
      }
    }
  }

  /** An approved request stays approved through every continuation exactly when no rejection of it is between its
      check and its write. */
  lemma ApprovalStandsExactly(s: System, r: Id)
    requires Sound(s) && IsApproved(s.db, r)
    ensures StaysApproved(s, r) <==> NobodyAboutToReject(s, r)
  {
    hide Do;
    if NobodyAboutToReject(s, r) {
      forall choices: seq<Choice>
        ensures IsApproved(Interleave(s, choices).db, r)
      {
        ApprovalStands(s, choices, r);
      }
    } else {
      var w: Pid :| s.IsWorker(w) && AboutToReject(s.workers[w], r);
      assert r in s.requestLock ==> RequestGuarded(s, s.requestLock[r]);
      CheckedRejecterWrites(s, w);
      assert [] + [Go(w)] == [Go(w)];
      InterleaveAppend(s, [], Go(w));
      assert !IsApproved(Interleave(s, [Go(w)]).db, r);
    }
  }

  /** A rejection that read 'pending' before an approval of the same request ran overwrites its outcome:
      the request ends rejected although its successor is booked. */
  lemma LateRejectionOverwritesApproval(s: System, a: Pid, j: Pid)
    requires Starting(s) && s.IsWorker(a) && s.IsWorker(j)
    requires s.workers[a].Approver? && s.workers[j].Rejecter? && s.workers[j].request == s.workers[a].request
    requires RescheduleTxGuard(s.db, s.workers[a].request) == Ok
    ensures var r := s.workers[a].request;
      var e := Interleave(s, [Go(j)] + (SixMoves(a) + [Go(a)]) + [Go(j)]);
      && e.db == WithRequestStatus(Reschedule(s.db, r), r, RequestRejected)
      && e.db.requests[r].status == RequestRejected && |e.db.bookings| == |s.db.bookings| + 1
  {
    var s1 := With(s, j, s.workers[j].(checked := true));
    assert [] + [Go(j)] == [Go(j)];
    InterleaveAppend(s, [], Go(j));
    assert Interleave(s, [Go(j)]) == s1;
    UndisturbedCommits(s1, a);
    InterleaveJoin(s, [Go(j)], SixMoves(a) + [Go(a)]);
    InterleaveAppend(s, [Go(j)] + (SixMoves(a) + [Go(a)]), Go(j));
    CheckedRejecterWrites(Committed(s1, a), j);
  }

  lemma FirstOfTwoCommits(s: System, a: Pid, b: Pid)
    requires s.IsWorker(a) && s.IsWorker(b) && a != b && s.workers[a].Approver? && s.workers[b].Approver?
    requires s.db.IsRequest(s.workers[a].request) && s.db.IsBooking(s.db.requests[s.workers[a].request].booking)
    requires s.db.IsRequest(s.workers[b].request) && s.db.IsBooking(s.db.requests[s.workers[b].request].booking)
    ensures var s3 := Do(Prepared(Prepared(s, a), b), Go(a));
      && s3.db == Reschedule(s.db, s.workers[a].request) && s3.IsWorker(b)
      && s3.workers[b] == Prepared(s, b).workers[b]
  {
  }

  lemma SecondOfTwoCommits(s: System, w: Pid, r: Id)
    requires s.IsWorker(w) && s.db.IsRequest(r) && s.db.IsBooking(s.db.requests[r].booking)
    requires s.workers[w] == Approver(r, AtCommit, Some(s.db.requests[r]), Some(s.db.bookings[s.db.requests[r].booking]))
    ensures Do(s, Go(w)).db == Reschedule(s.db, r)
  {
  }

  /** Two approvals of different bookings that both check before either commits both go through. */
  lemma BothChecksPassBothCommit(s: System, a: Pid, b: Pid)
    requires Starting(s) && s.IsWorker(a) && s.IsWorker(b) && a != b
    requires s.workers[a].Approver? && s.workers[b].Approver?
    requires RescheduleTxGuard(s.db, s.workers[a].request) == Ok && RescheduleTxGuard(s.db, s.workers[b].request) == Ok
    requires s.db.requests[s.workers[a].request].booking != s.db.requests[s.workers[b].request].booking
    ensures Interleave(s, SixMoves(a) + SixMoves(b) + [Go(a)] + [Go(b)]).db
         == Reschedule(Reschedule(s.db, s.workers[a].request), s.workers[b].request)
  {
    UndisturbedPrepares(s, a);
    var s1 := Prepared(s, a);
    UndisturbedPrepares(s1, b);
    var s2 := Prepared(s1, b);
    InterleaveJoin(s, SixMoves(a), SixMoves(b));
    InterleaveAppend(s, SixMoves(a) + SixMoves(b), Go(a));
    InterleaveAppend(s, SixMoves(a) + SixMoves(b) + [Go(a)], Go(b));
    var s3 := Do(s2, Go(a));
    FirstOfTwoCommits(s, a, b);
    SecondOfTwoCommits(s3, b, s.workers[b].request);
  }

  /** Then an instant in both new windows carries both quantities, whatever the capacity. */
  lemma BothQuantitiesLand(db: Store, p: Id, q: Id, t: int)
    requires Numbered(db) && RescheduleTxGuard(db, p) == Ok && RescheduleTxGuard(db, q) == Ok
    requires db.requests[p].booking != db.requests[q].booking
    requires db.requests[p].window.Covers(t) && db.requests[q].window.Covers(t)
    requires var a, b := db.bookings[db.requests[p].booking], db.bookings[db.requests[q].booking];
      a.service == b.service && !a.window.Covers(t) && !b.window.Covers(t)
    ensures var a, b := db.bookings[db.requests[p].booking], db.bookings[db.requests[q].booking];
      Load(Reschedule(Reschedule(db, p), q), a.service, t) == Load(db, a.service, t) + a.quantity + b.quantity
  {
    var service := db.bookings[db.requests[p].booking].service;
    LoadAfterReschedule(db, p, service, t);
    LoadAfterReschedule(Reschedule(db, p), q, service, t);
  }
}
