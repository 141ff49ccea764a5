/** When concurrent approvals and rejections leave what some serial order of these same calls leaves. */
module Serializability {
  import opened Tables
  import opened Lifecycle
  import opened Chains
  import opened Interleaving
  import opened RowLocks
  import opened RaceFree

  /** The request has an owner who may decide it. */
  predicate HasOwner(db: Store, r: Id) {
    db.IsRequest(r) && db.IsBooking(db.requests[r].booking) && db.bookings[db.requests[r].booking].branch in db.branchOwner
  }

  function OwnerOf(db: Store, r: Id): (owner: Id)
    requires HasOwner(db, r)
    ensures db.OwnsRescheduleBranch(r, owner)
  {
    db.branchOwner[db.bookings[db.requests[r].booking].branch]
  }

  /** Every worker's call has passed its ownership check. */
  ghost predicate AllOwned(s: System) {
    forall w: Pid :: s.IsWorker(w) ==> HasOwner(s.db, s.workers[w].request)
  }

  /** The call that a worker carries out. */
  function CallOf(s: System, w: Pid): Op
    requires s.IsWorker(w) && HasOwner(s.db, s.workers[w].request)
  {
    var r := s.workers[w].request;
    if s.workers[w].Approver? then ApproveReschedule(r, OwnerOf(s.db, r)) else RejectReschedule(r, OwnerOf(s.db, r))
  }

  /** Some of the workers, each once. */
  ghost predicate Chosen(s: System, ps: seq<Pid>) {
    && (forall k :: 0 <= k < |ps| ==> s.IsWorker(ps[k]))
    && (forall j, k :: 0 <= j < k < |ps| ==> ps[j] != ps[k])
  }

  ghost function Calls(s: System, ps: seq<Pid>): seq<Op>
    requires AllOwned(s) && Chosen(s, ps)
  {
    seq(|ps|, k requires 0 <= k < |ps| => CallOf(s, ps[k]))
  }

  /** What the calls of the chosen workers leave when they run one after the other. */
  ghost function After(s: System, ps: seq<Pid>): Store
    requires AllOwned(s) && Chosen(s, ps)
  {
    Run(s.db, Calls(s, ps))
  }

  lemma AfterOneMore(s: System, ps: seq<Pid>, p: Pid)
    requires AllOwned(s) && Chosen(s, ps) && s.IsWorker(p) && p !in ps
    ensures Chosen(s, ps + [p]) && After(s, ps + [p]) == Apply(After(s, ps), CallOf(s, p))
  {
    assert Calls(s, ps + [p]) == Calls(s, ps) + [CallOf(s, p)];
    RunAppend(s.db, Calls(s, ps), CallOf(s, p));
  }

  ghost predicate AllDone(e: System, ps: seq<Pid>) {
    forall k :: 0 <= k < |ps| ==> e.IsWorker(ps[k]) && e.workers[ps[k]].Done()
  }

  /** Some serial order of calls of the workers that have ended, each call at most once, leaves the same store. */
  ghost predicate Serializable(s: System, e: System)
    requires AllOwned(s)
  {
    exists ps: seq<Pid> :: Chosen(s, ps) && AllDone(e, ps) && After(s, ps) == e.db
  }

  ghost predicate AllStand(s: System) {
    forall r: Id :: r in s.log ==> IsApproved(s.db, r)
  }

  /** Once the calls of the chosen others have run, the approval of worker a passes its checks. */
  ghost predicate PassesAfter(s: System, a: Pid, ps: seq<Pid>)
    requires AllOwned(s)
  {
    && s.IsWorker(a) && s.workers[a].Approver? && Chosen(s, ps) && a !in ps
    && RescheduleTxGuard(After(s, ps), s.workers[a].request) == Ok
  }

  ghost predicate Rivals(s: System, a: Pid, j: Pid) {
    && s.IsWorker(a) && s.IsWorker(j) && s.workers[a].Approver? && s.workers[j].Rejecter?
    && s.workers[a].request == s.workers[j].request
  }

  /** Someone approves and someone else rejects the same request, and after some of the other calls the approval passes. */
  ghost predicate Contested(s: System)
    requires AllOwned(s)
  {
    exists a: Pid, j: Pid, ps: seq<Pid> :: PassesAfter(s, a, ps) && Rivals(s, a, j) && j !in ps
  }

  /** The log owes the request to an approval that passes after calls that have ended. */
  ghost predicate Earned(s: System, e: System, r: Id)
    requires AllOwned(s)
  {
    exists a: Pid, ps: seq<Pid> :: PassesAfter(s, a, ps) && s.workers[a].request == r && AllDone(e, ps)
  }

  /** Requests, kinds of call and owners are those of the start. */
  ghost predicate SameCalls(s: System, e: System)
    requires AllOwned(s)
  {
    && |e.workers| == |s.workers|
    && (forall w: Pid :: s.IsWorker(w) ==>
          && e.workers[w].request == s.workers[w].request && e.workers[w].Approver? == s.workers[w].Approver?
          && e.db.OwnsRescheduleBranch(s.workers[w].request, OwnerOf(s.db, s.workers[w].request)))
  }

  lemma StepKeepsCalls(s: System, e: System, w: Pid)
    requires AllOwned(s) && SameCalls(s, e) && Guarded(e) && e.IsWorker(w) && Next(e, w).Some?
    ensures SameCalls(s, Next(e, w).value)
  {
    hide Next, Guarded;
    StepTouchesStore(e, w);
    StepMovesOneWorker(e, w);
    OwnersKept(e, Next(e, w).value, w);
  }

  lemma OwnersKept(e: System, e': System, w: Pid)
    requires e.IsWorker(w) && DbStep(e, e', w)
    ensures forall r: Id, owner: Id :: e.db.OwnsRescheduleBranch(r, owner) ==> e'.db.OwnsRescheduleBranch(r, owner)
  {
  }

  /** A worker that moves has not ended, and those that have stay so; one that writes ends. */
  lemma DoneStaysDone(e: System, w: Pid, ps: seq<Pid>)
    requires e.IsWorker(w) && Next(e, w).Some? && AllDone(e, ps)
    ensures w !in ps && AllDone(Next(e, w).value, ps)
  {
    StepMovesOneWorker(e, w);
  }

  lemma WriterEnds(e: System, w: Pid)
    requires e.IsWorker(w) && Next(e, w).Some? && Next(e, w).value.db != e.db
    ensures Next(e, w).value.IsWorker(w) && Next(e, w).value.workers[w].Done()
    ensures e.workers[w].Rejecter? ==> AboutToReject(e.workers[w], e.workers[w].request)
  {
  }

  ghost predicate Traced(s: System, e: System)
    requires AllOwned(s)
  {
    && Recorded(s.db, e) && SameCalls(s, e)
    && (if AllStand(e) then Serializable(s, e) && forall r: Id :: r in e.log ==> Earned(s, e, r) else Contested(s))
  }

  /** Every logged request standing, what the log owes to whom; kept by a step that leaves the log alone. */
  lemma EarnedKept(s: System, e: System, w: Pid)
    requires AllOwned(s) && e.IsWorker(w) && Next(e, w).Some?
    requires forall r: Id :: r in e.log ==> Earned(s, e, r)
    ensures forall r: Id :: r in e.log ==> Earned(s, Next(e, w).value, r)
  {
    hide Next, After;
    forall r: Id | r in e.log
      ensures Earned(s, Next(e, w).value, r)
    {
      var a: Pid, ps: seq<Pid> :| PassesAfter(s, a, ps) && s.workers[a].request == r && AllDone(e, ps);
      DoneStaysDone(e, w, ps);
    }
  }

  lemma QuietStep(s: System, e: System, w: Pid)
    requires AllOwned(s) && e.IsWorker(w) && Next(e, w).Some? && Serializable(s, e) && Next(e, w).value.db == e.db
    ensures Serializable(s, Next(e, w).value)
  {
    hide Next, After;
    var ps: seq<Pid> :| Chosen(s, ps) && AllDone(e, ps) && After(s, ps) == e.db;
    DoneStaysDone(e, w, ps);
  }

  /** A step that does to the store what its worker's call does serially. */
  lemma SerialStep(s: System, e: System, w: Pid)
    requires AllOwned(s) && SameCalls(s, e) && e.IsWorker(w) && Next(e, w).Some? && Serializable(s, e)
    requires Next(e, w).value.db == Apply(e.db, CallOf(s, w)) && Next(e, w).value.db != e.db
    ensures Serializable(s, Next(e, w).value)
    ensures RescheduleTxGuard(e.db, s.workers[w].request) == Ok && s.workers[w].Approver? ==>
      Earned(s, Next(e, w).value, s.workers[w].request)
  {
    hide Next, After, Apply, CallOf, RescheduleTxGuard;
    var e' := Next(e, w).value;
    var ps: seq<Pid> :| Chosen(s, ps) && AllDone(e, ps) && After(s, ps) == e.db;
    DoneStaysDone(e, w, ps);
    WriterEnds(e, w);
    AfterOneMore(s, ps, w);
    assert AllDone(e', ps + [w]);
    if RescheduleTxGuard(e.db, s.workers[w].request) == Ok && s.workers[w].Approver? {
      assert PassesAfter(s, w, ps);
    }
  }

  lemma PassingCallReschedules(db: Store, r: Id, owner: Id)
    requires RescheduleTxGuard(db, r) == Ok && db.OwnsRescheduleBranch(r, owner)
    ensures Apply(db, ApproveReschedule(r, owner)) == Reschedule(db, r)
  {
    hide RescheduleTxGuard;
  }

  lemma CommitIsCall(s: System, e: System, w: Pid)
    requires AllOwned(s) && SameCalls(s, e) && Unraced(e) && e.IsWorker(w) && Next(e, w).Some?
    requires e.workers[w].Approver? && Next(e, w).value.db != e.db
    ensures DbStep(e, Next(e, w).value, w) && RescheduleTxGuard(e.db, s.workers[w].request) == Ok
    ensures Next(e, w).value.db == Apply(e.db, CallOf(s, w)) && Next(e, w).value.log == e.log + [s.workers[w].request]
  {
    StepTouchesStore(e, w);
    hide Next, RescheduleTxGuard, Sound, NobodyCompetes, Apply;
    assert PastCheck(e.workers[w]);
    PassingCallReschedules(e.db, s.workers[w].request, OwnerOf(s.db, s.workers[w].request));
  }

  lemma CommitTraced(s: System, e: System, w: Pid)
    requires AllOwned(s) && Unraced(e) && Traced(s, e) && AllStand(e) && e.IsWorker(w) && Next(e, w).Some?
    requires e.workers[w].Approver? && Next(e, w).value.db != e.db && Recorded(s.db, Next(e, w).value)
    ensures Traced(s, Next(e, w).value)
  {
    hide Recorded, Serializable, Earned, NobodyCompetes, Linked, Proposed;
    var e' := Next(e, w).value;
    CommitIsCall(s, e, w);
    hide Next, Apply, RescheduleTxGuard;
    StepKeepsCalls(s, e, w);
    EarnedKept(s, e, w);
    SerialStep(s, e, w);
    CommitStands(e, e', w);
  }

  lemma CommitStands(e: System, e': System, w: Pid)
    requires Logged(e) && AllStand(e) && e.IsWorker(w) && DbStep(e, e', w) && e.workers[w].Approver?
    ensures AllStand(e')
  {
  }

  lemma RejectedAgain(db: Store, r: Id)
    requires db.IsRequest(r)
    ensures db.requests[r].status == RequestRejected ==> WithRequestStatus(db, r, RequestRejected) == db
  {
    assert db.requests[r].status == RequestRejected ==> WithRequestStatus(db, r, RequestRejected).requests == db.requests;
  }

  /** Rejecting a pending request is the serial call, and no logged request is pending. */
  lemma PendingRejectionIsCall(s: System, e: System, w: Pid)
    requires AllOwned(s) && SameCalls(s, e) && Logged(e) && AllStand(e) && e.IsWorker(w) && Next(e, w).Some?
    requires e.workers[w].Rejecter? && DbStep(e, Next(e, w).value, w) && Next(e, w).value.db != e.db
    requires IsPending(e.db, e.workers[w].request)
    ensures Next(e, w).value.db == Apply(e.db, CallOf(s, w)) && Next(e, w).value.log == e.log && AllStand(Next(e, w).value)
  {
    hide Next;
  }

  lemma RejectionTraced(s: System, e: System, w: Pid)
    requires AllOwned(s) && Sound(e) && Traced(s, e) && AllStand(e) && e.IsWorker(w) && Next(e, w).Some?
    requires e.workers[w].Rejecter? && Next(e, w).value.db != e.db && Recorded(s.db, Next(e, w).value)
    ensures Traced(s, Next(e, w).value)
  {
    hide Serializable, Earned, Linked, Proposed, NobodyCompetes;
    var r, e' := e.workers[w].request, Next(e, w).value;
    StepTouchesStore(e, w);
    WriterEnds(e, w);
    hide Next, Guarded;
    assert IsPending(s.db, r);
    assert IsApproved(e.db, r) ==> r in e.log;
    hide Recorded;
    StepKeepsCalls(s, e, w);
    EarnedKept(s, e, w);
    if IsPending(e.db, r) {
      PendingRejectionIsCall(s, e, w);
      SerialStep(s, e, w);
    } else {
      RejectedAgain(e.db, r);
      OverwriteIsContested(s, e, w);
      assert r in e'.log && !IsApproved(e'.db, r);
    }
  }

  lemma OverwriteIsContested(s: System, e: System, w: Pid)
    requires AllOwned(s) && SameCalls(s, e) && e.IsWorker(w) && e.workers[w].Rejecter? && Next(e, w).Some?
    requires Earned(s, e, e.workers[w].request)
    ensures Contested(s)
  {
    hide Next, After;
    var a: Pid, ps: seq<Pid> :|
      PassesAfter(s, a, ps) && s.workers[a].request == e.workers[w].request && AllDone(e, ps);
    DoneStaysDone(e, w, ps);
    assert Rivals(s, a, w);
  }

  lemma StepTraced(s: System, e: System, w: Pid)
    requires AllOwned(s) && Unraced(e) && Traced(s, e) && e.IsWorker(w) && Next(e, w).Some?
    ensures Traced(s, Next(e, w).value)
  {
    var e' := Next(e, w).value;
    StepTouchesStore(e, w);
    hide Next, Recorded, Serializable, Earned, Contested, NobodyCompetes, ChecksStand;
    StepRecords(s.db, e, w);
    StepKeepsCalls(s, e, w);
    if !AllStand(e) {
      OverwrittenStays(e, e', w);
    } else if e'.db == e.db {
      QuietStep(s, e, w);
      EarnedKept(s, e, w);
      QuietLog(e, e', w);
    } else if e.workers[w].Approver? {
      CommitTraced(s, e, w);
    } else {
      RejectionTraced(s, e, w);
    }
  }

  lemma QuietLog(e: System, e': System, w: Pid)
    requires e.IsWorker(w) && DbStep(e, e', w) && e'.db == e.db
    ensures e'.log == e.log
  {
  }

  /** An overwritten approval stays overwritten. */
  lemma OverwrittenStays(e: System, e': System, w: Pid)
    requires Logged(e) && e.IsWorker(w) && DbStep(e, e', w) && !AllStand(e)
    ensures !AllStand(e')
  {
    var r: Id :| r in e.log && !IsApproved(e.db, r);
    assert r in e'.log;
  }

  lemma FailKeepsDone(e: System, w: Pid)
    requires e.IsWorker(w)
    ensures forall ps: seq<Pid> :: AllDone(e, ps) ==> AllDone(Do(e, Fail(w)), ps)
    ensures var e' := Do(e, Fail(w));
      |e'.workers| == |e.workers| && forall v: Pid :: e.IsWorker(v) ==>
        e'.workers[v].request == e.workers[v].request && e'.workers[v].Approver? == e.workers[v].Approver?
  {
  }

  lemma FailTraced(s: System, e: System, w: Pid)
    requires AllOwned(s) && Sound(e) && Traced(s, e) && e.IsWorker(w)
    ensures Traced(s, Do(e, Fail(w)))
  {
    hide Recorded, After, Contested;
    FailSound(e, w);
    FailRecords(s.db, e, w);
    FailKeepsDone(e, w);
    hide Sound, Do;
    var e' := Do(e, Fail(w));
    if AllStand(e) {
      var ps: seq<Pid> :| Chosen(s, ps) && AllDone(e, ps) && After(s, ps) == e.db;
      assert AllDone(e', ps);
      forall r: Id | r in e'.log
        ensures Earned(s, e', r)
      {
        var a: Pid, qs: seq<Pid> :| PassesAfter(s, a, qs) && s.workers[a].request == r && AllDone(e, qs);
      }
    }
  }

  lemma {:induction false} InterleaveTraced(s: System, choices: seq<Choice>)
    requires Starting(s) && Consistent(s.db) && NobodyCompetes(s) && AllOwned(s)
    ensures Traced(s, Interleave(s, choices))
  {
    if |choices| == 0 {
      InterleaveRecords(s, choices);
      assert Calls(s, []) == [] && Chosen(s, []) && After(s, []) == s.db;
    } else {
      hide Next, Traced, Sound;
      var e, last := Interleave(s, choices[..|choices| - 1]), choices[|choices| - 1];
      InterleaveTraced(s, choices[..|choices| - 1]);
      InterleaveUnraced(s, choices[..|choices| - 1]);
      if e.IsWorker(last.w) {
        if last.Fail? {
          FailTraced(s, e, last.w);
        } else if Next(e, last.w).Some? {
          StepTraced(s, e, last.w);
        }
      }
    }
  }

  // ----- no serial run replaces a booking by a request it does not leave approved

  predicate AllDecisions(ops: seq<Op>) {
    forall k :: 0 <= k < |ops| ==> ops[k].ApproveReschedule? || ops[k].RejectReschedule?
  }

  /** What a serial run of decisions has done since it began. */
  ghost predicate Decided(before: Store, s: Store) {
    && Proposed(before) && Proposed(s)
    && |s.requests| == |before.requests| && |s.bookings| >= |before.bookings|
    && (forall r: Id :: s.IsRequest(r) ==> s.requests[r].booking == before.requests[r].booking)
    && (forall r: Id :: IsPending(s, r) ==> IsPending(before, r))
    && (forall r: Id :: IsPending(before, r) && s.bookings[before.requests[r].booking].status == Rescheduled
          ==> IsApproved(s, r))
  }

  lemma DecisionKeepsDecided(before: Store, s: Store, op: Op)
    requires Decided(before, s) && (op.ApproveReschedule? || op.RejectReschedule?)
    ensures Decided(before, Apply(s, op))
  {
    ProposedKept(s, op);
  }

  lemma {:induction false} SerialRunDecides(before: Store, ops: seq<Op>)
    requires Proposed(before) && AllDecisions(ops)
    ensures Decided(before, Run(before, ops))
  {
    if |ops| > 0 {
      SerialRunDecides(before, ops[..|ops| - 1]);
      DecisionKeepsDecided(before, Run(before, ops[..|ops| - 1]), ops[|ops| - 1]);
    }
  }

  lemma CallsDecide(s: System, ps: seq<Pid>)
    requires AllOwned(s) && Chosen(s, ps)
    ensures AllDecisions(Calls(s, ps))
  {
  }

  lemma SerialMeansStanding(s: System, choices: seq<Choice>)
    requires Starting(s) && Consistent(s.db) && AllOwned(s) && Serializable(s, Interleave(s, choices))
    ensures AllStand(Interleave(s, choices))
  {
    hide Interleave, Chosen, AllDone, Counted, Run;
    var e := Interleave(s, choices);
    OneSuccessorPerRequest(s, choices);
    var ps: seq<Pid> :| Chosen(s, ps) && AllDone(e, ps) && After(s, ps) == e.db;
    CallsDecide(s, ps);
    SerialRunDecides(s.db, Calls(s, ps));
    forall r: Id | r in e.log
      ensures IsApproved(e.db, r)
    {
      var k :| 0 <= k < |e.log| && e.log[k] == r;
      assert Replaces(e.db, |s.db.bookings| + k, e.db.requests[r].booking);
    }
  }

  /** Approvals that do not compete, interleaved with rejections and failures, leave what some serial order of calls
      of theirs leaves exactly when no committed approval was overwritten. */
  lemma SerializableExactly(s: System, choices: seq<Choice>)
    requires Starting(s) && Consistent(s.db) && NobodyCompetes(s) && AllOwned(s)
    ensures var e := Interleave(s, choices);
      Serializable(s, e) <==> forall r: Id :: r in e.log ==> IsApproved(e.db, r)
  {
    hide Serializable;
    InterleaveTraced(s, choices);
    if Serializable(s, Interleave(s, choices)) {
      SerialMeansStanding(s, choices);
    }
  }
}
