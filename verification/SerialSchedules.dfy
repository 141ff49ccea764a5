/** Which starting systems are serial under every schedule, exactly: the schedules that are not are built here. */
module SerialSchedules {
  import opened Tables
  import opened Lifecycle
  import opened Chains
  import opened Interleaving
  import opened RowLocks
  import opened RaceFree
  import opened Serializability

  predicate Untouched(worker: Worker) {
    if worker.Approver? then worker.pc == AtRequest else !worker.checked && !worker.finished
  }

  /** No transaction is under way. */
  ghost predicate Idle(e: System) {
    forall w: Pid :: e.IsWorker(w) ==> !e.workers[w].HoldsRequest()
  }

  lemma IdleHoldsNothing(e: System)
    requires Guarded(e) && Idle(e)
    ensures e.requestLock == map[] && e.bookingLock == map[]
  {
    forall r: Id
      ensures r !in e.requestLock && r !in e.bookingLock
    {
    }
  }

  /** Enough moves for any one worker. */
  function SevenMoves(w: Pid): seq<Choice> { SixMoves(w) + [Go(w)] }

  lemma {:induction false} OthersRest(e: System, w: Pid, choices: seq<Choice>)
    requires forall k :: 0 <= k < |choices| ==> choices[k] == Go(w)
    ensures |Interleave(e, choices).workers| == |e.workers|
    ensures forall v: Pid :: e.IsWorker(v) && v != w ==> Interleave(e, choices).workers[v] == e.workers[v]
  {
    if |choices| > 0 {
      var before := Interleave(e, choices[..|choices| - 1]);
      OthersRest(e, w, choices[..|choices| - 1]);
      if Next(before, w).Some? {
        StepMovesOneWorker(before, w);
      }
    }
  }

  lemma RejecterAlone(e: System, w: Pid)
    requires e.IsWorker(w) && e.workers[w].Rejecter? && Untouched(e.workers[w])
    requires e.db.IsRequest(e.workers[w].request) && e.requestLock == map[]
    ensures var r := e.workers[w].request;
      var e3 := Interleave(e, [Go(w), Go(w), Go(w)]);
      && e3.IsWorker(w) && e3.workers[w].Done() && e3.log == e.log
      && e3.db == if IsPending(e.db, r) then WithRequestStatus(e.db, r, RequestRejected) else e.db
  {
    ThreeMoves(e, w);
  }

  lemma RefusalLeavesLog(e: System, w: Pid)
    requires e.IsWorker(w) && e.workers[w].Approver? && e.workers[w].pc == AtRequest
    requires RescheduleTxGuard(e.db, e.workers[w].request) != Ok && e.requestLock == map[] && e.bookingLock == map[]
    ensures Interleave(e, [Go(w), Go(w), Go(w)]).log == e.log
  {
    ThreeMoves(e, w);
    var e1 := Do(e, Go(w));
    var e2 := Do(e1, Go(w));
    assert e1.workers[w].Done() ==> e2 == e1;
    assert e2.workers[w].Done() ==> Do(e2, Go(w)) == e2;
  }

  /** What one worker's moves, undisturbed, make of the store and the log. */
  lemma AloneIsCall(e: System, w: Pid, owner: Id)
    requires e.IsWorker(w) && Untouched(e.workers[w]) && e.requestLock == map[] && e.bookingLock == map[]
    requires e.db.OwnsRescheduleBranch(e.workers[w].request, owner)
    ensures var r := e.workers[w].request;
      var e' := Interleave(e, SevenMoves(w));
      && e'.IsWorker(w) && e'.workers[w].Done()
      && e'.db == Apply(e.db, if e.workers[w].Approver? then ApproveReschedule(r, owner) else RejectReschedule(r, owner))
      && e'.log == if e.workers[w].Approver? && RescheduleTxGuard(e.db, r) == Ok then e.log + [r] else e.log
  {
    var r := e.workers[w].request;
    hide Interleave, RescheduleTxGuard;
    if e.workers[w].Rejecter? {
      RejecterAlone(e, w);
      ThreeAreEnough(e, w);
    } else if RescheduleTxGuard(e.db, r) == Ok {
      UndisturbedCommits(e, w);
      PassingCallReschedules(e.db, r, owner);
    } else {
      RefusedLeavesStore(e, w);
      RefusalLeavesLog(e, w);
      ThreeAreEnough(e, w);
    }
  }

  /** The chosen workers, one after the other. */
  function Schedule(ps: seq<Pid>): seq<Choice> {
    if |ps| == 0 then [] else Schedule(ps[..|ps| - 1]) + SevenMoves(ps[|ps| - 1])
  }

  lemma {:induction false} OwnersThroughRun(db: Store, ops: seq<Op>, r: Id, owner: Id)
    requires AllDecisions(ops) && db.OwnsRescheduleBranch(r, owner)
    ensures Run(db, ops).OwnsRescheduleBranch(r, owner)
  {
    if |ops| > 0 {
      OwnersThroughRun(db, ops[..|ops| - 1], r, owner);
    }
  }

  /** The system in which the chosen workers have had their turn: the rest is as it was. */
  ghost predicate Served(s: System, e0: System, e: System, ps: seq<Pid>)
    requires AllOwned(s) && Chosen(s, ps)
  {
    && Sound(e) && Idle(e) && e.db == After(s, ps) && |e.workers| == |e0.workers|
    && forall w: Pid :: e0.IsWorker(w) && w !in ps ==> e.workers[w] == e0.workers[w]
  }

  lemma ServeOne(s: System, e0: System, e: System, ps: seq<Pid>, p: Pid)
    requires AllOwned(s) && Chosen(s, ps) && s.IsWorker(p) && p !in ps && Served(s, e0, e, ps)
    requires e0.IsWorker(p) && e0.workers[p] == s.workers[p] && Untouched(s.workers[p])
    ensures Chosen(s, ps + [p]) && Served(s, e0, Interleave(e, SevenMoves(p)), ps + [p])
  {
    var r := s.workers[p].request;
    CallsDecide(s, ps);
    OwnersThroughRun(s.db, Calls(s, ps), r, OwnerOf(s.db, r));
    hide Interleave, Untouched, Run, Sound, Apply;
    SoundIsGuarded(e);
    IdleHoldsNothing(e);
    AloneIsCall(e, p, OwnerOf(s.db, r));
    AfterOneMore(s, ps, p);
    StaysSound(e, SevenMoves(p));
    OthersRest(e, p, SevenMoves(p));
  }

  lemma SoundIsGuarded(e: System)
    requires Sound(e)
    ensures Guarded(e)
  {
  }

  lemma {:induction false} ScheduleServes(s: System, e0: System, ps: seq<Pid>)
    requires AllOwned(s) && Chosen(s, ps) && Served(s, e0, e0, []) && |e0.workers| == |s.workers|
    requires forall k :: 0 <= k < |ps| ==> e0.workers[ps[k]] == s.workers[ps[k]] && Untouched(s.workers[ps[k]])
    ensures Served(s, e0, Interleave(e0, Schedule(ps)), ps)
  {
    if |ps| == 0 {
      assert ps == [];
    } else {
      hide Served, After, Untouched;
      var most, last := ps[..|ps| - 1], ps[|ps| - 1];
      ScheduleServes(s, e0, most);
      InterleaveJoin(e0, Schedule(most), SevenMoves(last));
      ServeOne(s, e0, Interleave(e0, Schedule(most)), most, last);
      assert most + [last] == ps;
    }
  }

  /** A rejection checks; the chosen others have their turn; the approval commits; the rejection writes. */
  function Overtaking(a: Pid, j: Pid, ps: seq<Pid>): seq<Choice> {
    [Go(j)] + Schedule(ps) + SevenMoves(a) + [Go(j)]
  }

  lemma LogStays(e: System, j: Pid)
    requires e.IsWorker(j) && e.workers[j].Rejecter?
    ensures Do(e, Go(j)).log == e.log
  {
  }

  lemma CommitThenOverwrite(e: System, a: Pid, j: Pid, owner: Id)
    requires Sound(e) && Idle(e) && e.IsWorker(a) && e.IsWorker(j) && e.workers[a].Approver? && Untouched(e.workers[a])
    requires AboutToReject(e.workers[j], e.workers[a].request)
    requires RescheduleTxGuard(e.db, e.workers[a].request) == Ok
    requires e.db.OwnsRescheduleBranch(e.workers[a].request, owner)
    ensures !AllStand(Do(Interleave(e, SevenMoves(a)), Go(j)))
  {
    hide Interleave, RescheduleTxGuard, Sound, Apply, Do, Reschedule;
    var r := e.workers[a].request;
    SoundIsGuarded(e);
    IdleHoldsNothing(e);
    AloneIsCall(e, a, owner);
    var e3 := Interleave(e, SevenMoves(a));
    OthersRest(e, a, SevenMoves(a));
    StaysSound(e, SevenMoves(a));
    SoundIsGuarded(e3);
    assert e3.workers[j] == e.workers[j];
    IdleHoldsNothing(e3);
    PassingCallReschedules(e.db, r, owner);
    RescheduleKeepsRequests(e.db, r);
    CheckedRejecterWrites(e3, j);
    LogStays(e3, j);
    assert r in Do(e3, Go(j)).log;
  }

  lemma RescheduleKeepsRequests(db: Store, r: Id)
    requires RescheduleTxGuard(db, r) == Ok
    ensures db.IsRequest(r) && db.IsBooking(db.requests[r].booking) && Reschedule(db, r).IsRequest(r)
  {
  }

  lemma RejectionChecks(s: System, j: Pid)
    requires Starting(s) && s.IsWorker(j) && s.workers[j].Rejecter? && IsPending(s.db, s.workers[j].request)
    ensures Interleave(s, [Go(j)]) == With(s, j, s.workers[j].(checked := true))
  {
    assert [] + [Go(j)] == [Go(j)];
    InterleaveAppend(s, [], Go(j));
  }

  /** The rejection has checked: this is a system in which nobody has had a turn. */
  lemma CheckedIsServed(s: System, j: Pid)
    requires Starting(s) && Consistent(s.db) && AllOwned(s) && s.IsWorker(j) && s.workers[j].Rejecter?
    requires IsPending(s.db, s.workers[j].request)
    ensures var e1 := Interleave(s, [Go(j)]);
      && e1 == With(s, j, s.workers[j].(checked := true))
      && Chosen(s, []) && Served(s, e1, e1, [])
  {
    RejectionChecks(s, j);
    InterleaveSound(s, [Go(j)]);
    hide Interleave, Sound, Consistent;
    assert Calls(s, []) == [];
  }

  lemma PassingWasPending(s: System, a: Pid, ps: seq<Pid>)
    requires Consistent(s.db) && AllOwned(s) && PassesAfter(s, a, ps)
    ensures IsPending(s.db, s.workers[a].request)
    ensures var r := s.workers[a].request; After(s, ps).OwnsRescheduleBranch(r, OwnerOf(s.db, r))
  {
    var r := s.workers[a].request;
    CallsDecide(s, ps);
    SerialRunDecides(s.db, Calls(s, ps));
    OwnersThroughRun(s.db, Calls(s, ps), r, OwnerOf(s.db, r));
    assert IsPending(After(s, ps), r);
  }

  lemma OvertakingOverwrites(s: System, a: Pid, j: Pid, ps: seq<Pid>)
    requires Starting(s) && Consistent(s.db) && AllOwned(s)
    requires PassesAfter(s, a, ps) && Rivals(s, a, j) && j !in ps
    ensures !AllStand(Interleave(s, Overtaking(a, j, ps)))
  {
    hide RescheduleTxGuard, Consistent, After, AllStand, Do;
    var r := s.workers[a].request;
    PassingWasPending(s, a, ps);
    CheckedIsServed(s, j);
    var e1 := Interleave(s, [Go(j)]);
    ScheduleServes(s, e1, ps);
    var e2 := Interleave(e1, Schedule(ps));
    hide Interleave;
    CommitThenOverwrite(e2, a, j, OwnerOf(s.db, r));
    hide Served, Starting;
    InterleaveJoin(s, [Go(j)], Schedule(ps));
    InterleaveJoin(s, [Go(j)] + Schedule(ps), SevenMoves(a));
    InterleaveAppend(s, [Go(j)] + Schedule(ps) + SevenMoves(a), Go(j));
  }

  /** Approvals that do not compete are serial under every schedule exactly when no approval can be overtaken: no
      request has both an approval and a rejection such that the approval passes after calls of some others. */
  lemma AlwaysSerialExactly(s: System)
    requires Starting(s) && Consistent(s.db) && NobodyCompetes(s) && AllOwned(s)
    ensures (forall choices: seq<Choice> :: Serializable(s, Interleave(s, choices))) <==> !Contested(s)
  {
    hide Serializable, Interleave, Consistent, NobodyCompetes;
    if Contested(s) {
      var a: Pid, j: Pid, ps: seq<Pid> :| PassesAfter(s, a, ps) && Rivals(s, a, j) && j !in ps;
      OvertakingOverwrites(s, a, j, ps);
      SerializableExactly(s, Overtaking(a, j, ps));
    } else {
      forall choices: seq<Choice>
        ensures Serializable(s, Interleave(s, choices))
      {
        InterleaveTraced(s, choices);
      }
    }
  }

  /** Where every approval that someone else would reject passes at the start, this is when no one would: no request
      has both an approval and a rejection. */
  lemma AlwaysSerialWithoutRivals(s: System)
    requires Starting(s) && Consistent(s.db) && NobodyCompetes(s) && AllOwned(s)
    requires forall a: Pid, j: Pid :: Rivals(s, a, j) ==> RescheduleTxGuard(s.db, s.workers[a].request) == Ok
    ensures (forall choices: seq<Choice> :: Serializable(s, Interleave(s, choices)))
       <==> !exists a: Pid, j: Pid :: Rivals(s, a, j)
  {
    hide Serializable, Interleave, Consistent, NobodyCompetes, RescheduleTxGuard;
    AlwaysSerialExactly(s);
    if a: Pid, j: Pid :| Rivals(s, a, j) {
      assert Calls(s, []) == [] && After(s, []) == s.db;
      assert PassesAfter(s, a, []);
    }
  }
}
