/** Interleaved approvals: every reachable store is safe from them exactly when their new windows share no instant. */
module Overbooking {
  import opened Sums
  import opened Tables
  import opened Occupancy
  import opened Lifecycle
  import opened CapacityLimits
  import opened Examples
  import opened Chains
  import opened Interleaving
  import opened RowLocks
  import opened RaceFree

  /** A rescheduling order: the new window and the quantity of the booking to move. */
  datatype Move = Move(window: ProperWindow, quantity: nat)

  predicate AllPositive(moves: seq<Move>) { forall k :: 0 <= k < |moves| ==> moves[k].quantity >= 1 }

  function Larger(a: nat, b: nat): nat { if a > b then a else b }

  function Later(a: int, b: int): int { if a > b then a else b }

  function Largest(moves: seq<Move>): (q: nat)
    ensures forall k :: 0 <= k < |moves| ==> moves[k].quantity <= q
  {
    if |moves| == 0 then 0 else Larger(Largest(moves[..|moves| - 1]), moves[|moves| - 1].quantity)
  }

  /** Past all the new windows. */
  function Beyond(moves: seq<Move>): (t: int)
    ensures forall k :: 0 <= k < |moves| ==> moves[k].window.end <= t
  {
    if |moves| == 0 then 0 else Later(Beyond(moves[..|moves| - 1]), moves[|moves| - 1].window.end)
  }

  // ----- a run that leaves the bookings confirmed beyond the windows, and the customers asking to move them

  function OldWindow(moves: seq<Move>, k: nat): Window { Window(Beyond(moves) + k, Beyond(moves) + k + 1) }

  function Row(moves: seq<Move>, k: nat, asked: nat): Booking
    requires k < |moves|
  {
    ConfirmedRow(k, OldWindow(moves, k), moves[k].quantity, 0).(attempts := if k < asked then 1 else 0)
  }

  function Asked(moves: seq<Move>, k: nat): RescheduleRequest
    requires k < |moves|
  {
    RescheduleRequest(k, 0, moves[k].window, RequestPending)
  }

  /** After so many bookings and so many requests. */
  function Stage(moves: seq<Move>, booked: nat, asked: nat): Store
    requires booked <= |moves| && asked <= |moves|
  {
    Store(map[0 := MultiRow(2 * Largest(moves))], map[0 := 0],
          seq(booked, k requires 0 <= k < booked => Row(moves, k, asked)), seq(booked, k => None),
          seq(asked, k requires 0 <= k < asked => Asked(moves, k)), 0)
  }

  lemma NothingHeld(moves: seq<Move>, booked: nat, asked: nat, query: Window)
    requires booked <= |moves| && asked <= |moves|
    requires query.end <= Beyond(moves) || query.start >= Beyond(moves) + booked
    ensures Held(Stage(moves, booked, asked), 0, query) == 0
    ensures forall id: Id :: HeldByOthers(Stage(moves, booked, asked), 0, query, id) == 0
    ensures forall t: int :: query.Covers(t) ==> Load(Stage(moves, booked, asked), 0, t) == 0
  {
    var s := Stage(moves, booked, asked);
    SumZero(s.bookings, BookingIn(0, query));
    SumZero(s.locks, LockIn(0, query, 0));
    forall id: Id { SumZero(s.bookings, BookingInExcept(0, query, id)); }
    forall t: int | query.Covers(t)
      ensures Load(s, 0, t) == 0
    {
      LoadWithinHeld(s, 0, query, t);
    }
  }

  lemma BookStep(moves: seq<Move>, k: nat)
    requires k < |moves|
    ensures var s := Stage(moves, k, 0);
      |s.bookings| == k && s.now == 0 && IsShop(s) && s.Capacity(0) == 2 * Largest(moves)
      && Placed(s, ConfirmedRow(k, OldWindow(moves, k), moves[k].quantity, 0)) == Stage(moves, k + 1, 0)
  {
    var s, s' := Stage(moves, k, 0), Stage(moves, k + 1, 0);
    assert s.bookings + [Row(moves, k, 0)] == s'.bookings;
    assert s.locks + [None] == s'.locks;
  }

  lemma {:induction false} AllBooked(moves: seq<Move>, booked: nat)
    requires booked <= |moves| && AllPositive(moves)
    ensures Reachable(Stage(moves, booked, 0))
  {
    if booked == 0 {
      ShopIsReachable(MultiRow(2 * Largest(moves)));
      assert Stage(moves, 0, 0) == Shop(MultiRow(2 * Largest(moves)));
    } else {
      hide Reachable;
      var s, k := Stage(moves, booked - 1, 0), booked - 1;
      AllBooked(moves, k);
      NothingHeld(moves, k, 0, OldWindow(moves, k));
      BookStep(moves, k);
      hide Placed, Stage;
      BookConfirmed(s, OldWindow(moves, k), moves[k].quantity);
    }
  }

  lemma AskStep(moves: seq<Move>, k: nat)
    requires k < |moves|
    ensures Apply(Stage(moves, |moves|, k), RequestReschedule(k, 0, moves[k].window)) == Stage(moves, |moves|, k + 1)
  {
    var s, s' := Stage(moves, |moves|, k), Stage(moves, |moves|, k + 1);
    assert !HasPendingRequest(s, k);
    assert s.bookings[k := s.bookings[k].(attempts := 1)] == s'.bookings;
    assert s.requests + [Asked(moves, k)] == s'.requests;
  }

  lemma {:induction false} AllAsked(moves: seq<Move>, asked: nat)
    requires asked <= |moves| && AllPositive(moves)
    ensures Reachable(Stage(moves, |moves|, asked))
  {
    hide Reachable;
    if asked == 0 {
      AllBooked(moves, |moves|);
    } else {
      AllAsked(moves, asked - 1);
      AskStep(moves, asked - 1);
      hide Apply, Stage;
      ExtendReachable(Stage(moves, |moves|, asked - 1), RequestReschedule(asked - 1, 0, moves[asked - 1].window));
    }
  }

  /** An instant both windows cover, if any. */
  function Meeting(a: Window, b: Window): int { Later(a.start, b.start) }

  /** Where two new windows meet, a lock then leaves room for one of the two bookings. */
  function Crowded(moves: seq<Move>, i: nat, j: nat): Store
    requires i < |moves| && j < |moves|
  {
    var meeting := Meeting(moves[i].window, moves[j].window);
    Locked(Stage(moves, |moves|, |moves|), Window(meeting, meeting + 1),
           2 * Largest(moves) - Larger(moves[i].quantity, moves[j].quantity))
  }

  lemma {:induction false} CrowdedIsReachable(moves: seq<Move>, i: nat, j: nat)
    requires i < |moves| && j < |moves| && AllPositive(moves) && moves[i].window.Overlaps(moves[j].window)
    ensures Reachable(Crowded(moves, i, j))
    ensures Load(Crowded(moves, i, j), 0, Meeting(moves[i].window, moves[j].window))
         == 2 * Largest(moves) - Larger(moves[i].quantity, moves[j].quantity)
  {
    hide Reachable;
    var meeting := Meeting(moves[i].window, moves[j].window);
    var s, instant := Stage(moves, |moves|, |moves|), Window(meeting, meeting + 1);
    AllAsked(moves, |moves|);
    NothingHeld(moves, |moves|, |moves|, instant);
    GrantLock(s, instant, 2 * Largest(moves) - Larger(moves[i].quantity, moves[j].quantity));
    SumAppend(s.locks, Crowded(moves, i, j).locks[|moves|], LockAt(0, meeting, 0));
  }

  lemma EachFitsAlone(moves: seq<Move>, i: nat, j: nat, k: nat)
    requires i < |moves| && j < |moves| && (k == i || k == j)
    ensures RescheduleTxGuard(Crowded(moves, i, j), k) == Ok
  {
    var s, db := Stage(moves, |moves|, |moves|), Crowded(moves, i, j);
    NothingHeld(moves, |moves|, |moves|, moves[k].window);
    SumAppend(s.locks, db.locks[|moves|], LockIn(0, moves[k].window, 0));
    assert HeldByOthers(s, 0, moves[k].window, k) == 0;
    assert db.requests[k] == Asked(moves, k) && db.bookings[k] == Row(moves, k, |moves|);
  }

  // ----- the race

  function Fresh(request: Id): Worker { Approver(request, AtRequest, None, None) }

  predicate Orders(db: Store, r: Id, m: Move) {
    && db.IsRequest(r) && db.requests[r].window == m.window
    && db.IsBooking(db.requests[r].booking) && db.bookings[db.requests[r].booking].quantity == m.quantity
  }

  /** Approvals about to start that move different bookings of one service as ordered. */
  ghost predicate Moving(s: System, moves: seq<Move>) {
    && Starting(s) && |s.workers| == |moves|
    && (forall k :: 0 <= k < |moves| ==> s.workers[k].Approver? && Orders(s.db, s.workers[k].request, moves[k]))
    && (forall j, k :: 0 <= j < k < |moves| ==>
          var p, q := s.db.requests[s.workers[j].request].booking, s.db.requests[s.workers[k].request].booking;
          p != q && s.db.bookings[p].service == s.db.bookings[q].service)
  }

  /** Whatever store of a serial run they meet, no interleaving of the moves overbooks it. */
  ghost predicate SafeTogether(moves: seq<Move>) {
    forall s: System, choices: seq<Choice> :: Moving(s, moves) && Reachable(s.db) ==> Safe(Interleave(s, choices).db)
  }

  lemma MovingStarts(s: System, moves: seq<Move>)
    requires Moving(s, moves)
    ensures Starting(s)
  {
  }

  /** All of the moves about to start on the crowded store. */
  function Racing(moves: seq<Move>, i: nat, j: nat): System
    requires i < |moves| && j < |moves|
  {
    System.System(Crowded(moves, i, j), seq(|moves|, k requires 0 <= k < |moves| => Fresh(k)), map[], map[], [])
  }

  lemma CrowdedRow(moves: seq<Move>, i: nat, j: nat, k: nat)
    requires i < |moves| && j < |moves| && k < |moves|
    ensures var db := Crowded(moves, i, j);
      db.IsRequest(k) && db.requests[k] == Asked(moves, k) && db.IsBooking(k) && db.bookings[k] == Row(moves, k, |moves|)
  {
  }

  lemma RacingMoves(moves: seq<Move>, i: nat, j: nat)
    requires i < |moves| && j < |moves|
    ensures Moving(Racing(moves, i, j), moves)
  {
    hide Crowded;
    forall k | 0 <= k < |moves| { CrowdedRow(moves, i, j, k); }
  }

  /** Among moves of which two meet: some serial run leaves a store on which some interleaving of those two approvals
      puts an instant past capacity. */
  lemma RaceOverbooks(moves: seq<Move>, i: nat, j: nat) returns (s: System, choices: seq<Choice>)
    requires i < j < |moves| && AllPositive(moves) && moves[i].window.Overlaps(moves[j].window)
    ensures Moving(s, moves) && Reachable(s.db) && !Safe(Interleave(s, choices).db)
  {
    var db, t := Crowded(moves, i, j), Meeting(moves[i].window, moves[j].window);
    assert db.Capacity(0) == 2 * Largest(moves);
    hide Reachable, Consistent, RescheduleTxGuard, Load, Crowded, Moving, Interleave;
    s := Racing(moves, i, j);
    choices := SixMoves(i) + SixMoves(j) + [Go(i)] + [Go(j)];
    CrowdedIsReachable(moves, i, j);
    ReachableIsSound(db);
    CrowdedRow(moves, i, j, i);
    CrowdedRow(moves, i, j, j);
    EachFitsAlone(moves, i, j, i);
    EachFitsAlone(moves, i, j, j);
    RacingMoves(moves, i, j);
    MovingStarts(s, moves);
    BothChecksPassBothCommit(s, i, j);
    BothQuantitiesLand(db, i, j, t);
    assert Load(Interleave(s, choices).db, 0, t) > db.Capacity(0);
  }

  predicate Apart(moves: seq<Move>) {
    forall j, k :: 0 <= j < k < |moves| ==> !moves[j].window.Overlaps(moves[k].window)
  }

  lemma ApartDoNotCompete(s: System, moves: seq<Move>)
    requires Moving(s, moves) && Apart(moves)
    ensures NobodyCompetes(s)
  {
    forall v: Pid, w: Pid | s.IsWorker(v) && s.IsWorker(w)
      ensures !Compete(s.db, s.workers[v].request, s.workers[w].request)
    {
      assert Orders(s.db, s.workers[v].request, moves[v]) && Orders(s.db, s.workers[w].request, moves[w]);
      assert v < w ==> !moves[v].window.Overlaps(moves[w].window);
      assert w < v ==> !moves[w].window.Overlaps(moves[v].window);
    }
  }

  /** The row locks do not cover the capacity check, so this is exactly when any number of approvals are safe together:
      no instant lies in two of the new windows. */
  lemma SafeTogetherExactly(moves: seq<Move>)
    requires AllPositive(moves)
    ensures SafeTogether(moves)
       <==> forall j, k, t: int :: 0 <= j < k < |moves| ==> !(moves[j].window.Covers(t) && moves[k].window.Covers(t))
  {
    hide Interleave, Safe, Consistent, NobodyCompetes, Reachable, Moving;
    if Apart(moves) {
      forall s: System, choices: seq<Choice> | Moving(s, moves) && Reachable(s.db)
        ensures Safe(Interleave(s, choices).db)
      {
        ReachableIsSound(s.db);
        ApartDoNotCompete(s, moves);
        assert Starting(s) by { MovingStarts(s, moves); }
        NonCompetingApprovalsKeepCapacity(s, choices);
      }
    } else {
      var j, k :| 0 <= j < k < |moves| && moves[j].window.Overlaps(moves[k].window);
      var t := Meeting(moves[j].window, moves[k].window);
      assert moves[j].window.Covers(t) && moves[k].window.Covers(t);
      var s, choices := RaceOverbooks(moves, j, k);
    }
  }
}
