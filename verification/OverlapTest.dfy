/** Where the overlap sum is the true measure of a window: exactly where the held windows meet pairwise. */
module OverlapTest {
  import opened Sums
  import opened Tables
  import opened Occupancy
  import opened Lifecycle
  import opened Chains
  import opened CapacityLimits
  import opened Examples
  import opened SelfCount

  ghost predicate RoomThroughout(s: Store, service: Id, query: Window, quantity: nat) {
    forall t: int :: query.Covers(t) ==> Load(s, service, t) + quantity <= s.Capacity(service)
  }

  /** In every reachable store whose service holds such windows only, the test accepts what fits at every instant. */
  ghost predicate TestIsExact(query: Window, windows: iset<Window>) {
    forall s: Store, service: Id, quantity: nat :: Reachable(s) && UsesOnly(s, service, windows) ==>
      (!Conflict(s, service, query, quantity) <==> RoomThroughout(s, service, query, quantity))
  }

  lemma AcceptedExactlyWithRoom(s: Store, service: Id, windows: iset<Window>, query: Window, quantity: nat)
    requires query.Nonempty() && PairwiseMeet(windows, query) && UsesOnly(s, service, windows) && RowsOrdered(s)
    ensures !Conflict(s, service, query, quantity) <==> RoomThroughout(s, service, query, quantity)
  {
    var t := HeldIsLoadSomewhere(s, service, windows, query);
    if !Conflict(s, service, query, quantity) {
      AcceptedMeansRoomEverywhere(s, service, query, quantity);
    }
  }

  lemma LockedLoad(s: Store, window: Window, quantity: nat, t: int)
    ensures Load(Locked(s, window, quantity), 0, t) == Load(s, 0, t) + if window.Covers(t) then quantity else 0
  {
    SumAppend(s.locks, Some(NewLock(s, 0, 0, window, quantity)), LockAt(0, t, s.now));
  }

  lemma PlacedLoad(s: Store, b: Booking, t: int)
    ensures Load(Placed(s, b), 0, t) == Load(s, 0, t) + BookingAt(0, t)(b)
  {
    SumAppend(s.bookings, b, BookingAt(0, t));
    SumAppend(s.locks, None, LockAt(0, t, s.now));
  }

  /** s' weighs two more on the query than s, but at most one more on any instant, by windows u and v. */
  ghost predicate WeighsTwice(s: Store, s': Store, query: Window, u: Window, v: Window) {
    && Reachable(s') && s'.services == s.services && s.bookings <= s'.bookings
    && Held(s', 0, query) == Held(s, 0, query) + 2
    && (forall t: int :: Load(s', 0, t) <= Load(s, 0, t) + 1)
    && (forall w: Window :: w in WindowsOf(s', 0) ==> w in WindowsOf(s, 0) || w == u || w == v)
  }

  lemma TwoLocksWeighTwice(s: Store, query: Window, u: Window, v: Window) returns (s': Store)
    requires Reachable(s) && IsShop(s) && (forall w: Window :: !Conflict(s, 0, w, 1))
    requires u.Overlaps(query) && v.Overlaps(query) && !u.Overlaps(v) && u.Nonempty() && v.Nonempty()
    ensures WeighsTwice(s, s', query, u, v)
  {
    var s1 := Locked(s, u, 1);
    GrantLock(s, u, 1);
    LockedHolds(s, u, 1, v);
    assert !Conflict(s, 0, v, 1);
    GrantLock(s1, v, 1);
    s' := Locked(s1, v, 1);
    LockedHolds(s, u, 1, query);
    LockedHolds(s1, v, 1, query);
    forall t: int
      ensures Load(s', 0, t) <= Load(s, 0, t) + 1
    {
      LockedLoad(s, u, 1, t);
      LockedLoad(s1, v, 1, t);
    }
  }

  /** CreateBooking lets a window that ends as it starts through, whatever the quantity. */
  lemma BookHollow(s: Store, window: Window, quantity: nat)
    requires Reachable(s) && IsShop(s) && window.Ordered() && !window.Nonempty() && quantity >= 1
    requires !Conflict(s, 0, Window(0, 1), 1)
    ensures Reachable(Placed(s, PendingRow(|s.bookings|, window, quantity)))
  {
    hide Reachable;
    BookPending(s, Window(0, 1), 1, window, quantity);
  }

  /** A booking of such a window weighs on the query all the same. */
  lemma HollowWeighsTwice(s: Store, query: Window, u: Window) returns (s': Store)
    requires Reachable(s) && IsShop(s) && (forall w: Window :: !Conflict(s, 0, w, 1))
    requires u.Overlaps(query) && u.Ordered() && !u.Nonempty()
    ensures WeighsTwice(s, s', query, u, u)
  {
    hide Reachable;
    var b := PendingRow(|s.bookings|, u, 2);
    BookHollow(s, u, 2);
    s' := Placed(s, b);
    PlacedHolds(s, b, query);
    forall t: int
      ensures Load(s', 0, t) <= Load(s, 0, t) + 1
    {
      PlacedLoad(s, b, t);
    }
  }

  lemma ApartWeighTwice(s: Store, query: Window, u: Window, v: Window) returns (s': Store)
    requires Reachable(s) && IsShop(s) && (forall w: Window :: !Conflict(s, 0, w, 1))
    requires u.Overlaps(query) && v.Overlaps(query) && !u.Overlaps(v) && u.Ordered() && v.Ordered()
    ensures WeighsTwice(s, s', query, u, v)
  {
    if !u.Nonempty() {
      s' := HollowWeighsTwice(s, query, u);
    } else if !v.Nonempty() {
      s' := HollowWeighsTwice(s, query, v);
    } else {
      s' := TwoLocksWeighTwice(s, query, u, v);
    }
  }

  /** The test is exact for a window exactly when the window is nonempty and no two held windows that overlap it
      keep apart. */
  lemma TestIsExactExactlyWhen(query: Window, windows: iset<Window>)
    ensures TestIsExact(query, windows) <==> query.Nonempty() && PairwiseMeet(windows, query)
  {
    if query.Nonempty() && PairwiseMeet(windows, query) {
      forall s: Store, service: Id, quantity: nat | Reachable(s) && UsesOnly(s, service, windows)
        ensures !Conflict(s, service, query, quantity) <==> RoomThroughout(s, service, query, quantity)
      {
        ReachableIsSound(s);
        AcceptedExactlyWithRoom(s, service, windows, query, quantity);
      }
    } else if query.Nonempty() {
      var u: Window, v: Window :| Meets(windows, query, u) && Meets(windows, query, v) && !u.Overlaps(v);
      ShopIsReachable(MultiRow(2));
      var s := ApartWeighTwice(Shop(MultiRow(2)), query, u, v);
      assert Conflict(s, 0, query, 1) && RoomThroughout(s, 0, query, 1);
    } else {
      ShopIsReachable(MultiRow(0));
      var s := Shop(MultiRow(0));
      assert Conflict(s, 0, query, 1) && RoomThroughout(s, 0, query, 1) && UsesOnly(s, 0, windows);
    }
  }

  // ----- the self-excluding re-check of a window already held

  predicate Holds(s: Store, i: Id, window: Window) {
    && s.IsBooking(i) && IsActive(s.bookings[i].status) && s.bookings[i].window == window
    && (s.bookings[i].quantity >= 1 || s.Capacity(s.bookings[i].service) >= 0)
  }

  /** In every reachable store whose service holds such windows only, a booking of the window still fits it. */
  ghost predicate KeepsRoom(window: Window, windows: iset<Window>) {
    forall s: Store, i: Id :: Reachable(s) && Holds(s, i, window) && UsesOnly(s, s.bookings[i].service, windows)
      ==> RoomBesideOthers(s, i)
  }

  lemma HeldWindowKeepsItsRoom(s: Store, i: Id, window: Window, windows: iset<Window>)
    requires Reachable(s) && Holds(s, i, window) && UsesOnly(s, s.bookings[i].service, windows)
    requires window.Nonempty() && PairwiseMeet(windows, window)
    ensures RoomBesideOthers(s, i)
  {
    var service := s.bookings[i].service;
    ReachableIsSound(s);
    var t := HeldIsLoadSomewhere(s, service, windows, window);
    SumMember(s.bookings, i, BookingAt(service, t));
    HeldSplits(s, service, window, i);
    assert Load(s, service, t) == 0 || Load(s, service, t) <= s.Capacity(service);
  }

  /** Two windows that overlap a held one but not each other can take its room, though no instant is over capacity. */
  lemma ApartTakeRoom(window: Window, quantity: nat, u: Window, v: Window) returns (s: Store)
    requires window.Nonempty() && quantity >= 1
    requires u.Overlaps(window) && v.Overlaps(window) && !u.Overlaps(v) && u.Ordered() && v.Ordered()
    ensures Reachable(s) && Holds(s, 0, window) && s.bookings[0].quantity == quantity && s.bookings[0].service == 0
    ensures s.Capacity(0) == quantity + 1 && !RoomBesideOthers(s, 0) && UsesOnly(s, 0, iset{window, u, v})
  {
    hide Reachable, Held, HeldByOthers, Consistent, Safe;
    var b := PendingRow(0, window, quantity);
    var lone := LoneStore(quantity + 1, b, []);
    LonePending(quantity + 1, window, quantity);
    forall w: Window
      ensures !Conflict(lone, 0, w, 1)
    {
      LoneHolds(quantity + 1, b, w);
    }
    s := ApartWeighTwice(lone, window, u, v);
    assert s.bookings[0] == lone.bookings[0] == b;
    NumberedHeldSplits(s, window);
    LoneHolds(quantity + 1, b, window);
  }

  lemma LoneHolds(capacity: int, b: Booking, query: Window)
    ensures Held(LoneStore(capacity, b, []), 0, query) == BookingIn(0, query)(b)
  {
    OneRow(b, BookingIn(0, query));
    OneRow<Option<BookingLock>>(None, LockIn(0, query, 0));
  }

  lemma NumberedHeldSplits(s: Store, query: Window)
    requires Reachable(s) && s.IsBooking(0)
    ensures Held(s, 0, query) == HeldByOthers(s, 0, query, 0) + BookingIn(0, query)(s.bookings[0])
  {
    ReachableIsSound(s);
    HeldSplits(s, 0, query, 0);
  }

  /** A booking of a window without instants need not fit even an empty service. */
  lemma HollowHasNoRoom(window: Window, windows: iset<Window>)
    requires window in windows && window.Ordered() && !window.Nonempty()
    ensures !KeepsRoom(window, windows)
  {
    hide Reachable;
    var shop, b := Shop(MultiRow(1)), PendingRow(0, window, 2);
    ShopIsReachable(MultiRow(1));
    BookHollow(shop, window, 2);
    var s := Placed(shop, b);
    assert s.bookings == [b];
    assert Holds(s, 0, window) && UsesOnly(s, 0, windows) && !RoomBesideOthers(s, 0);
  }

  lemma NobodyHoldsBackwards(window: Window, windows: iset<Window>)
    requires !window.Ordered()
    ensures KeepsRoom(window, windows)
  {
    forall s: Store, i: Id | Reachable(s)
      ensures !Holds(s, i, window)
    {
      ReachableIsSound(s);
    }
  }

  /** The re-check of a held window passes in every such store exactly when the window is nonempty and no two held
      windows that overlap it keep apart. (No booking holds a window that ends before it starts.) */
  lemma RoomKeptExactly(window: Window, windows: iset<Window>)
    requires window in windows
    ensures KeepsRoom(window, windows) <==> (window.Ordered() ==> window.Nonempty() && PairwiseMeet(windows, window))
  {
    hide Reachable, RoomBesideOthers;
    if window.Nonempty() && PairwiseMeet(windows, window) {
      forall s: Store, i: Id | Reachable(s) && Holds(s, i, window) && UsesOnly(s, s.bookings[i].service, windows)
        ensures RoomBesideOthers(s, i)
      {
        HeldWindowKeepsItsRoom(s, i, window, windows);
      }
    } else if window.Nonempty() {
      var u: Window, v: Window :| Meets(windows, window, u) && Meets(windows, window, v) && !u.Overlaps(v);
      var s := ApartTakeRoom(window, 1, u, v);
      assert UsesOnly(s, 0, windows);
    } else if window.Ordered() {
      HollowHasNoRoom(window, windows);
    } else {
      NobodyHoldsBackwards(window, windows);
    }
  }

  /** A fixed timetable: windows that are nonempty and pairwise equal or disjoint. */
  ghost predicate Timetable(windows: iset<Window>) {
    forall u: Window, v: Window :: u in windows && v in windows ==> u.Nonempty() && (u == v || !u.Overlaps(v))
  }

  /** On a timetable the test is exact and every held window keeps its room. */
  lemma TimetableIsExact(windows: iset<Window>, window: Window)
    requires Timetable(windows) && window in windows
    ensures TestIsExact(window, windows) && KeepsRoom(window, windows)
  {
    assert window.Overlaps(window);
    TestIsExactExactlyWhen(window, windows);
    RoomKeptExactly(window, windows);
  }
}
