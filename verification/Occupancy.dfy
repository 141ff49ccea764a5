/** What a window and an instant of a service already hold, and how the two measures relate. */
module Occupancy {
  import opened Sums
  import opened Tables

  function BookingIn(service: Id, query: Window): Booking -> nat {
    (b: Booking) => if b.service == service && IsActive(b.status) && b.window.Overlaps(query) then b.quantity else 0
  }

  /** The same filter with AND id != $4. */
  function BookingInExcept(service: Id, query: Window, excluded: Id): Booking -> nat {
    (b: Booking) =>
      if b.service == service && b.id != excluded && IsActive(b.status) && b.window.Overlaps(query)
      then b.quantity else 0
  }

  function LockIn(service: Id, query: Window, now: int): Option<BookingLock> -> nat {
    (l: Option<BookingLock>) =>
      if l.Some? && l.value.service == service && l.value.window.Overlaps(query) && l.value.expiresAt > now
      then l.value.quantity else 0
  }

  function BookingAt(service: Id, t: int): Booking -> nat {
    (b: Booking) => if b.service == service && IsActive(b.status) && b.window.Covers(t) then b.quantity else 0
  }

  function LockAt(service: Id, t: int, now: int): Option<BookingLock> -> nat {
    (l: Option<BookingLock>) =>
      if l.Some? && l.value.service == service && l.value.window.Covers(t) && l.value.expiresAt > now
      then l.value.quantity else 0
  }

  function BookingQuantity(s: Store, service: Id, query: Window): nat { Sum(s.bookings, BookingIn(service, query)) }

  function LockQuantity(s: Store, service: Id, query: Window): nat { Sum(s.locks, LockIn(service, query, s.now)) }

  /** Everything held in a window, as CheckSlotConflict adds it up. */
  function Held(s: Store, service: Id, query: Window): nat {
    BookingQuantity(s, service, query) + LockQuantity(s, service, query)
  }

  /** Everything held in a window but by one booking, as checkSlotAvailabilityTx adds it up. */
  function HeldByOthers(s: Store, service: Id, query: Window, excluded: Id): nat {
    Sum(s.bookings, BookingInExcept(service, query, excluded)) + LockQuantity(s, service, query)
  }

  /** The quantity of active bookings and live locks that cover one instant. */
  function Load(s: Store, service: Id, t: int): nat {
    Sum(s.bookings, BookingAt(service, t)) + Sum(s.locks, LockAt(service, t, s.now))
  }

  predicate Conflict(s: Store, service: Id, query: Window, quantity: nat) {
    Held(s, service, query) + quantity > s.Capacity(service)
  }

  /** At every instant a service that holds anything stays within its capacity. */
  ghost predicate Safe(s: Store) {
    forall service: Id, t: int :: Load(s, service, t) == 0 || Load(s, service, t) <= s.Capacity(service)
  }

  ghost predicate Numbered(s: Store) {
    forall i :: 0 <= i < |s.bookings| ==> s.bookings[i].id == i
  }

  /** Every instant of a window carries at most what the window's overlap sum says. */
  lemma LoadWithinHeld(s: Store, service: Id, query: Window, t: int)
    requires query.Covers(t)
    ensures Load(s, service, t) <= Held(s, service, query)
  {
    SumLe(s.bookings, BookingAt(service, t), BookingIn(service, query));
    SumLe(s.locks, LockAt(service, t, s.now), LockIn(service, query, s.now));
  }

  /** Excluding booking i takes away its own contribution and nothing else. */
  lemma HeldSplits(s: Store, service: Id, query: Window, i: Id)
    requires Numbered(s) && s.IsBooking(i)
    ensures Held(s, service, query) == HeldByOthers(s, service, query, i) + BookingIn(service, query)(s.bookings[i])
  {
    SumExcept(s.bookings, i, BookingIn(service, query), BookingInExcept(service, query, i));
  }

  lemma OthersWithinLoad(s: Store, service: Id, query: Window, t: int, i: Id)
    requires Numbered(s) && s.IsBooking(i) && query.Covers(t)
    ensures Load(s, service, t) <= HeldByOthers(s, service, query, i) + BookingAt(service, t)(s.bookings[i])
  {
    var all := BookingAt(service, t);
    var rest := (b: Booking) => if b.id == i then 0 else BookingAt(service, t)(b);
    SumExcept(s.bookings, i, all, rest);
    SumLe(s.bookings, rest, BookingInExcept(service, query, i));
    SumLe(s.locks, LockAt(service, t, s.now), LockIn(service, query, s.now));
  }

  /** The windows that active bookings and live locks of a service hold. */
  function WindowsOf(s: Store, service: Id): set<Window> {
    (set b | b in s.bookings && b.service == service && IsActive(b.status) :: b.window)
    + (set l | l in s.locks && l.Some? && l.value.service == service && l.value.expiresAt > s.now :: l.value.window)
  }

  predicate Meets(windows: iset<Window>, query: Window, w: Window) { w in windows && w.Ordered() && w.Overlaps(query) }

  /** No two windows of the collection that overlap the query keep apart from each other. A window without instants
      keeps apart from itself. */
  ghost predicate PairwiseMeet(windows: iset<Window>, query: Window) {
    forall u: Window, v: Window :: Meets(windows, query, u) && Meets(windows, query, v) ==> u.Overlaps(v)
  }

  ghost predicate UsesOnly(s: Store, service: Id, windows: iset<Window>) {
    forall w: Window :: w in WindowsOf(s, service) ==> w in windows
  }

  /** No row ends before it starts. */
  ghost predicate RowsOrdered(s: Store) {
    && (forall i: Id :: s.IsBooking(i) ==> s.bookings[i].window.Ordered())
    && (forall i: Id :: i < |s.locks| && s.locks[i].Some? ==> s.locks[i].value.window.Ordered())
  }

  /** Windows that overlap a query and each other have an instant of the query in common. */
  lemma {:induction false} CommonInstant(some: set<Window>, windows: iset<Window>, query: Window) returns (t: int)
    requires query.Nonempty() && PairwiseMeet(windows, query) && forall w :: w in some ==> w in windows && w.Ordered()
    ensures query.Covers(t) && forall w :: w in some && w.Overlaps(query) ==> w.Covers(t)
    ensures t == query.start || exists w :: w in some && w.Overlaps(query) && t == w.start
    decreases some
  {
    t := query.start;
    if w :| w in some {
      t := CommonInstant(some - {w}, windows, query);
      if w.Overlaps(query) {
        assert forall x :: x in some && x.Overlaps(query) ==> Meets(windows, query, x);
        t := if w.start > t then w.start else t;
      }
    }
  }

  /** Then the overlap sum is the load of one instant. */
  lemma HeldIsLoadSomewhere(s: Store, service: Id, windows: iset<Window>, query: Window) returns (t: int)
    requires query.Nonempty() && PairwiseMeet(windows, query) && UsesOnly(s, service, windows) && RowsOrdered(s)
    ensures query.Covers(t) && Held(s, service, query) == Load(s, service, t)
  {
    t := CommonInstant(WindowsOf(s, service), windows, query);
    SumEq(s.bookings, BookingAt(service, t), BookingIn(service, query));
    SumEq(s.locks, LockAt(service, t, s.now), LockIn(service, query, s.now));
  }
}
