/** The availability engine: slot generation, occupancy, the day listing and the conflict check. */
module Availability {
  import opened Sums
  import opened Tables
  import opened Occupancy
  import opened Lifecycle
  import opened CapacityLimits
  import opened Examples
  import BookingService

  /** A booking or lock row as the range queries return it. */
  datatype HeldRow = HeldRow(window: Window, quantity: nat)

  datatype Slot = Slot(window: Window, remaining: int)

  datatype Listing = NotFound | Slots(slots: seq<Slot>)

  /** Times of day, in seconds; an override may lack hours. */
  datatype DateOverride = DateOverride(isClosed: bool, openTime: Option<int>, closeTime: Option<int>)

  datatype WeeklyRule = WeeklyRule(startTime: int, endTime: int, isActive: bool)

  datatype Hours = Hours(open: int, close: int)

  /** An override decides alone; the weekly rule counts only where there is none. */
  function ResolveHours(day: int, special: Option<DateOverride>, rule: Option<WeeklyRule>): Option<Hours> {
    match special
    case Some(o) =>
      if !o.isClosed && o.openTime.Some? && o.closeTime.Some?
      then Some(Hours(day + o.openTime.value, day + o.closeTime.value)) else None
    case None =>
      if rule.Some? && rule.value.isActive
      then Some(Hours(day + rule.value.startTime, day + rule.value.endTime)) else None
  }

  // ----- slot generation

  /** The loop's exit test fails for the slot of index k. */
  predicate SlotFits(hours: Hours, step: int, duration: int, k: nat) {
    hours.open < hours.close && hours.open + k * step + duration <= hours.close
  }

  function SlotWindow(hours: Hours, step: int, duration: int, k: nat): Window {
    Window(hours.open + k * step, hours.open + k * step + duration)
  }

  /** When generation ends: at once, or because a positive step reaches closing time. */
  predicate GenerationEnds(hours: Hours, step: int, duration: int) {
    step > 0 || !SlotFits(hours, step, duration, 0)
  }

  /** Generation ends exactly when some slot does not fit. */
  lemma GenerationEndsExactly(hours: Hours, step: int, duration: int)
    ensures GenerationEnds(hours, step, duration) <==> exists k: nat :: !SlotFits(hours, step, duration, k)
  {
    if step > 0 && hours.open < hours.close {
      var room := hours.close - hours.open - duration;
      var k: nat := if room < 0 then 0 else room + 1;
      assert k * step >= k by { ProductAtLeast(k, step); }
      assert !SlotFits(hours, step, duration, k);
    } else if GenerationEnds(hours, step, duration) {
      assert !SlotFits(hours, step, duration, 0);
    } else {
      forall k: nat
        ensures SlotFits(hours, step, duration, k)
      {
        assert k * -step >= 0;
      }
    }
  }

  lemma ProductAtLeast(k: nat, step: int)
    requires step > 0
    ensures k * step >= k
  {
  }

  lemma ProductMonotone(j: int, k: int, step: int)
    requires j <= k && step >= 0
    ensures j * step <= k * step
  {
    assert (k - j) * step >= 0;
  }

  /** How many slots a day yields. */
  function SlotCount(hours: Hours, step: int, duration: int): nat
    requires GenerationEnds(hours, step, duration)
  {
    if SlotFits(hours, step, duration, 0) then (hours.close - hours.open - duration) / step + 1 else 0
  }

  lemma FitsExactlyBelowCount(hours: Hours, step: int, duration: int, k: nat)
    requires GenerationEnds(hours, step, duration) && step > 0
    ensures SlotFits(hours, step, duration, k) <==> k < SlotCount(hours, step, duration)
  {
    var room := hours.close - hours.open - duration;
    if SlotFits(hours, step, duration, 0) {
      var q := room / step;
      assert room == q * step + room % step;
      if k <= q {
        ProductMonotone(k, q, step);
      } else {
        ProductMonotone(q + 1, k, step);
        assert (q + 1) * step == q * step + step;
      }
    } else if hours.open < hours.close {
      ProductMonotone(0, k, step);
    }
  }

  ghost predicate GeneratedBy(slots: seq<Window>, hours: Hours, step: int, duration: int) {
    && (forall k: nat :: k < |slots| ==> slots[k] == SlotWindow(hours, step, duration, k))
    && (forall k: nat :: k < |slots| ==> SlotFits(hours, step, duration, k))
    && !SlotFits(hours, step, duration, |slots|)
  }

  method GenerateSlots(hours: Hours, step: int, duration: int) returns (slots: seq<Window>)
    requires GenerationEnds(hours, step, duration)
    ensures GeneratedBy(slots, hours, step, duration)
  {
    slots := [];
    if !(hours.close > hours.open) {
      return;
    }
    var slotStart := hours.open;
    while true
      invariant slotStart == hours.open + |slots| * step
      invariant forall k: nat :: k < |slots| ==> slots[k] == SlotWindow(hours, step, duration, k)
      invariant forall k: nat :: k < |slots| ==> SlotFits(hours, step, duration, k)
      invariant step > 0 || |slots| == 0
      decreases hours.close - slotStart - duration
    {
      var slotEnd := slotStart + duration;
      if slotEnd > hours.close {
        break;
      }
      assert SlotFits(hours, step, duration, |slots|);
      slots := slots + [Window(slotStart, slotEnd)];
      slotStart := slotStart + step;
    }
  }

  /** The generated windows are all that fit, in order, floor((close - open - duration) / step) + 1 of them,
      and do not overlap when the step is at least the duration. */
  lemma GeneratedAre(slots: seq<Window>, hours: Hours, step: int, duration: int)
    requires GeneratedBy(slots, hours, step, duration) && step > 0
    ensures |slots| == if hours.open < hours.close && hours.open + duration <= hours.close
                       then (hours.close - hours.open - duration) / step + 1 else 0
    ensures forall k: nat :: k < |slots| ==>
      slots[k].start == hours.open + k * step && slots[k].end == slots[k].start + duration && slots[k].end <= hours.close
    ensures forall k: nat :: SlotFits(hours, step, duration, k) <==> k < |slots|
    ensures forall j: nat, k: nat :: j < k < |slots| ==> slots[j].start < slots[k].start && slots[j].end < slots[k].end
    ensures step >= duration ==> forall j: nat, k: nat :: j < k < |slots| ==> slots[j].end <= slots[k].start
  {
    var n := |slots|;
    FitsExactlyBelowCount(hours, step, duration, n);
    if n > 0 {
      FitsExactlyBelowCount(hours, step, duration, n - 1);
    }
    forall k: nat
      ensures SlotFits(hours, step, duration, k) <==> k < n
    {
      FitsExactlyBelowCount(hours, step, duration, k);
    }
    forall j: nat, k: nat | j < k < n
      ensures slots[j].start + step <= slots[k].start
    {
      ProductMonotone(j + 1, k, step);
      assert slots[j].start + step == hours.open + (j + 1) * step;
    }
  }

  // ----- occupancy

  function RowIn(query: Window): HeldRow -> nat {
    (r: HeldRow) => if r.window.Overlaps(query) then r.quantity else 0
  }

  method OccupiedQuantity(query: Window, bookings: seq<HeldRow>, locks: seq<HeldRow>) returns (used: nat)
    ensures used == Sum(bookings, RowIn(query)) + Sum(locks, RowIn(query))
  {
    used := 0;
    for i := 0 to |bookings|
      invariant used == Sum(bookings[..i], RowIn(query))
    {
      if bookings[i].window.start < query.end && bookings[i].window.end > query.start {
        used := used + bookings[i].quantity;
      }
      assert bookings[..i + 1] == bookings[..i] + [bookings[i]];
      SumAppend(bookings[..i], bookings[i], RowIn(query));
    }
    assert bookings[..|bookings|] == bookings;
    for i := 0 to |locks|
      invariant used == Sum(bookings, RowIn(query)) + Sum(locks[..i], RowIn(query))
    {
      if locks[i].window.start < query.end && locks[i].window.end > query.start {
        used := used + locks[i].quantity;
      }
      assert locks[..i + 1] == locks[..i] + [locks[i]];
      SumAppend(locks[..i], locks[i], RowIn(query));
    }
    assert locks[..|locks|] == locks;
  }

  /** GetActiveBookingsInRange. */
  function BookingRows(bookings: seq<Booking>, service: Id, range: Window): seq<HeldRow> {
    if |bookings| == 0 then []
    else
      var rest, b := BookingRows(bookings[..|bookings| - 1], service, range), bookings[|bookings| - 1];
      if b.service == service && IsActive(b.status) && b.window.Overlaps(range)
      then rest + [HeldRow(b.window, b.quantity)] else rest
  }

  /** GetActiveLocksInRange. */
  function LockRows(locks: seq<Option<BookingLock>>, service: Id, range: Window, now: int): seq<HeldRow> {
    if |locks| == 0 then []
    else
      var rest, l := LockRows(locks[..|locks| - 1], service, range, now), locks[|locks| - 1];
      if l.Some? && l.value.service == service && l.value.expiresAt > now && l.value.window.Overlaps(range)
      then rest + [HeldRow(l.value.window, l.value.quantity)] else rest
  }

  /** Fetching a wide range and then filtering loses nothing of a window inside it. */
  lemma {:induction false} FetchedBookingsSuffice(bookings: seq<Booking>, service: Id, range: Window, query: Window)
    requires query.Inside(range)
    ensures Sum(BookingRows(bookings, service, range), RowIn(query)) == Sum(bookings, BookingIn(service, query))
  {
    if |bookings| > 0 {
      var b := bookings[|bookings| - 1];
      FetchedBookingsSuffice(bookings[..|bookings| - 1], service, range, query);
      SumAppend(BookingRows(bookings[..|bookings| - 1], service, range), HeldRow(b.window, b.quantity), RowIn(query));
    }
  }

  lemma {:induction false} FetchedLocksSuffice(locks: seq<Option<BookingLock>>, service: Id, range: Window, now: int,
                                               query: Window)
    requires query.Inside(range)
    ensures Sum(LockRows(locks, service, range, now), RowIn(query)) == Sum(locks, LockIn(service, query, now))
  {
    if |locks| > 0 {
      var l := locks[|locks| - 1];
      FetchedLocksSuffice(locks[..|locks| - 1], service, range, now, query);
      if l.Some? {
        SumAppend(LockRows(locks[..|locks| - 1], service, range, now), HeldRow(l.value.window, l.value.quantity),
                  RowIn(query));
      }
    }
  }

  lemma FetchedRowsSuffice(s: Store, service: Id, range: Window, query: Window)
    requires query.Inside(range)
    ensures Sum(BookingRows(s.bookings, service, range), RowIn(query))
              + Sum(LockRows(s.locks, service, range, s.now), RowIn(query))
         == Held(s, service, query)
  {
    FetchedBookingsSuffice(s.bookings, service, range, query);
    FetchedLocksSuffice(s.locks, service, range, s.now, query);
  }

  // ----- the listing

  function RemainingGiven(row: ServiceRow, used: nat): int {
    if row.capacityType == Single then (if used > 0 then 0 else 1) else row.capacity - used
  }

  /** The remaining capacity of one window, by a query of its own over the whole store. */
  function Remaining(s: Store, service: Id, window: Window): int
    requires service in s.services
  {
    RemainingGiven(s.services[service], Held(s, service, window))
  }

  /** The simple form of the listing: query each window by itself, keep those with room. */
  function ListEach(s: Store, service: Id, windows: seq<Window>): seq<Slot>
    requires service in s.services
  {
    if |windows| == 0 then []
    else
      var rest, w := ListEach(s, service, windows[..|windows| - 1]), windows[|windows| - 1];
      if Remaining(s, service, w) > 0 then rest + [Slot(w, Remaining(s, service, w))] else rest
  }

  lemma {:induction false} ListEachHas(s: Store, service: Id, windows: seq<Window>, slot: Slot)
    requires service in s.services
    ensures slot in ListEach(s, service, windows)
       <==> slot.window in windows && slot.remaining == Remaining(s, service, slot.window) && slot.remaining > 0
  {
    if |windows| > 0 {
      var most, w := windows[..|windows| - 1], windows[|windows| - 1];
      ListEachHas(s, service, most, slot);
      assert slot.window in windows <==> slot.window in most || slot.window == w;
      assert windows == most + [w];
    }
  }

  /** The engine's own conflict rule: a single service refuses any overlap and never looks at its capacity. */
  predicate EngineConflict(row: ServiceRow, used: nat, quantity: nat) {
    if row.capacityType == Single then used > 0 else used + quantity > row.capacity
  }

  /** The listing is that of the slots generated for these hours, each by a query of its own. */
  ghost predicate Lists(listing: Listing, s: Store, service: Id, hours: Hours)
    requires service in s.services
  {
    exists windows: seq<Window> ::
      GeneratedBy(windows, hours, s.services[service].stepMinutes * 60, s.services[service].minDuration * 60)
      && listing == Slots(ListEach(s, service, windows))
  }

  class Service {
    const repo: BookingService.Repository

    constructor (repo: BookingService.Repository)
      ensures this.repo == repo
    {
      this.repo := repo;
    }

    /** One fetch for the whole day, filtered per slot, lists what a query per slot would. */
    method GetSlotsForDate(service: Id, day: int, special: Option<DateOverride>, rule: Option<WeeklyRule>)
      returns (listing: Listing)
      requires service in repo.services && ResolveHours(day, special, rule).Some? ==>
        GenerationEnds(ResolveHours(day, special, rule).value, repo.services[service].stepMinutes * 60,
                       repo.services[service].minDuration * 60)
      ensures service !in repo.services ==> listing == NotFound
      ensures service in repo.services && special.Some? ==>
        if special.value.isClosed || special.value.openTime == None || special.value.closeTime == None
        then listing == Slots([])
        else Lists(listing, repo.State(), service,
                   Hours(day + special.value.openTime.value, day + special.value.closeTime.value))
      ensures service in repo.services && special == None ==>
        if rule == None || !rule.value.isActive then listing == Slots([])
        else Lists(listing, repo.State(), service, Hours(day + rule.value.startTime, day + rule.value.endTime))
    {
      if service !in repo.services {
        return NotFound;
      }
      var row := repo.services[service];
      var hours: Hours;
      if special.Some? {
        if special.value.isClosed {
          return Slots([]);
        }
        if special.value.openTime.Some? && special.value.closeTime.Some? {
          hours := Hours(day + special.value.openTime.value, day + special.value.closeTime.value);
        } else {
          return Slots([]);
        }
      } else {
        if rule == None || !rule.value.isActive {
          return Slots([]);
        }
        hours := Hours(day + rule.value.startTime, day + rule.value.endTime);
      }
      var rawSlots := GenerateSlots(hours, row.stepMinutes * 60, row.minDuration * 60);
      if |rawSlots| == 0 {
        return Slots([]);
      }
      EachInside(rawSlots, hours, row.stepMinutes * 60, row.minDuration * 60);
      var result := ListDay(service, rawSlots);
      listing := Slots(result);
    }

    /** The fetch for the whole day and the pass over its slots. */
    method ListDay(service: Id, rawSlots: seq<Window>) returns (result: seq<Slot>)
      requires service in repo.services && |rawSlots| > 0
      requires forall w :: w in rawSlots ==> w.Inside(Window(rawSlots[0].start, rawSlots[|rawSlots| - 1].end))
      ensures result == ListEach(repo.State(), service, rawSlots)
    {
      var row := repo.services[service];
      var range := Window(rawSlots[0].start, rawSlots[|rawSlots| - 1].end);
      var bookings := BookingRows(repo.bookings, service, range);
      var locks := LockRows(repo.locks, service, range, repo.now);
      result := [];
      for i := 0 to |rawSlots|
        invariant result == ListEach(repo.State(), service, rawSlots[..i])
      {
        var slot := rawSlots[i];
        assert slot in rawSlots;
        FetchedRowsSuffice(repo.State(), service, range, slot);
        var used := OccupiedQuantity(slot, bookings, locks);
        var remaining := row.capacity - used;
        if row.capacityType == Single {
          remaining := if used > 0 then 0 else 1;
        }
        assert rawSlots[..i + 1][..i] == rawSlots[..i];
        if remaining > 0 {
          result := result + [Slot(slot, remaining)];
        }
      }
      assert rawSlots[..|rawSlots|] == rawSlots;
    }

    /** None when the service does not exist. */
    method CheckConflict(service: Id, window: Window, quantity: nat) returns (conflict: Option<bool>)
      ensures conflict.Some? <==> service in repo.services
      ensures conflict.Some? ==>
        conflict.value == EngineConflict(repo.services[service], Held(repo.State(), service, window), quantity)
    {
      if service !in repo.services {
        return None;
      }
      var row := repo.services[service];
      var bookings := BookingRows(repo.bookings, service, window);
      var locks := LockRows(repo.locks, service, window, repo.now);
      var used := OccupiedQuantity(window, bookings, locks);
      FetchedRowsSuffice(repo.State(), service, window, window);
      if row.capacityType == Single {
        return Some(used > 0);
      }
      conflict := Some(used + quantity > row.capacity);
    }
  }

  /** Every generated slot lies between the first slot's start and the last slot's end. */
  lemma EachInside(slots: seq<Window>, hours: Hours, step: int, duration: int)
    requires GeneratedBy(slots, hours, step, duration) && GenerationEnds(hours, step, duration) && |slots| > 0
    ensures forall w :: w in slots ==> w.Inside(Window(slots[0].start, slots[|slots| - 1].end))
  {
  }

  // ----- listing against locking

  /** The listing of these windows offers the window to that many. */
  predicate Offered(s: Store, service: Id, windows: seq<Window>, window: Window, quantity: nat)
    requires service in s.services
  {
    exists slot: Slot :: slot in ListEach(s, service, windows) && slot.window == window && slot.remaining >= quantity
  }

  lemma OfferedExactly(s: Store, service: Id, windows: seq<Window>, window: Window, quantity: nat)
    requires service in s.services && window in windows && quantity >= 1
    ensures Offered(s, service, windows, window, quantity) <==> quantity <= Remaining(s, service, window)
  {
    var offered := Slot(window, Remaining(s, service, window));
    ListEachHas(s, service, windows, offered);
    forall slot: Slot | slot in ListEach(s, service, windows) && slot.window == window
      ensures slot == offered
    {
      ListEachHas(s, service, windows, slot);
    }
  }

  /** A slot is listed with room for a quantity exactly when LockSlot accepts that quantity for it at that instant. */
  lemma ListedExactlyWhenLockable(s: Store, service: Id, windows: seq<Window>, window: Window, quantity: nat, branch: Id)
    requires service in s.services && window in windows && quantity >= 1
    requires s.services[service].capacityType == Multi || s.services[service].capacity == 1
    ensures Offered(s, service, windows, window, quantity) <==> !Conflict(s, service, window, quantity)
    ensures s.services[service].capacityType == Multi ==>
      (Conflict(s, service, window, quantity) <==> EngineConflict(s.services[service], Held(s, service, window), quantity))
    ensures window.Nonempty() && branch in s.branchOwner ==>
      (!Conflict(s, service, window, quantity) <==> LockSlotGuard(s, service, branch, window, quantity) == Ok)
  {
    OfferedExactly(s, service, windows, window, quantity);
  }

  /** A reachable store, a service shaped as given, and a LockSlot for an existing branch. */
  ghost predicate Asks(s: Store, row: ServiceRow, service: Id, branch: Id, quantity: nat) {
    && Reachable(s) && service in s.services && s.services[service] == row && branch in s.branchOwner && quantity >= 1
  }

  /** The windows are what generation yields for the service on some day. */
  ghost predicate Generated(windows: seq<Window>, row: ServiceRow) {
    exists hours: Hours :: GeneratedBy(windows, hours, row.stepMinutes * 60, row.minDuration * 60)
  }

  /** On every reachable store the listing of generated slots offers what LockSlot would accept. */
  ghost predicate ListingAgrees(row: ServiceRow) {
    forall s: Store, service: Id, branch: Id, windows: seq<Window>, window: Window, quantity: nat ::
      Asks(s, row, service, branch, quantity) && Generated(windows, row) && window in windows ==>
        (Offered(s, service, windows, window, quantity) <==> LockSlotGuard(s, service, branch, window, quantity) == Ok)
  }

  /** On every reachable store CheckConflict clears what LockSlot would accept. */
  ghost predicate EngineAgrees(row: ServiceRow) {
    forall s: Store, service: Id, branch: Id, window: Window, quantity: nat ::
      Asks(s, row, service, branch, quantity) && window.Nonempty() ==>
        (!EngineConflict(row, Held(s, service, window), quantity)
         <==> LockSlotGuard(s, service, branch, window, quantity) == Ok)
  }

  /** A positive step generates slots for any hours. */
  lemma SlotsExist(hours: Hours, step: int, duration: int) returns (windows: seq<Window>)
    requires step > 0
    ensures GeneratedBy(windows, hours, step, duration) && |windows| == SlotCount(hours, step, duration)
  {
    var n := SlotCount(hours, step, duration);
    windows := seq(n, k requires 0 <= k < n => SlotWindow(hours, step, duration, k));
    forall k: nat
      ensures SlotFits(hours, step, duration, k) <==> k < n
    {
      FitsExactlyBelowCount(hours, step, duration, k);
    }
  }

  /** Slots of a service with a positive duration are nonempty, of any other they are not. */
  lemma SlotsNonempty(windows: seq<Window>, row: ServiceRow, window: Window)
    requires Generated(windows, row) && window in windows
    ensures window.Nonempty() <==> row.minDuration >= 1
  {
    var hours: Hours :| GeneratedBy(windows, hours, row.stepMinutes * 60, row.minDuration * 60);
    var k :| 0 <= k < |windows| && windows[k] == window;
    assert windows[k] == SlotWindow(hours, row.stepMinutes * 60, row.minDuration * 60, k);
  }

  lemma FirstFitsAllFit(hours: Hours, step: int, duration: int, k: nat)
    requires step <= 0
    ensures SlotFits(hours, step, duration, 0) ==> SlotFits(hours, step, duration, k)
  {
    assert k * -step >= 0;
  }

  /** Without a positive step generation ends only when it yields nothing. */
  lemma NoStepNoSlots(windows: seq<Window>, row: ServiceRow)
    requires Generated(windows, row) && row.stepMinutes <= 0
    ensures windows == []
  {
    var step, duration := row.stepMinutes * 60, row.minDuration * 60;
    var hours: Hours :| GeneratedBy(windows, hours, step, duration);
    FirstFitsAllFit(hours, step, duration, |windows|);
  }

  /** The first slot of a day that opens at zero. */
  lemma FirstSlot(row: ServiceRow) returns (windows: seq<Window>, window: Window)
    requires row.stepMinutes > 0
    ensures Generated(windows, row) && window in windows && window == Window(0, row.minDuration * 60)
  {
    var step, duration := row.stepMinutes * 60, row.minDuration * 60;
    var hours := Hours(0, if duration >= 1 then duration else 1);
    windows := SlotsExist(hours, step, duration);
    assert SlotFits(hours, step, duration, 0);
    FitsExactlyBelowCount(hours, step, duration, 0);
    window := windows[0];
    assert window == SlotWindow(hours, step, duration, 0);
  }

  /** A shop with nothing booked offers what the row says; LockSlot goes by window and capacity. */
  lemma EmptyShopAsks(row: ServiceRow, windows: seq<Window>, window: Window, quantity: nat)
    requires window in windows && quantity >= 1
    ensures Asks(Shop(row), row, 0, 0, quantity) && Held(Shop(row), 0, window) == 0
    ensures Offered(Shop(row), 0, windows, window, quantity) <==> quantity <= RemainingGiven(row, 0)
    ensures LockSlotGuard(Shop(row), 0, 0, window, quantity) == Ok <==> window.Nonempty() && quantity <= row.capacity
  {
    var s := Shop(row);
    ShopIsReachable(row);
    hide Reachable;
    assert Held(s, 0, window) == 0;
    OfferedExactly(s, 0, windows, window, quantity);
  }

  /** Where listing and locking agree: nothing is ever generated; or nothing ever offered nor locked; or slots have
      instants and the service is multi or has capacity one. */
  predicate Agreeable(row: ServiceRow) {
    || row.stepMinutes <= 0
    || (row.capacityType == Multi && row.capacity <= 0)
    || (row.minDuration >= 1 && (row.capacityType == Multi || row.capacity == 1))
  }

  lemma AgreeableAgrees(s: Store, row: ServiceRow, service: Id, branch: Id, windows: seq<Window>, window: Window,
                        quantity: nat)
    requires Agreeable(row) && Asks(s, row, service, branch, quantity) && Generated(windows, row) && window in windows
    ensures Offered(s, service, windows, window, quantity) <==> LockSlotGuard(s, service, branch, window, quantity) == Ok
  {
    hide Reachable;
    if row.stepMinutes <= 0 {
      NoStepNoSlots(windows, row);
    } else {
      OfferedExactly(s, service, windows, window, quantity);
      SlotsNonempty(windows, row, window);
    }
  }

  /** On the slots a service generates, listing and locking agree in every reachable store exactly for such services:
      with a positive step, duration and capacity, for multi services and single ones of capacity one. */
  lemma ListingAgreesExactly(row: ServiceRow)
    ensures ListingAgrees(row) <==> Agreeable(row)
    ensures row.stepMinutes >= 1 && row.minDuration >= 1 ==>
      (Agreeable(row) <==> row.capacityType == Multi || row.capacity == 1)
  {
    hide Reachable, Generated;
    if Agreeable(row) {
      forall s: Store, service: Id, branch: Id, windows: seq<Window>, window: Window, quantity: nat |
        Asks(s, row, service, branch, quantity) && Generated(windows, row) && window in windows
        ensures Offered(s, service, windows, window, quantity) <==> LockSlotGuard(s, service, branch, window, quantity) == Ok
      {
        AgreeableAgrees(s, row, service, branch, windows, window, quantity);
      }
    } else {
      var windows, window := FirstSlot(row);
      EmptyShopAsks(row, windows, window, if row.minDuration >= 1 && row.capacity >= 2 then 2 else 1);
    }
  }

  /** A booking or a live lock of the service shares the window, by the comparison of the range queries. */
  ghost predicate Taken(s: Store, service: Id, window: Window) {
    exists w: Window :: w in WindowsOf(s, service) && w.start < window.end && w.end > window.start
  }

  lemma HeldExactlyWhenTaken(s: Store, service: Id, window: Window)
    requires RowsPositive(s)
    ensures Held(s, service, window) > 0 <==> Taken(s, service, window)
  {
    if Taken(s, service, window) {
      var w: Window :| w in WindowsOf(s, service) && w.start < window.end && w.end > window.start;
      if b :| b in s.bookings && b.service == service && IsActive(b.status) && b.window == w {
        var i :| 0 <= i < |s.bookings| && s.bookings[i] == b;
        assert s.IsBooking(i);
        SumMember(s.bookings, i, BookingIn(service, window));
      } else {
        var l :| l in s.locks && l.Some? && l.value.service == service && l.value.expiresAt > s.now && l.value.window == w;
        var i :| 0 <= i < |s.locks| && s.locks[i] == l;
        SumMember(s.locks, i, LockIn(service, window, s.now));
      }
    } else {
      forall i | 0 <= i < |s.bookings|
        ensures BookingIn(service, window)(s.bookings[i]) == 0
      {
        assert s.bookings[i] in s.bookings;
      }
      forall i | 0 <= i < |s.locks|
        ensures LockIn(service, window, s.now)(s.locks[i]) == 0
      {
        assert s.locks[i] in s.locks;
      }
      SumZero(s.bookings, BookingIn(service, window));
      SumZero(s.locks, LockIn(service, window, s.now));
    }
  }

  /** A single service is for one party at a time: in every reachable store a slot is offered, to one, and CheckConflict
      clears a window, for any quantity, exactly when nothing held shares it. */
  lemma SingleIsExclusive(s: Store, service: Id, windows: seq<Window>, window: Window, quantity: nat)
    requires Reachable(s) && service in s.services && s.services[service].capacityType == Single
    requires window in windows && quantity >= 1
    ensures Offered(s, service, windows, window, quantity) <==> quantity == 1 && !Taken(s, service, window)
    ensures EngineConflict(s.services[service], Held(s, service, window), quantity) <==> Taken(s, service, window)
  {
    ReachableIsPositive(s);
    HeldExactlyWhenTaken(s, service, window);
    OfferedExactly(s, service, windows, window, quantity);
  }

  /** CheckConflict agrees with locking for multi services only: on a single one it ignores the quantity asked for. */
  lemma EngineAgreesExactly(row: ServiceRow)
    ensures EngineAgrees(row) <==> row.capacityType == Multi
  {
    hide Reachable;
    if row.capacityType == Single {
      EmptyShopAsks(row, [Window(0, 1)], Window(0, 1), if row.capacity >= 1 then row.capacity + 1 else 1);
    }
  }
}
