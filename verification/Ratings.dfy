/** The rating summary that a trigger keeps by increments, against a recount of the reviews. */
module Ratings {
  import opened Sums

  type Id = nat
  type Rating = r: int | 1 <= r <= 5 witness 1

  datatype ReviewStatus = Published | Flagged | Removed

  datatype Review = Review(booking: Id, service: Id, rating: Rating, status: ReviewStatus)

  /** One row of rating_summaries; the average is kept in tenths. */
  datatype Summary = Summary(
    totalReviews: int, totalRating: int, avgTenths: int,
    fiveStar: int, fourStar: int, threeStar: int, twoStar: int, oneStar: int)

  datatype Reviews = Reviews(reviews: seq<Review>, flags: seq<set<Id>>, summaries: map<Id, Summary>) {
    predicate Empty() { reviews == [] && flags == [] && summaries == map[] }
  }

  datatype Error = AlreadyReviewed | AlreadyFlagged | ReviewNotFound | NotCompleted | NumericError

  datatype Outcome = Ok | Err(error: Error)

  // ----- the trigger

  function Abs(n: int): nat { if n < 0 then -n else n }

  /** ROUND(n / d, 1) in tenths, half away from zero; none on division by zero or past NUMERIC(2,1). */
  function RoundTenths(n: int, d: int): Option<int> {
    if d == 0 then None
    else
      var magnitude := (20 * Abs(n) + Abs(d)) / (2 * Abs(d));
      if magnitude > 99 then None else Some(if (n < 0) == (d < 0) then magnitude else -magnitude)
  }

  function Greatest(a: int, b: int): int { if a > b then a else b }

  function Star(m: Summary, rating: Rating): int {
    if rating == 5 then m.fiveStar else if rating == 4 then m.fourStar else if rating == 3 then m.threeStar
    else if rating == 2 then m.twoStar else m.oneStar
  }

  function Bumped(m: Summary, rating: Rating): Summary {
    if rating == 5 then m.(fiveStar := m.fiveStar + 1)
    else if rating == 4 then m.(fourStar := m.fourStar + 1)
    else if rating == 3 then m.(threeStar := m.threeStar + 1)
    else if rating == 2 then m.(twoStar := m.twoStar + 1)
    else m.(oneStar := m.oneStar + 1)
  }

  /** The trigger on INSERT; none if its arithmetic fails, which aborts the insert. */
  function AfterInsert(summaries: map<Id, Summary>, r: Review): Option<map<Id, Summary>> {
    if r.service in summaries then
      var m := summaries[r.service];
      match RoundTenths(m.totalRating + r.rating, m.totalReviews + 1)
      case None => None
      case Some(avg) =>
        Some(summaries[r.service := Bumped(m.(totalReviews := m.totalReviews + 1, totalRating := m.totalRating + r.rating,
                                              avgTenths := avg), r.rating)])
    else Some(summaries[r.service := Bumped(Summary(1, r.rating, 10 * r.rating, 0, 0, 0, 0, 0), r.rating)])
  }

  /** The trigger on an UPDATE that removes a review not removed before. */
  function AfterRemoval(summaries: map<Id, Summary>, r: Review): Option<map<Id, Summary>> {
    if r.service in summaries then
      var m := summaries[r.service];
      var avg := if m.totalReviews - 1 == 0 then Some(0) else RoundTenths(m.totalRating - r.rating, m.totalReviews - 1);
      match avg
      case None => None
      case Some(tenths) =>
        Some(summaries[r.service := m.(totalReviews := Greatest(m.totalReviews - 1, 0),
                                       totalRating := Greatest(m.totalRating - r.rating, 0), avgTenths := tenths)])
    else Some(summaries)
  }

  function AfterUpdate(summaries: map<Id, Summary>, before: Review, status: ReviewStatus): Option<map<Id, Summary>> {
    if before.status != Removed && status == Removed then AfterRemoval(summaries, before) else Some(summaries)
  }

  // ----- the calls

  datatype Op =
    | Submit(booking: Id, service: Id, rating: Rating, completed: bool)
    | Flag(review: Id, user: Id)
    | SetStatus(review: Id, status: ReviewStatus)

  predicate Reviewed(s: Reviews, booking: Id) {
    exists i :: 0 <= i < |s.reviews| && s.reviews[i].booking == booking
  }

  function Update(s: Reviews, i: Id, status: ReviewStatus): (Outcome, Reviews) {
    if i >= |s.reviews| then (Err(ReviewNotFound), s)
    else
      match AfterUpdate(s.summaries, s.reviews[i], status)
      case None => (Err(NumericError), s)
      case Some(summaries) =>
        (Ok, s.(reviews := s.reviews[i := s.reviews[i].(status := status)], summaries := summaries))
  }

  function Perform(s: Reviews, op: Op): (Outcome, Reviews)
    requires |s.flags| == |s.reviews|
  {
    match op
    case Submit(booking, service, rating, completed) =>
      if !completed then (Err(NotCompleted), s)
      else if Reviewed(s, booking) then (Err(AlreadyReviewed), s)
      else
        var r := Review(booking, service, rating, Published);
        (match AfterInsert(s.summaries, r)
         case None => (Err(NumericError), s)
         case Some(summaries) => (Ok, Reviews(s.reviews + [r], s.flags + [{}], summaries)))
    case Flag(i, user) =>
      if i >= |s.reviews| then (Err(ReviewNotFound), s)
      else if user in s.flags[i] then (Err(AlreadyFlagged), s)
      else
        var flagged := s.(flags := s.flags[i := s.flags[i] + {user}]);
        if |flagged.flags[i]| >= 3 then Update(flagged, i, Flagged) else (Ok, flagged)
    case SetStatus(i, status) => Update(s, i, status)
  }

  function Run(s: Reviews, ops: seq<Op>): (r: Reviews)
    requires |s.flags| == |s.reviews|
    ensures |r.flags| == |r.reviews|
  {
    if |ops| == 0 then s else Perform(Run(s, ops[..|ops| - 1]), ops[|ops| - 1]).1
  }

  // ----- the recount

  function Counted(service: Id): Review -> nat {
    (r: Review) => if r.service == service && r.status != Removed then 1 else 0
  }

  function Rated(service: Id): Review -> nat {
    (r: Review) => if r.service == service && r.status != Removed then r.rating else 0
  }

  function Taken(service: Id): Review -> nat {
    (r: Review) => if r.service == service && r.status == Removed then 1 else 0
  }

  function Starred(service: Id, rating: Rating): Review -> nat {
    (r: Review) => if r.service == service && r.rating == rating then 1 else 0
  }

  function Total(service: Id): Review -> nat { (r: Review) => if r.service == service then 1 else 0 }

  function Count(s: Reviews, service: Id): nat { Sum(s.reviews, Counted(service)) }

  function RatingSum(s: Reviews, service: Id): nat { Sum(s.reviews, Rated(service)) }

  predicate TotalsMatch(s: Reviews, service: Id) {
    if service in s.summaries then
      && s.summaries[service].totalReviews == Count(s, service)
      && s.summaries[service].totalRating == RatingSum(s, service)
      && Some(s.summaries[service].avgTenths)
         == (if Count(s, service) == 0 then Some(0) else RoundTenths(RatingSum(s, service), Count(s, service)))
    else Sum(s.reviews, Total(service)) == 0
  }

  ghost predicate StarsMatch(s: Reviews, service: Id) {
    service in s.summaries ==>
      forall rating: Rating :: Star(s.summaries[service], rating) == Sum(s.reviews, Starred(service, rating))
  }

  ghost predicate Matches(s: Reviews) {
    |s.flags| == |s.reviews| && forall service: Id :: TotalsMatch(s, service) && StarsMatch(s, service)
  }

  lemma {:induction false} RatingBounds(reviews: seq<Review>, service: Id)
    ensures Sum(reviews, Counted(service)) <= Sum(reviews, Rated(service)) <= 5 * Sum(reviews, Counted(service))
    ensures Sum(reviews, Counted(service)) <= Sum(reviews, Total(service))
  {
    if |reviews| > 0 {
      RatingBounds(reviews[..|reviews| - 1], service);
    }
  }

  lemma Scale(a: int, b: int, count: nat)
    requires a <= b
    ensures a * count <= b * count
  {
    assert (b - a) * count >= 0;
  }

  lemma QuotientBounds(n: nat, count: nat)
    requires count > 0
    ensures 2 * (n / (2 * count) * count) <= n < 2 * (n / (2 * count) * count) + 2 * count
  {
    var d := 2 * count;
    assert n == d * (n / d) + n % d;
  }

  lemma RatioInRange(sum: nat, count: nat, q: nat)
    requires 0 < count <= sum <= 5 * count
    requires 2 * (q * count) <= 20 * sum + count < 2 * (q * count) + 2 * count
    ensures 10 <= q <= 50
  {
    if q < 10 {
      Scale(q, 9, count);
    }
    if q > 50 {
      Scale(51, q, count);
    }
  }

  /** Rounded to tenths, an average of ratings lies in [1.0, 5.0] and within 0.05 of the exact quotient, a tie going up. */
  lemma AverageIsClose(sum: int, count: int)
    requires 0 < count <= sum <= 5 * count
    ensures RoundTenths(sum, count).Some?
    ensures var tenths := RoundTenths(sum, count).value;
      && 10 <= tenths <= 50 && 2 * Abs(tenths * count - 10 * sum) <= count
      && 20 * sum - count < 2 * (tenths * count) <= 20 * sum + count
  {
    var q := (20 * sum + count) / (2 * count);
    QuotientBounds(20 * sum + count, count);
    RatioInRange(sum, count, q);
    assert RoundTenths(sum, count) == Some(q);
  }

  // ----- the steps

  lemma SumsAfterInsert(s: Reviews, r: Review, service: Id)
    requires r.status != Removed
    ensures Sum(s.reviews + [r], Counted(service)) == Count(s, service) + (if r.service == service then 1 else 0)
    ensures Sum(s.reviews + [r], Rated(service)) == RatingSum(s, service) + (if r.service == service then r.rating else 0)
    ensures Sum(s.reviews + [r], Total(service)) == Sum(s.reviews, Total(service)) + (if r.service == service then 1 else 0)
    ensures forall rating: Rating ::
      Sum(s.reviews + [r], Starred(service, rating)) == Sum(s.reviews, Starred(service, rating)) + Starred(service, rating)(r)
  {
  }

  /** Changing a status moves the live counts and nothing else. */
  lemma SumsAfterStatus(s: Reviews, i: Id, status: ReviewStatus, service: Id)
    requires i < |s.reviews|
    ensures var r := s.reviews[i];
      var after := s.reviews[i := r.(status := status)];
      && Sum(after, Counted(service)) + Counted(service)(r) == Count(s, service) + Counted(service)(r.(status := status))
      && Sum(after, Rated(service)) + Rated(service)(r) == RatingSum(s, service) + Rated(service)(r.(status := status))
      && Sum(after, Total(service)) == Sum(s.reviews, Total(service))
      && (forall rating: Rating :: Sum(after, Starred(service, rating)) == Sum(s.reviews, Starred(service, rating)))
  {
    var after := s.reviews[i].(status := status);
    SumUpdate(s.reviews, i, after, Counted(service));
    SumUpdate(s.reviews, i, after, Rated(service));
    SumUpdate(s.reviews, i, after, Total(service));
    forall rating: Rating { SumUpdate(s.reviews, i, after, Starred(service, rating)); }
  }

  lemma NoReviewsNothingCounted(s: Reviews, service: Id)
    requires Sum(s.reviews, Total(service)) == 0
    ensures Count(s, service) == 0 && RatingSum(s, service) == 0
    ensures forall rating: Rating :: Sum(s.reviews, Starred(service, rating)) == 0
  {
    RatingBounds(s.reviews, service);
    forall rating: Rating { SumLe(s.reviews, Starred(service, rating), Total(service)); }
  }

  /** While the summary matches, a removal finds at least one review and its rating to take away, so neither
      clamp takes effect, the divisor is positive, and the statement never fails. */
  lemma ClampsNeverBite(s: Reviews, i: Id)
    requires Matches(s) && i < |s.reviews| && s.reviews[i].status != Removed
    ensures var r := s.reviews[i];
      && r.service in s.summaries
      && var m := s.summaries[r.service];
         && Greatest(m.totalReviews - 1, 0) == m.totalReviews - 1
         && Greatest(m.totalRating - r.rating, 0) == m.totalRating - r.rating
         && m.totalReviews - 1 >= 0
         && AfterRemoval(s.summaries, r).Some?
  {
    var r := s.reviews[i];
    assert TotalsMatch(s, r.service);
    SumMember(s.reviews, i, Total(r.service));
    SumMember(s.reviews, i, Counted(r.service));
    SumMember(s.reviews, i, Rated(r.service));
    SumsAfterStatus(s, i, Removed, r.service);
    RatingBounds(s.reviews[i := r.(status := Removed)], r.service);
    var m := s.summaries[r.service];
    if m.totalReviews > 1 {
      AverageIsClose(m.totalRating - r.rating, m.totalReviews - 1);
    }
  }

  lemma InsertSucceeds(s: Reviews, r: Review)
    requires Matches(s) && r.status != Removed
    ensures AfterInsert(s.summaries, r).Some?
    ensures var m := AfterInsert(s.summaries, r).value[r.service];
      && m.totalReviews == Count(s, r.service) + 1 && m.totalRating == RatingSum(s, r.service) + r.rating
      && Some(m.avgTenths) == RoundTenths(m.totalRating, m.totalReviews)
      && (forall rating: Rating ::
            Star(m, rating) == Sum(s.reviews, Starred(r.service, rating)) + Starred(r.service, rating)(r))
  {
    var service := r.service;
    assert TotalsMatch(s, service) && StarsMatch(s, service);
    RatingBounds(s.reviews, service);
    AverageIsClose(RatingSum(s, service) + r.rating, Count(s, service) + 1);
    if service !in s.summaries {
      NoReviewsNothingCounted(s, service);
      FirstAverage(r.rating);
    }
  }

  lemma InsertKeepsMatch(s: Reviews, booking: Id, service: Id, rating: Rating)
    requires Matches(s)
    ensures var r := Review(booking, service, rating, Published);
      AfterInsert(s.summaries, r).Some?
      && Matches(Reviews(s.reviews + [r], s.flags + [{}], AfterInsert(s.summaries, r).value))
  {
    var r := Review(booking, service, rating, Published);
    InsertSucceeds(s, r);
    var s' := Reviews(s.reviews + [r], s.flags + [{}], AfterInsert(s.summaries, r).value);
    forall any: Id
      ensures TotalsMatch(s', any) && StarsMatch(s', any)
    {
      assert TotalsMatch(s, any) && StarsMatch(s, any);
      SumsAfterInsert(s, r, any);
    }
  }

  lemma FirstAverage(rating: Rating)
    ensures RoundTenths(rating, 1) == Some(10 * rating)
  {
  }

  lemma RemovalKeepsMatch(s: Reviews, i: Id)
    requires Matches(s) && i < |s.reviews| && s.reviews[i].status != Removed
    ensures Update(s, i, Removed).0 == Ok && Matches(Update(s, i, Removed).1)
  {
    ClampsNeverBite(s, i);
    var r := s.reviews[i];
    var s' := Update(s, i, Removed).1;
    SumsAfterStatus(s, i, Removed, r.service);
    RatingBounds(s'.reviews, r.service);
    forall any: Id
      ensures TotalsMatch(s', any) && StarsMatch(s', any)
    {
      assert TotalsMatch(s, any) && StarsMatch(s, any);
      SumsAfterStatus(s, i, Removed, any);
    }
  }

  /** An update that neither removes a live review nor revives a removed one moves nothing. */
  lemma QuietUpdateKeepsMatch(s: Reviews, i: Id, status: ReviewStatus)
    requires Matches(s) && i < |s.reviews| && (s.reviews[i].status == Removed <==> status == Removed)
    ensures Update(s, i, status).0 == Ok && Matches(Update(s, i, status).1)
  {
    var s' := Update(s, i, status).1;
    forall any: Id
      ensures TotalsMatch(s', any) && StarsMatch(s', any)
    {
      assert TotalsMatch(s, any) && StarsMatch(s, any);
      SumsAfterStatus(s, i, status, any);
    }
  }

  /** Reviving a removed review leaves the summary one short. */
  lemma RevivalBreaksMatch(s: Reviews, i: Id, status: ReviewStatus)
    requires Matches(s) && i < |s.reviews| && s.reviews[i].status == Removed && status != Removed
    ensures !Matches(Update(s, i, status).1)
  {
    var service := s.reviews[i].service;
    var s' := Update(s, i, status).1;
    assert TotalsMatch(s, service);
    SumMember(s.reviews, i, Total(service));
    SumsAfterStatus(s, i, status, service);
    assert !TotalsMatch(s', service);
  }

  lemma FlagsDoNotCount(s: Reviews, flags: seq<set<Id>>)
    requires |flags| == |s.reviews| && |s.flags| == |s.reviews|
    ensures Matches(s) <==> Matches(s.(flags := flags))
  {
    var s' := s.(flags := flags);
    assert forall any: Id :: TotalsMatch(s, any) <==> TotalsMatch(s', any);
    assert forall any: Id :: StarsMatch(s, any) <==> StarsMatch(s', any);
  }

  /** The call takes a removed review out of 'removed': the third flag on it, or an explicit status change. */
  predicate Revives(s: Reviews, op: Op)
    requires |s.flags| == |s.reviews|
  {
    match op
    case Submit(_, _, _, _) => false
    case Flag(i, user) =>
      i < |s.reviews| && s.reviews[i].status == Removed && user !in s.flags[i] && |s.flags[i] + {user}| >= 3
    case SetStatus(i, status) => i < |s.reviews| && s.reviews[i].status == Removed && status != Removed
  }

  /** From a matching summary one call leaves it matching exactly when it revives no removed review. */
  lemma StepMatchesExactly(s: Reviews, op: Op)
    requires Matches(s)
    ensures Matches(Perform(s, op).1) <==> !Revives(s, op)
  {
    match op {
      case Submit(booking, service, rating, completed) =>
        InsertKeepsMatch(s, booking, service, rating);
      case Flag(i, user) =>
        if i < |s.reviews| && user !in s.flags[i] {
          var flagged := s.(flags := s.flags[i := s.flags[i] + {user}]);
          FlagsDoNotCount(s, flagged.flags);
          UpdateMatchesExactly(flagged, i, Flagged);
        }
      case SetStatus(i, status) =>
        if i < |s.reviews| {
          UpdateMatchesExactly(s, i, status);
        }
    }
  }

  lemma UpdateMatchesExactly(s: Reviews, i: Id, status: ReviewStatus)
    requires Matches(s) && i < |s.reviews|
    ensures Matches(Update(s, i, status).1) <==> !(s.reviews[i].status == Removed && status != Removed)
  {
    if s.reviews[i].status != Removed && status == Removed {
      RemovalKeepsMatch(s, i);
    } else if s.reviews[i].status == Removed && status != Removed {
      RevivalBreaksMatch(s, i, status);
    } else {
      QuietUpdateKeepsMatch(s, i, status);
    }
  }

  lemma RunAppend(s: Reviews, ops: seq<Op>, op: Op)
    requires |s.flags| == |s.reviews|
    ensures Run(s, ops + [op]) == Perform(Run(s, ops), op).1
  {
    assert (ops + [op])[..|ops|] == ops;
  }

  /** The store after a review was removed and so many users flagged it. */
  function RemovedReview(r: Review, users: set<Id>): Reviews {
    Reviews([r.(status := Removed)], [users], map[r.service := Bumped(Summary(0, 0, 0, 0, 0, 0, 0, 0), r.rating)])
  }

  lemma SubmittedAndRemoved(s: Reviews, booking: Id, service: Id, rating: Rating)
    requires s.Empty()
    ensures var after := Run(s, [Submit(booking, service, rating, true)] + [SetStatus(0, Removed)]);
      after == RemovedReview(Review(booking, service, rating, Published), {}) && Matches(after)
  {
    var submit, remove := Submit(booking, service, rating, true), SetStatus(0, Removed);
    assert [] + [submit] == [submit];
    RunAppend(s, [], submit);
    RunAppend(s, [submit], remove);
    StepMatchesExactly(s, submit);
    StepMatchesExactly(Run(s, [submit]), remove);
  }

  lemma FlagRemoved(r: Review, users: set<Id>, user: Id)
    requires user !in users && |users| < 2 && Matches(RemovedReview(r, users))
    ensures Perform(RemovedReview(r, users), Flag(0, user)).1 == RemovedReview(r, users + {user})
    ensures Matches(RemovedReview(r, users + {user}))
  {
    StepMatchesExactly(RemovedReview(r, users), Flag(0, user));
  }

  lemma FlagRevives(r: Review, users: set<Id>, user: Id)
    requires user !in users && |users| == 2 && Matches(RemovedReview(r, users))
    ensures Perform(RemovedReview(r, users), Flag(0, user)).1
         == RemovedReview(r, users + {user}).(reviews := [r.(status := Flagged)])
    ensures !Matches(Perform(RemovedReview(r, users), Flag(0, user)).1)
  {
    StepMatchesExactly(RemovedReview(r, users), Flag(0, user));
  }

  lemma TotalIsZero(r: Review, users: set<Id>)
    ensures r.service in RemovedReview(r, users).summaries
    ensures RemovedReview(r, users).summaries[r.service].totalReviews == 0
  {
  }

  /** Three users flag a removed review: it is 'flagged' again, and the summary misses it. */
  lemma ThreeFlagsRevive(s: Reviews, booking: Id, service: Id, rating: Rating, a: Id, b: Id, c: Id)
    requires s.Empty() && a != b && b != c && a != c
    ensures var ops := [Submit(booking, service, rating, true)] + [SetStatus(0, Removed)] + [Flag(0, a)] + [Flag(0, b)];
      var before, after := Run(s, ops), Run(s, ops + [Flag(0, c)]);
      && Matches(before) && !Matches(after) && after.reviews == [Review(booking, service, rating, Flagged)]
      && service in after.summaries && after.summaries[service].totalReviews == 0
  {
    var r := Review(booking, service, rating, Published);
    var gone := [Submit(booking, service, rating, true)] + [SetStatus(0, Removed)];
    SubmittedAndRemoved(s, booking, service, rating);
    hide Perform, Matches, Bumped;
    RunAppend(s, gone, Flag(0, a));
    RunAppend(s, gone + [Flag(0, a)], Flag(0, b));
    RunAppend(s, gone + [Flag(0, a)] + [Flag(0, b)], Flag(0, c));
    FlagRemoved(r, {}, a);
    assert {} + {a} == {a} && {a} + {b} == {a, b};
    FlagRemoved(r, {a}, b);
    FlagRevives(r, {a, b}, c);
    TotalIsZero(r, {a, b} + {c});
  }

  ghost predicate NeverRevives(s: Reviews, ops: seq<Op>)
    requires |s.flags| == |s.reviews|
  {
    forall k :: 0 <= k < |ops| ==> !Revives(Run(s, ops[..k]), ops[k])
  }

  ghost predicate AlwaysMatches(s: Reviews, ops: seq<Op>)
    requires |s.flags| == |s.reviews|
  {
    forall k :: 0 <= k <= |ops| ==> Matches(Run(s, ops[..k]))
  }

  /** All through a run the summary equals the recount exactly when no call of the run revives a removed review. */
  lemma {:induction false} SummaryIsRecountExactly(s: Reviews, ops: seq<Op>)
    requires s.Empty()
    ensures AlwaysMatches(s, ops) <==> NeverRevives(s, ops)
  {
    if |ops| == 0 {
      assert Matches(s);
    } else {
      hide Perform, Matches, Revives;
      var before, last := ops[..|ops| - 1], ops[|ops| - 1];
      assert forall k :: 0 <= k <= |before| ==> before[..k] == ops[..k];
      assert ops[..|ops|] == ops;
      SummaryIsRecountExactly(s, before);
      if AlwaysMatches(s, before) {
        assert Matches(Run(s, before));
        StepMatchesExactly(Run(s, before), last);
      }
      assert AlwaysMatches(s, ops) <==> AlwaysMatches(s, before) && Matches(Run(s, ops));
      assert NeverRevives(s, ops) <==> NeverRevives(s, before) && !Revives(Run(s, before), last);
    }
  }

  /** Each star column counts the insertions of its rating. */
  ghost predicate Bucketed(s: Reviews) {
    forall service: Id :: StarsMatch(s, service) && (service !in s.summaries ==> Sum(s.reviews, Total(service)) == 0)
  }

  /** An insertion that succeeds bumps one star column, whatever the totals say. */
  lemma InsertKeepsBuckets(s: Reviews, r: Review)
    requires Bucketed(s) && r.status != Removed && AfterInsert(s.summaries, r).Some?
    ensures Bucketed(Reviews(s.reviews + [r], s.flags + [{}], AfterInsert(s.summaries, r).value))
  {
    var s' := Reviews(s.reviews + [r], s.flags + [{}], AfterInsert(s.summaries, r).value);
    forall service: Id
      ensures StarsMatch(s', service) && (service !in s'.summaries ==> Sum(s'.reviews, Total(service)) == 0)
    {
      assert StarsMatch(s, service);
      SumsAfterInsert(s, r, service);
      if service !in s.summaries {
        NoReviewsNothingCounted(s, service);
      }
    }
  }

  lemma UpdateKeepsBuckets(s: Reviews, i: Id, status: ReviewStatus)
    requires Bucketed(s)
    ensures Bucketed(Update(s, i, status).1)
  {
    var s' := Update(s, i, status).1;
    if s' != s {
      forall service: Id
        ensures StarsMatch(s', service) && (service !in s'.summaries ==> Sum(s'.reviews, Total(service)) == 0)
      {
        assert StarsMatch(s, service);
        SumsAfterStatus(s, i, status, service);
      }
    }
  }

  lemma PerformKeepsBuckets(s: Reviews, op: Op)
    requires |s.flags| == |s.reviews| && Bucketed(s)
    ensures Bucketed(Perform(s, op).1)
  {
    match op {
      case Submit(booking, service, rating, _) =>
        var r := Review(booking, service, rating, Published);
        if AfterInsert(s.summaries, r).Some? {
          InsertKeepsBuckets(s, r);
        }
      case Flag(i, user) =>
        if i < |s.reviews| {
          var flagged := s.(flags := s.flags[i := s.flags[i] + {user}]);
          assert forall service: Id :: StarsMatch(flagged, service) <==> StarsMatch(s, service);
          UpdateKeepsBuckets(flagged, i, Flagged);
        }
      case SetStatus(i, status) => UpdateKeepsBuckets(s, i, status);
    }
  }

  lemma {:induction false} RunKeepsBuckets(s: Reviews, ops: seq<Op>)
    requires s.Empty()
    ensures Bucketed(Run(s, ops))
  {
    if |ops| > 0 {
      RunKeepsBuckets(s, ops[..|ops| - 1]);
      PerformKeepsBuckets(Run(s, ops[..|ops| - 1]), ops[|ops| - 1]);
    }
  }

  /** In every run, revivals included, the five buckets together count every review ever inserted for the service,
      and each counts its rating. */
  lemma BucketsCountInsertions(s: Reviews, ops: seq<Op>, service: Id)
    requires s.Empty()
    ensures var r := Run(s, ops);
      if service !in r.summaries then Sum(r.reviews, Total(service)) == 0
      else
        var m := r.summaries[service];
        && m.fiveStar + m.fourStar + m.threeStar + m.twoStar + m.oneStar == Sum(r.reviews, Total(service))
        && m.fiveStar == Sum(r.reviews, Starred(service, 5)) && m.fourStar == Sum(r.reviews, Starred(service, 4))
        && m.threeStar == Sum(r.reviews, Starred(service, 3)) && m.twoStar == Sum(r.reviews, Starred(service, 2))
        && m.oneStar == Sum(r.reviews, Starred(service, 1))
  {
    RunKeepsBuckets(s, ops);
    var r := Run(s, ops);
    if service in r.summaries {
      var m := r.summaries[service];
      assert StarsMatch(r, service);
      assert Star(m, 5) == m.fiveStar && Star(m, 4) == m.fourStar && Star(m, 3) == m.threeStar;
      assert Star(m, 2) == m.twoStar && Star(m, 1) == m.oneStar;
      BucketsAddUp(r.reviews, service);
    }
  }

  /** While the summary matches, the buckets exceed the total by the number of removed reviews, and a positive total
      has an average within [1.0, 5.0] and 0.05 of the quotient. */
  lemma MatchingSummaryIsSane(s: Reviews, service: Id)
    requires Matches(s) && service in s.summaries
    ensures var m := s.summaries[service];
      && m.fiveStar + m.fourStar + m.threeStar + m.twoStar + m.oneStar - m.totalReviews == Sum(s.reviews, Taken(service))
      && (m.totalReviews > 0 ==>
            && 10 <= m.avgTenths <= 50 && 2 * Abs(m.avgTenths * m.totalReviews - 10 * m.totalRating) <= m.totalReviews
            && 20 * m.totalRating - m.totalReviews < 2 * (m.avgTenths * m.totalReviews))
  {
    assert TotalsMatch(s, service) && StarsMatch(s, service);
    var m := s.summaries[service];
    assert Star(m, 5) == m.fiveStar && Star(m, 4) == m.fourStar && Star(m, 3) == m.threeStar;
    assert Star(m, 2) == m.twoStar && Star(m, 1) == m.oneStar;
    BucketsAddUp(s.reviews, service);
    RatingBounds(s.reviews, service);
    if m.totalReviews > 0 {
      AverageIsClose(m.totalRating, m.totalReviews);
    }
  }

  lemma {:induction false} BucketsAddUp(reviews: seq<Review>, service: Id)
    ensures Sum(reviews, Starred(service, 5)) + Sum(reviews, Starred(service, 4)) + Sum(reviews, Starred(service, 3))
            + Sum(reviews, Starred(service, 2)) + Sum(reviews, Starred(service, 1))
         == Sum(reviews, Total(service)) == Sum(reviews, Counted(service)) + Sum(reviews, Taken(service))
  {
    if |reviews| > 0 {
      BucketsAddUp(reviews[..|reviews| - 1], service);
    }
  }

  // ----- one review per booking, and three flags

  predicate OnePerBooking(s: Reviews) {
    forall j, k :: 0 <= j < k < |s.reviews| ==> s.reviews[j].booking != s.reviews[k].booking
  }

  /** While the summary matches, a review of a completed booking is accepted exactly when the booking has none, and then
      stands as submitted and moves its own service's summary by one review of its rating, no other's. */
  lemma SubmitExactly(s: Reviews, booking: Id, service: Id, rating: Rating, completed: bool)
    requires Matches(s)
    ensures var (o, s') := Perform(s, Submit(booking, service, rating, completed));
      && (o == Ok <==> completed && forall i :: 0 <= i < |s.reviews| ==> s.reviews[i].booking != booking)
      && (o != Ok ==> s' == s && o == Err(if completed then AlreadyReviewed else NotCompleted))
      && (o == Ok ==>
            && s'.reviews == s.reviews + [Review(booking, service, rating, Published)] && s'.flags == s.flags + [{}]
            && service in s'.summaries
            && s'.summaries[service].totalReviews == Count(s, service) + 1
            && s'.summaries[service].totalRating == RatingSum(s, service) + rating
            && forall other: Id :: other != service ==>
                 (other in s'.summaries <==> other in s.summaries)
                 && (other in s.summaries ==> s'.summaries[other] == s.summaries[other]))
  {
    InsertSucceeds(s, Review(booking, service, rating, Published));
  }

  lemma StepOnePerBooking(s: Reviews, op: Op)
    requires |s.flags| == |s.reviews| && OnePerBooking(s)
    ensures OnePerBooking(Perform(s, op).1)
  {
  }

  /** No run ever reviews a booking twice. */
  lemma {:induction false} RunOnePerBooking(s: Reviews, ops: seq<Op>)
    requires s.Empty()
    ensures OnePerBooking(Run(s, ops))
  {
    if |ops| > 0 {
      RunOnePerBooking(s, ops[..|ops| - 1]);
      StepOnePerBooking(Run(s, ops[..|ops| - 1]), ops[|ops| - 1]);
    }
  }

  /** The users who flagged a review once it was there. */
  function Flaggers(s: Reviews, ops: seq<Op>, i: Id): set<Id>
    requires |s.flags| == |s.reviews|
  {
    if |ops| == 0 then {}
    else
      var before, last := ops[..|ops| - 1], ops[|ops| - 1];
      Flaggers(s, before, i)
        + if last.Flag? && last.review == i && i < |Run(s, before).reviews| then {last.user} else {}
  }

  predicate NoModeration(ops: seq<Op>) { forall k :: 0 <= k < |ops| ==> !ops[k].SetStatus? }

  predicate FlagsAre(s: Reviews, i: Id, users: set<Id>) {
    i < |s.reviews| == |s.flags| && s.flags[i] == users
    && s.reviews[i].status == if |users| >= 3 then Flagged else Published
  }

  lemma StepFlags(s: Reviews, op: Op, i: Id, users: set<Id>)
    requires |s.flags| == |s.reviews| && !op.SetStatus? && |Perform(s, op).1.reviews| > i
    requires if i < |s.reviews| then FlagsAre(s, i, users) else users == {}
    ensures FlagsAre(Perform(s, op).1, i, users + if op.Flag? && op.review == i && i < |s.reviews| then {op.user} else {})
  {
    if op.Flag? && op.review == i && i < |s.reviews| && op.user in users {
      assert users + {op.user} == users;
    }
  }

  lemma {:induction false} NobodyFlagsAhead(s: Reviews, ops: seq<Op>, i: Id)
    requires s.Empty() && i >= |Run(s, ops).reviews|
    ensures Flaggers(s, ops, i) == {}
  {
    if |ops| > 0 {
      ReviewsStay(Run(s, ops[..|ops| - 1]), ops[|ops| - 1]);
      NobodyFlagsAhead(s, ops[..|ops| - 1], i);
    }
  }

  lemma ReviewsStay(s: Reviews, op: Op)
    requires |s.flags| == |s.reviews|
    ensures |s.reviews| <= |Perform(s, op).1.reviews|
  {
  }

  /** Without moderation a review is 'flagged' exactly when at least three users flagged it, each counting once, and
      'published' otherwise. */
  lemma {:induction false} FlaggedExactlyByThree(s: Reviews, ops: seq<Op>, i: Id)
    requires s.Empty() && NoModeration(ops) && i < |Run(s, ops).reviews|
    ensures Run(s, ops).reviews[i].status == if |Flaggers(s, ops, i)| >= 3 then Flagged else Published
    ensures FlagsAre(Run(s, ops), i, Flaggers(s, ops, i))
  {
    var before := ops[..|ops| - 1];
    if i < |Run(s, before).reviews| {
      FlaggedExactlyByThree(s, before, i);
    } else {
      NobodyFlagsAhead(s, before, i);
    }
    StepFlags(Run(s, before), ops[|ops| - 1], i, Flaggers(s, before, i));
  }

  lemma UpdateGoesThrough(s: Reviews, i: Id, user: Id)
    requires |s.flags| == |s.reviews|
    ensures Perform(s, Flag(i, user)).0 == if i >= |s.reviews| then Err(ReviewNotFound)
                                           else if user in s.flags[i] then Err(AlreadyFlagged) else Ok
  {
  }

  /** Without moderation a flag is accepted exactly for a review that is there and a user who has not flagged it. */
  lemma FlagAcceptedExactly(s: Reviews, ops: seq<Op>, i: Id, user: Id)
    requires s.Empty() && NoModeration(ops)
    ensures Perform(Run(s, ops), Flag(i, user)).0
         == if i >= |Run(s, ops).reviews| then Err(ReviewNotFound)
            else if user in Flaggers(s, ops, i) then Err(AlreadyFlagged) else Ok
  {
    hide Run, Flaggers, Update;
    if i < |Run(s, ops).reviews| {
      FlaggedExactlyByThree(s, ops, i);
    }
    UpdateGoesThrough(Run(s, ops), i, user);
  }

  // ----- the tables, written in place

  class ReviewStore {
    var reviews: seq<Review>
    var flags: seq<set<Id>>
    var summaries: map<Id, Summary>

    constructor ()
      ensures State().Empty()
    {
      reviews, flags, summaries := [], [], map[];
    }

    function State(): Reviews
      reads this
    {
      Reviews(reviews, flags, summaries)
    }

    /** INSERT INTO reviews and its trigger: upsert the totals, then bump the star column. */
    method InsertReview(r: Review) returns (o: Outcome)
      modifies this
      ensures var after := AfterInsert(old(summaries), r);
        && o == (if after.Some? then Ok else Err(NumericError))
        && State() == if o == Ok then Reviews(old(reviews) + [r], old(flags) + [{}], after.value) else old(State())
    {
      var m: Summary;
      if r.service in summaries {
        m := summaries[r.service];
        var avg := RoundTenths(m.totalRating + r.rating, m.totalReviews + 1);
        if avg == None {
          return Err(NumericError);
        }
        m := m.(totalReviews := m.totalReviews + 1, totalRating := m.totalRating + r.rating, avgTenths := avg.value);
      } else {
        m := Summary(1, r.rating, 10 * r.rating, 0, 0, 0, 0, 0);
      }
      match r.rating {
        case 5 => m := m.(fiveStar := m.fiveStar + 1);
        case 4 => m := m.(fourStar := m.fourStar + 1);
        case 3 => m := m.(threeStar := m.threeStar + 1);
        case 2 => m := m.(twoStar := m.twoStar + 1);
        case _ => m := m.(oneStar := m.oneStar + 1);
      }
      summaries := summaries[r.service := m];
      reviews, flags := reviews + [r], flags + [{}];
      o := Ok;
    }

    /** UPDATE reviews SET status and its trigger. */
    method UpdateReviewStatus(i: Id, status: ReviewStatus) returns (o: Outcome)
      modifies this`reviews, this`summaries
      ensures (o, State()) == Update(old(State()), i, status)
    {
      if i >= |reviews| {
        return Err(ReviewNotFound);
      }
      var r := reviews[i];
      if r.status != Removed && status == Removed && r.service in summaries {
        var m := summaries[r.service];
        var tenths := 0;
        if m.totalReviews - 1 != 0 {
          var avg := RoundTenths(m.totalRating - r.rating, m.totalReviews - 1);
          if avg == None {
            return Err(NumericError);
          }
          tenths := avg.value;
        }
        summaries := summaries[r.service := m.(totalReviews := Greatest(m.totalReviews - 1, 0),
                                               totalRating := Greatest(m.totalRating - r.rating, 0), avgTenths := tenths)];
      }
      reviews := reviews[i := r.(status := status)];
      o := Ok;
    }

    /** The booking's validation is the caller's: whether it is this customer's and completed. */
    method Submit(booking: Id, service: Id, rating: Rating, completed: bool) returns (o: Outcome)
      requires |flags| == |reviews|
      modifies this
      ensures (o, State()) == Perform(old(State()), Op.Submit(booking, service, rating, completed))
    {
      if !completed {
        return Err(NotCompleted);
      }
      if Reviewed(State(), booking) {
        return Err(AlreadyReviewed);
      }
      o := InsertReview(Review(booking, service, rating, Published));
    }

    method Flag(i: Id, user: Id) returns (o: Outcome)
      requires |flags| == |reviews|
      modifies this
      ensures (o, State()) == Perform(old(State()), Op.Flag(i, user))
    {
      if i >= |reviews| {
        return Err(ReviewNotFound);
      }
      if user in flags[i] {
        return Err(AlreadyFlagged);
      }
      flags := flags[i := flags[i] + {user}];
      var count := |flags[i]|;
      o := Ok;
      if count >= 3 {
        o := UpdateReviewStatus(i, Flagged);
      }
    }
  }
}
