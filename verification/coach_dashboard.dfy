/** The coach home: the coach's own classes, how many are still to come, and
    how many students they hold. */
module CoachDashboard {
  import opened Collections
  import opened GymTypes

  /** The test `c.coachId === coachId`. */
  function TaughtBy(coachId: string): GymClass -> bool
  {
    (c: GymClass) => c.coachId == coachId
  }

  /** The negation of `TaughtBy`, for the classes of the other coaches. */
  function NotTaughtBy(coachId: string): GymClass -> bool
  {
    (c: GymClass) => c.coachId != coachId
  }

  /** `myClasses`: the classes of this coach, in list order. */
  function MyClasses(classes: seq<GymClass>, coachId: string): (r: seq<GymClass>)
    ensures |r| <= |classes|
    ensures forall i :: 0 <= i < |r| ==> r[i].coachId == coachId
    ensures (forall i :: 0 <= i < |classes| ==> classes[i].coachId != coachId) ==> r == []
  {
    Filter(classes, TaughtBy(coachId))
  }

  /** Every occurrence of this coach's classes is kept, and nothing else. */
  lemma {:induction false} MyClassesExactly(classes: seq<GymClass>, coachId: string, c: GymClass)
    ensures multiset(MyClasses(classes, coachId))[c] ==
              if c.coachId == coachId then multiset(classes)[c] else 0
  {
    FilterCount(classes, TaughtBy(coachId), c);
  }

  /** The test `new Date(c.date) >= new Date()`, with the date's timestamp
      given by `dateMs` and the current time by `now`, both in milliseconds. */
  function StartsAtOrAfter(dateMs: string -> int, now: int): GymClass -> bool
  {
    (c: GymClass) => dateMs(c.date) >= now
  }

  /** `upcomingClasses`: how many of the coach's classes are dated now or
      later; never more than the coach has, all of them exactly when every
      one is upcoming, none for no classes. `UpcomingCountSnoc` gives its
      value one class at a time. */
  function UpcomingCount(my: seq<GymClass>, dateMs: string -> int, now: int): (n: nat)
    ensures n <= |my|
    ensures n == |my| <==> forall i :: 0 <= i < |my| ==> dateMs(my[i].date) >= now
    ensures n == 0 <==> forall i :: 0 <= i < |my| ==> dateMs(my[i].date) < now
  {
    UpcomingCountExact(my, dateMs, now);
    UpcomingCountZero(my, dateMs, now);
    |Filter(my, StartsAtOrAfter(dateMs, now))|
  }

  /** Filtering keeps the whole list exactly when every element passes. */
  lemma {:induction false} UpcomingCountExact(my: seq<GymClass>, dateMs: string -> int, now: int)
    ensures |Filter(my, StartsAtOrAfter(dateMs, now))| == |my| <==>
              forall i :: 0 <= i < |my| ==> dateMs(my[i].date) >= now
    decreases |my|
  {
    if |my| > 0 {
      UpcomingCountExact(my[1..], dateMs, now);
      assert forall i :: 1 <= i < |my| ==> my[i] == my[1..][i - 1];
    }
  }

  /** Filtering keeps nothing exactly when no element passes. */
  lemma {:induction false} UpcomingCountZero(my: seq<GymClass>, dateMs: string -> int, now: int)
    ensures |Filter(my, StartsAtOrAfter(dateMs, now))| == 0 <==>
              forall i :: 0 <= i < |my| ==> dateMs(my[i].date) < now
    decreases |my|
  {
    if |my| > 0 {
      UpcomingCountZero(my[1..], dateMs, now);
      assert forall i :: 1 <= i < |my| ==> my[i] == my[1..][i - 1];
    }
  }

  /** One more class adds one to the count exactly when it is dated now or
      later; with the empty list counting 0, this fixes the value for every
      list. */
  lemma {:induction false} UpcomingCountSnoc(my: seq<GymClass>, c: GymClass, dateMs: string -> int, now: int)
    ensures UpcomingCount(my + [c], dateMs, now) ==
            UpcomingCount(my, dateMs, now) + (if dateMs(c.date) >= now then 1 else 0)
  {
    FilterSnoc(my, c, StartsAtOrAfter(dateMs, now));
  }

  /** The positions of the classes dated now or later. */
  ghost function UpcomingAt(my: seq<GymClass>, dateMs: string -> int, now: int): set<int>
  {
    set i | 0 <= i < |my| && dateMs(my[i].date) >= now
  }

  /** One more class adds its position exactly when it is dated now or later. */
  lemma {:induction false} UpcomingAtSnoc(prefix: seq<GymClass>, c: GymClass, dateMs: string -> int, now: int)
    ensures |UpcomingAt(prefix + [c], dateMs, now)| ==
            |UpcomingAt(prefix, dateMs, now)| + (if dateMs(c.date) >= now then 1 else 0)
  {
    var after, before := UpcomingAt(prefix + [c], dateMs, now), UpcomingAt(prefix, dateMs, now);
    assert |prefix| !in before;
    if dateMs(c.date) >= now {
      assert after == before + {|prefix|};
    } else {
      assert after == before;
    }
  }

  /** The count is the number of the coach's classes dated now or later, read
      off the positions. */
  lemma {:induction false} UpcomingCountIsNumberUpcoming(my: seq<GymClass>, dateMs: string -> int, now: int)
    ensures UpcomingCount(my, dateMs, now) == |UpcomingAt(my, dateMs, now)|
    decreases |my|
  {
    if |my| == 0 {
      assert UpcomingAt(my, dateMs, now) == {};
    } else {
      var prefix, c := my[..|my| - 1], my[|my| - 1];
      assert my == prefix + [c];
      UpcomingCountIsNumberUpcoming(prefix, dateMs, now);
      UpcomingCountSnoc(prefix, c, dateMs, now);
      UpcomingAtSnoc(prefix, c, dateMs, now);
    }
  }

  /** `reduce((sum, c) => sum + c.enrolled, 0)`, a left fold. */
  function TotalEnrolled(cs: seq<GymClass>): (total: int)
    decreases |cs|
    ensures (forall i :: 0 <= i < |cs| ==> cs[i].enrolled >= 0) ==> total >= 0
    ensures (forall i :: 0 <= i < |cs| ==> cs[i].enrolled == 0) ==> total == 0
  {
    if |cs| == 0 then 0 else TotalEnrolled(cs[..|cs| - 1]) + cs[|cs| - 1].enrolled
  }

  /** The sum can be taken piecewise. */
  lemma {:induction false} TotalEnrolledConcat(a: seq<GymClass>, b: seq<GymClass>)
    ensures TotalEnrolled(a + b) == TotalEnrolled(a) + TotalEnrolled(b)
    decreases |b|
  {
    if |b| > 0 {
      assert (a + b)[..|a + b| - 1] == a + b[..|b| - 1];
      TotalEnrolledConcat(a, b[..|b| - 1]);
    } else {
      assert a + b == a;
    }
  }

  /** One more class adds its enrolment. */
  lemma {:induction false} TotalEnrolledSnoc(a: seq<GymClass>, x: GymClass)
    ensures TotalEnrolled(a + [x]) == TotalEnrolled(a) + x.enrolled
  {
    assert (a + [x])[..|a|] == a;
  }

  /** Filtering one more class adds its enrolment to the sum exactly when it
      passes. */
  lemma {:induction false} FilterSnocEnrolled(prefix: seq<GymClass>, x: GymClass, p: GymClass -> bool)
    ensures TotalEnrolled(Filter(prefix + [x], p)) ==
            TotalEnrolled(Filter(prefix, p)) + (if p(x) then x.enrolled else 0)
  {
    FilterSnoc(prefix, x, p);
    var f := Filter(prefix, p);
    if p(x) {
      TotalEnrolledSnoc(f, x);
    } else {
      assert f + [] == f;
    }
  }

  /** The students of one coach and those of all the others make up every
      student in the list: no class is counted twice or left out. */
  lemma {:induction false} StudentsSplitByCoach(classes: seq<GymClass>, coachId: string)
    ensures TotalEnrolled(MyClasses(classes, coachId)) +
            TotalEnrolled(Filter(classes, NotTaughtBy(coachId))) == TotalEnrolled(classes)
    decreases |classes|
  {
    if |classes| > 0 {
      var prefix, x := classes[..|classes| - 1], classes[|classes| - 1];
      assert classes == prefix + [x];
      StudentsSplitByCoach(prefix, coachId);
      FilterSnocEnrolled(prefix, x, TaughtBy(coachId));
      FilterSnocEnrolled(prefix, x, NotTaughtBy(coachId));
      TotalEnrolledSnoc(prefix, x);
    }
  }

  /** The three figures on the coach home. */
  datatype CoachStats = CoachStats(upcoming: nat, total: nat, students: int)

  /** The figures for one coach. */
  function Stats(classes: seq<GymClass>, coachId: string, dateMs: string -> int, now: int): (s: CoachStats)
    ensures s.upcoming <= s.total <= |classes|
  {
    var my := MyClasses(classes, coachId);
    CoachStats(UpcomingCount(my, dateMs, now), |my|, TotalEnrolled(my))
  }

  /** A coach with no classes sees zeros everywhere. */
  lemma {:induction false} NoClassesAllZero(classes: seq<GymClass>, coachId: string, dateMs: string -> int, now: int)
    requires forall i :: 0 <= i < |classes| ==> classes[i].coachId != coachId
    ensures Stats(classes, coachId, dateMs, now) == CoachStats(0, 0, 0)
  {
  }
}
