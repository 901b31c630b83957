/** When the wall times of a schedule keep their order as instants. */
module ScheduleOrder {
  // This decides whether the list of occurrences is in order. There are zones in which they do, and one in which
  // they do not.

  import opened Options
  import opened Schedule
  import opened Sweep
  import opened ZonedTime

  // ---- in every window -------------------------------------------------------------------------

  /** A later firing wall time never has an earlier instant. */
  ghost predicate KeepsOrder(s: Schedule, offset: int -> int) {
    forall v, w :: v <= w && FiresAtWall(s, v) && FiresAtWall(s, w) ==> WallToUtc(offset, v) <= WallToUtc(offset, w)
  }

  /** The list ascends strictly in every window exactly when all firing wall times keep their order. */
  lemma AscendsInEveryWindowIff(s: Schedule, offset: int -> int)
    requires Zone(offset) && forall from :: SettledAt(offset, from)
    ensures (forall from, to :: from < to ==> Ascending(Listing(s, offset, from, to))) <==> KeepsOrder(s, offset)
  {
    forall from, to | from < to
      ensures Ascending(Listing(s, offset, from, to)) <==> InOrder(s, offset, from, to)
    {
      ListingAscendsIff(s, offset, from, to);
    }
    if !KeepsOrder(s, offset) {
      var v, w :| v <= w && FiresAtWall(s, v) && FiresAtWall(s, w) && WallToUtc(offset, w) < WallToUtc(offset, v);
      var from, to := WallToUtc(offset, w), WallToUtc(offset, v) + 1;
      assert FiresInside(s, offset, from, to, v) && FiresInside(s, offset, from, to, w);
      assert !InOrder(s, offset, from, to);
    }
  }

  // ---- zones that keep it ----------------------------------------------------------------------

  /** In `[lo, hi)`, within four days the offset rises by no more than the schedule's spacing. */
  ghost predicate Steady(s: Schedule, offset: int -> int, lo: int, hi: int) {
    forall t, u :: lo <= t < hi && lo <= u < hi && -4 * DAY < t - u < 4 * DAY ==> offset(t) - offset(u) <= Spacing(s)
  }

  /** A zone that is steady around the window keeps the order in it, whatever it does elsewhere. */
  lemma SteadyKeepsOrder(s: Schedule, offset: int -> int, from: int, to: int)
    requires Accepted(s) && Zone(offset) && Steady(s, offset, from - 2 * DAY, to + 2 * DAY)
    ensures InOrder(s, offset, from, to)
  {
    forall v, w | v <= w && FiresInside(s, offset, from, to, v) && FiresInside(s, offset, from, to, w)
      ensures WallToUtc(offset, v) <= WallToUtc(offset, w)
    {
      if v < w {
        WallsAreSpaced(s, v, w);
        UtcIsNear(s, offset, v);
        UtcIsNear(s, offset, w);
        var c :| -DAY < c - v < DAY && WallToUtc(offset, v) == v - offset(c);
        var d :| -DAY < d - w < DAY && WallToUtc(offset, w) == w - offset(d);
        assert w - v < 2 * DAY ==> offset(d) - offset(c) <= Spacing(s);
      }
    }
  }

  /** Around two wall times the zone changes once, from `before` to `later`. */
  ghost predicate ChangesOnce(offset: int -> int, v: int, w: int, change: int, before: int, later: int) {
    forall t :: v - DAY <= t <= w + DAY ==> offset(t) == if t < change then before else later
  }

  lemma FiringWallSettles(s: Schedule, offset: int -> int, wall: int, change: int, before: int, later: int)
    requires Zone(offset) && FiresAtWall(s, wall) && OneChange(offset, wall, change, before, later)
    ensures WallToUtc(offset, wall) == wall - OffsetUsed(wall, change, before, later)
  {
    OneChangeSettles(offset, wall, change, before, later);
  }

  /**
   * Exactly when one change of the offset makes a later firing wall time an earlier instant: clocks go forward by
   * more than lies between the two, the first gets the offset of before and the second that of after.
   */
  lemma OneChangeBreaksOrderIff(s: Schedule, offset: int -> int, v: int, w: int, change: int, before: int, later: int)
    requires Zone(offset) && FiresAtWall(s, v) && FiresAtWall(s, w) && v <= w
    requires ChangesOnce(offset, v, w, change, before, later)
    ensures WallToUtc(offset, w) < WallToUtc(offset, v) <==>
            w - v < later - before && OffsetUsed(v, change, before, later) == before && OffsetUsed(w, change, before, later) == later
  {
    FiringWallSettles(s, offset, v, change, before, later);
    FiringWallSettles(s, offset, w, change, before, later);
    PlacesChangeIff(v, w, change, before, later);
  }

  /** So a change that sets clocks back, by however much, keeps the order, and one no longer than the spacing does. */
  lemma OneChangeKeepsOrder(s: Schedule, offset: int -> int, v: int, w: int, change: int, before: int, later: int)
    requires Accepted(s) && Zone(offset) && FiresAtWall(s, v) && FiresAtWall(s, w) && v <= w
    requires ChangesOnce(offset, v, w, change, before, later) && later - before <= Spacing(s)
    ensures WallToUtc(offset, v) <= WallToUtc(offset, w)
  {
    OneChangeBreaksOrderIff(s, offset, v, w, change, before, later);
    if v < w {
      WallsAreSpaced(s, v, w);
    }
  }

  // ---- a zone that does not --------------------------------------------------------------------

  /** Clocks go forward from 1:00 to 3:00, as they do in spring in the zone Antarctica/Troll. */
  function TwoHoursForward(t: int): int {
    if t < HOUR then 0 else 2 * HOUR
  }

  lemma HourlyWall(wall: int) returns (k: int)
    requires FiresAtWall(Hours(1), wall)
    ensures wall == k * 3_600_000
  {
    k := DayOf(wall) * 24 + MinuteOn(wall) / 60;
  }

  lemma HourOfDay(k: int)
    requires -24 <= k < 24
    ensures FiresAtWall(Hours(1), k * 3_600_000)
  {
    var day, minute := if k < 0 then -1 else 0, if k < 0 then (k + 24) * 60 else k * 60;
    assert k * 3_600_000 == Wall(day, minute);
    WallParts(day, minute);
  }

  lemma TwoHoursForwardSettles(wall: int)
    requires wall % SECOND == 0
    ensures Zone(TwoHoursForward)
    ensures WallToUtc(TwoHoursForward, wall) == if wall < HOUR then wall else wall - 2 * HOUR
  {
    assert Zone(TwoHoursForward) by {
      forall t
        ensures TwoHoursForward(t) % SECOND == 0 && -DAY < TwoHoursForward(t) < DAY
      {
      }
    }
    OneChangeSettles(TwoHoursForward, wall, HOUR, 0, 2 * HOUR);
  }

  /** The instant of every hour of that day. */
  lemma HoursSettle(f: Instants, k: int)
    requires AreInstants(f, Hours(1), TwoHoursForward) && -24 <= k < 24
    ensures f(k * 3_600_000) == Some(if k < 1 then k * 3_600_000 else (k - 2) * 3_600_000)
  {
    HourOfDay(k);
    TwoHoursForwardSettles(k * 3_600_000);
    assert f(k * 3_600_000) == InstantAt(Hours(1), TwoHoursForward, k * 3_600_000);
  }

  /** Hours before the first and after the fourth are outside the window. */
  lemma OutsideTheWindow(f: Instants, wall: int)
    requires AreInstants(f, Hours(1), TwoHoursForward) && Hits(f, -3_600_000, 3_600_000, wall)
    ensures wall in [-3_600_000, 0, 3_600_000, 7_200_000]
  {
    assert f(wall) == InstantAt(Hours(1), TwoHoursForward, wall);
    var k := HourlyWall(wall);
    TwoHoursForwardSettles(wall);
    assert -1 <= k <= 2;
  }

  lemma FourHoursAreSwept(f: Instants, lo: int, hi: int)
    requires AreInstants(f, Hours(1), TwoHoursForward) && lo <= -3_600_000 && 7_200_000 < hi
    ensures Swept(f, -3_600_000, 3_600_000, lo, hi) == [-3_600_000, 0, -3_600_000, 0]
  {
    var from, to, places := -3_600_000, 3_600_000, [-3_600_000, 0, 3_600_000, 7_200_000];
    forall wall | Hits(f, from, to, wall)
      ensures wall in places
    {
      OutsideTheWindow(f, wall);
    }
    SweptSkips(f, from, to, lo, lo, from);
    SweptSkips(f, from, to, lo, 7_200_001, hi);
    HoursSettle(f, -1);
    HoursSettle(f, 0);
    HoursSettle(f, 1);
    HoursSettle(f, 2);
    SweptSkips(f, from, to, lo, -3_599_999, 0);
    SweptSkips(f, from, to, lo, 1, 3_600_000);
    SweptSkips(f, from, to, lo, 3_600_001, 7_200_000);
  }

  lemma TwoHoursForwardIsAZone()
    ensures Zone(TwoHoursForward) && forall from :: SettledAt(TwoHoursForward, from)
  {
    TwoHoursForwardSettles(0);
  }

  /**
   * An hourly schedule there, asked for the two hours around that night: two instants, each listed twice and
   * not in order, though the zone is an ordinary one.
   */
  lemma TwoHoursForwardListsTwice()
    ensures Zone(TwoHoursForward) && SettledAt(TwoHoursForward, -3_600_000)
    ensures Listing(Hours(1), TwoHoursForward, -3_600_000, 3_600_000) == [-3_600_000, 0, -3_600_000, 0]
    ensures !InOrder(Hours(1), TwoHoursForward, -3_600_000, 3_600_000)
  {
    var from, to, offset := -3_600_000, 3_600_000, TwoHoursForward;
    TwoHoursForwardIsAZone();
    FourHoursAreSwept(InstantsOf(Hours(1), offset), WalkStart(offset, from), WalkEnd(offset, from, to));
    var list := Listing(Hours(1), offset, from, to);
    assert list[1] > list[2];
    ListingAscendsIff(Hours(1), offset, from, to);
  }

  // ---- a run that is passed over ---------------------------------------------------------------

  /** From a day before `v` to two days after `to`, the zone changes once. */
  ghost predicate ChangesOnceUpTo(offset: int -> int, v: int, to: int, change: int, before: int, later: int) {
    forall t :: v - DAY <= t <= to + 2 * DAY ==> offset(t) == if t < change then before else later
  }

  /** `w` is passed over for `v` by that change. */
  predicate Overtakes(v: int, w: int, change: int, before: int, later: int) {
    v < w && w - v < later - before && OffsetUsed(v, change, before, later) == before && OffsetUsed(w, change, before, later) == later
  }

  /**
   * Around one change of the offset, the run that is listed first is not the next one exactly when clocks go
   * forward by more than lies between its wall time and that of another run in the window, and only the other
   * gets the later offset.
   */
  lemma NextIsMissedIff(s: Schedule, offset: int -> int, after: int, v: int, change: int, before: int, later: int)
    requires !s.Once? && Zone(offset) && FirstInside(s, offset, after + 1, SearchEnd(after), v)
    requires ChangesOnceUpTo(offset, v, SearchEnd(after), change, before, later)
    ensures !IsNext(s, offset, after, WallToUtc(offset, v)) <==>
            exists w :: FiresInside(s, offset, after + 1, SearchEnd(after), w) && Overtakes(v, w, change, before, later)
  {
    var to := SearchEnd(after);
    FirstIsNextIff(s, offset, after, to, v);
    forall w | FiresInside(s, offset, after + 1, to, w)
      ensures WallToUtc(offset, w) < WallToUtc(offset, v) <==> Overtakes(v, w, change, before, later)
    {
      InsideIsNear(s, offset, after + 1, to, w);
      OneChangeBreaksOrderIff(s, offset, v, w, change, before, later);
    }
  }

  lemma InsideIsNear(s: Schedule, offset: int -> int, from: int, to: int, w: int)
    requires Zone(offset) && FiresInside(s, offset, from, to, w)
    ensures w < to + DAY
  {
    UtcIsNear(s, offset, w);
  }

  /** Clocks go forward by three hours at 00:01, as they did in the zone Antarctica/Casey in October 2020. */
  function ThreeHoursForward(t: int): int {
    if t < MINUTE - 8 * HOUR then 8 * HOUR else 11 * HOUR
  }

  lemma ThreeHoursForwardSettles(wall: int)
    requires wall % SECOND == 0
    ensures Zone(ThreeHoursForward) && forall from :: SettledAt(ThreeHoursForward, from)
    ensures WallToUtc(ThreeHoursForward, wall) == wall - OffsetUsed(wall, MINUTE - 8 * HOUR, 8 * HOUR, 11 * HOUR)
  {
    assert Zone(ThreeHoursForward) by {
      forall t: int
        ensures ThreeHoursForward(t) % SECOND == 0 && -DAY < ThreeHoursForward(t) < DAY
      {
      }
    }
    OneChangeSettles(ThreeHoursForward, wall, MINUTE - 8 * HOUR, 8 * HOUR, 11 * HOUR);
  }

  lemma EvenHourFires(k: int)
    requires k == 0 || k == 2
    ensures FiresAtWall(Hours(2), k * 3_600_000)
  {
    assert k * 3_600_000 == Wall(0, k * 60);
    WallParts(0, k * 60);
  }

  lemma EvenHourOnly(wall: int)
    requires FiresAtWall(Hours(2), wall) && wall < 0
    ensures wall <= -7_200_000 && wall % SECOND == 0
  {
    var hour := MinuteOn(wall) / 60;
    assert wall == (DayOf(wall) * 24 + hour) * 3_600_000 && hour % 2 == 0;
    assert DayOf(wall) * 24 + hour < 0;
  }

  /** Midnight is the first wall time of the nine days after 22:00. */
  lemma MidnightIsFirst(after: int)
    requires after == -36_000_000
    ensures FirstInside(Hours(2), ThreeHoursForward, after + 1, SearchEnd(after), 0)
  {
    var s, offset, from, to := Hours(2), ThreeHoursForward, after + 1, SearchEnd(after);
    EvenHourFires(0);
    ThreeHoursForwardSettles(0);
    forall v | FiresInside(s, offset, from, to, v)
      ensures 0 <= v
    {
      if v < 0 {
        EvenHourOnly(v);
        ThreeHoursForwardSettles(v);
      }
    }
  }

  // ---- asking again and again ------------------------------------------------------------------

  /** Run `i` is what `nextOccurrence` answers when it is asked after the one before. */
  ghost predicate Follows(s: Schedule, offset: int -> int, runs: seq<int>, i: int) {
    0 < i < |runs| && BeginsRuns(s, offset, runs[i - 1], runs[i])
  }

  ghost predicate Armed(s: Schedule, offset: int -> int, runs: seq<int>) {
    forall i :: 0 < i < |runs| ==> Follows(s, offset, runs, i)
  }

  ghost predicate Missed(s: Schedule, offset: int -> int, runs: seq<int>, u: int) {
    runs != [] && Fires(s, offset, u) && runs[0] < u <= runs[|runs| - 1] && u !in runs
  }

  /** When run `i` is asked for, a later wall time overtakes the first of the nine days. */
  ghost predicate OvertakenAt(s: Schedule, offset: int -> int, runs: seq<int>, i: int) {
    0 < i < |runs| && !NoneOvertakes(s, offset, runs[i - 1] + 1, SearchEnd(runs[i - 1]))
  }

  lemma {:induction false} ArmedAscends(s: Schedule, offset: int -> int, runs: seq<int>, i: nat, j: nat)
    requires Armed(s, offset, runs) && i < j < |runs|
    ensures runs[i] < runs[j]
  {
    assert Follows(s, offset, runs, j);
    if i < j - 1 {
      ArmedAscends(s, offset, runs, i, j - 1);
    }
  }

  /** An instant between two runs is not among the runs. */
  lemma BetweenIsMissed(s: Schedule, offset: int -> int, runs: seq<int>, i: int, u: int)
    requires Armed(s, offset, runs) && 0 < i < |runs| && runs[i - 1] < u < runs[i] && Fires(s, offset, u)
    ensures Missed(s, offset, runs, u)
  {
    forall k | 0 <= k < |runs|
      ensures runs[k] != u
    {
      if k < i - 1 {
        ArmedAscends(s, offset, runs, k, i - 1);
      } else if k > i {
        ArmedAscends(s, offset, runs, i, k);
      }
    }
    if 0 < i - 1 {
      ArmedAscends(s, offset, runs, 0, i - 1);
    }
    if i < |runs| - 1 {
      ArmedAscends(s, offset, runs, i, |runs| - 1);
    }
  }

  lemma {:induction false} MissedIsBetween(s: Schedule, offset: int -> int, runs: seq<int>, u: int, n: nat) returns (i: int)
    requires n < |runs| && runs[0] < u <= runs[n] && u !in runs
    ensures 0 < i <= n && runs[i - 1] < u < runs[i]
  {
    assert runs[n] in runs;
    if u <= runs[n - 1] {
      i := MissedIsBetween(s, offset, runs, u, n - 1);
    } else {
      i := n;
    }
  }

  /** Asking for the next run again and again misses one exactly when an answer was overtaken. */
  lemma ARunIsMissedIff(s: Schedule, offset: int -> int, runs: seq<int>)
    requires !s.Once? && Armed(s, offset, runs)
    ensures (exists u :: Missed(s, offset, runs, u)) <==> exists i :: OvertakenAt(s, offset, runs, i)
  {
    if u :| Missed(s, offset, runs, u) {
      var i := MissedIsBetween(s, offset, runs, u, |runs| - 1);
      assert Follows(s, offset, runs, i) && !IsNext(s, offset, runs[i - 1], runs[i]);
      assert OvertakenAt(s, offset, runs, i);
    }
    if i :| OvertakenAt(s, offset, runs, i) {
      assert Follows(s, offset, runs, i) && !IsNext(s, offset, runs[i - 1], runs[i]);
      var u :| Fires(s, offset, u) && runs[i - 1] < u && u < runs[i];
      BetweenIsMissed(s, offset, runs, i, u);
    }
  }

  /** A run that fires before the one listed first is missed for good. */
  lemma PassedOverIsMissed(s: Schedule, offset: int -> int, after: int, wall: int, u: int)
    requires Accepted(s) && !s.Once? && Zone(offset) && SettledAt(offset, after + 1)
    requires FirstInside(s, offset, after + 1, SearchEnd(after), wall)
    requires Fires(s, offset, u) && after < u < WallToUtc(offset, wall)
    ensures var first := WallToUtc(offset, wall);
            BeginsRuns(s, offset, after, first) && Armed(s, offset, [after, first]) && Missed(s, offset, [after, first], u)
    ensures var list := Listing(s, offset, after + 1, SearchEnd(after)); list != [] && list[0] == WallToUtc(offset, wall)
  {
    FirstListed(s, offset, after);
    var list := Listing(s, offset, after + 1, SearchEnd(after));
    var v :| FirstInside(s, offset, after + 1, SearchEnd(after), v) && list[0] == WallToUtc(offset, v);
    assert v == wall;
    assert Follows(s, offset, [after, list[0]], 1);
  }

  /** The run of midnight is 16:00 in UTC, and that of 2:00 is 15:00. */
  lemma TwoIsBeforeMidnight()
    ensures WallToUtc(ThreeHoursForward, 0) == -28_800_000 && WallToUtc(ThreeHoursForward, 7_200_000) == -32_400_000
    ensures Fires(Hours(2), ThreeHoursForward, -32_400_000)
  {
    ThreeHoursForwardSettles(0);
    ThreeHoursForwardSettles(7_200_000);
    EvenHourFires(2);
  }

  /**
   * A run every two hours in that zone: asked after 22:00 of the evening before, the walk lists the run of
   * midnight first, which is 16:00 in UTC, and so that of 2:00, which is 15:00, is missed for good.
   */
  lemma ThreeHoursForwardMissesARun(s: Schedule, after: int, first: int, missed: int)
    requires s == Hours(2) && after == -36_000_000 && first == -28_800_000 && missed == -32_400_000
    ensures Zone(ThreeHoursForward) && SettledAt(ThreeHoursForward, after + 1)
    ensures var list := Listing(s, ThreeHoursForward, after + 1, SearchEnd(after)); list != [] && list[0] == first
    ensures Armed(s, ThreeHoursForward, [after, first]) && Missed(s, ThreeHoursForward, [after, first], missed)
  {
    ThreeHoursForwardSettles(0);
    TwoIsBeforeMidnight();
    MidnightIsFirst(after);
    PassedOverIsMissed(s, ThreeHoursForward, after, 0, missed);
  }
}
