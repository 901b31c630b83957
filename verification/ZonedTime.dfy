/** Wall clock time in a zone. */
module ZonedTime {
  // An instant is a number of milliseconds since 1970 in UTC; a wall time is the same number read off a clock
  // in the zone. `offset(t)` is how far that clock is ahead of UTC at `t`.

  const SECOND := 1_000
  const MINUTE := 60_000
  const HOUR := 3_600_000
  const DAY := 86_400_000

  /** What every zone keeps to: whole seconds, and less than a day from UTC. */
  ghost predicate Zone(offset: int -> int) {
    forall t :: offset(t) % SECOND == 0 && -DAY < offset(t) < DAY
  }

  /** The clock in the zone shows whole seconds. */
  function Shown(offset: int -> int, t: int): int {
    (t + offset(t)) / 1_000 * 1_000
  }

  /** ISO weekday of a day counted from Thursday, 1 January 1970: Monday is 1. */
  function Weekday(day: int): nat {
    (day + 3) % 7 + 1
  }

  /** The first day is a Thursday, and after a Sunday comes a Monday. */
  lemma WeekdaysFollow(day: int)
    ensures Weekday(0) == 4 && 1 <= Weekday(day) <= 7
    ensures Weekday(day + 1) == if Weekday(day) == 7 then 1 else Weekday(day) + 1
  {
  }

  function Settle(offset: int -> int, wall: int, candidate: int, turns: nat): int
    decreases turns
  {
    if turns == 0 then candidate
    else
      var next := wall - (Shown(offset, candidate) - candidate);
      if -SECOND < next - candidate < SECOND then next else Settle(offset, wall, next, turns - 1)
  }

  /** The instant at which the zone's clock reads `wall`. */
  function WallToUtc(offset: int -> int, wall: int): int {
    Settle(offset, wall, wall, 3)
  }

  method ZonedWallTimeToUtc(offset: int -> int, wall: int) returns (utc: int)
    ensures utc == WallToUtc(offset, wall)
  {
    var candidate := wall;
    for i := 0 to 3
      invariant WallToUtc(offset, wall) == Settle(offset, wall, candidate, 3 - i)
    {
      var next := wall - (Shown(offset, candidate) - candidate);
      if -SECOND < next - candidate < SECOND {
        return next;
      }
      candidate := next;
    }
    return candidate;
  }

  lemma ShownInWholeSeconds(offset: int -> int, t: int)
    requires Zone(offset) && t % SECOND == 0
    ensures Shown(offset, t) == t + offset(t)
  {
  }

  /** One turn reads the offset at an instant within a day of the wall time. */
  lemma {:induction false} SettleReadsNearby(offset: int -> int, wall: int, candidate: int, turns: nat)
    requires Zone(offset) && wall % SECOND == 0 && candidate % SECOND == 0 && turns > 0
    requires -DAY < candidate - wall < DAY
    ensures exists c :: -DAY < c - wall < DAY && Settle(offset, wall, candidate, turns) == wall - offset(c)
    decreases turns
  {
    var next := wall - offset(candidate);
    OneTurn(offset, wall, candidate, next, turns);
    if next - candidate != 0 && turns > 1 {
      SettleReadsNearby(offset, wall, next, turns - 1);
    } else {
      assert Settle(offset, wall, candidate, turns) == next;
    }
  }

  /** The zone has one change within a day of `wall`: from `before` to `later`, at `change`. */
  ghost predicate OneChange(offset: int -> int, wall: int, change: int, before: int, later: int) {
    forall t :: -DAY <= t - wall <= DAY ==> offset(t) == if t < change then before else later
  }

  lemma OneTurn(offset: int -> int, wall: int, candidate: int, next: int, turns: nat)
    requires Zone(offset) && wall % SECOND == 0 && candidate % SECOND == 0 && turns > 0
    requires next == wall - offset(candidate)
    ensures next % SECOND == 0
    ensures Settle(offset, wall, candidate, turns) == if next == candidate then next else Settle(offset, wall, next, turns - 1)
  {
    ShownInWholeSeconds(offset, candidate);
  }

  /** The three turns, in terms of the zone's offset. */
  lemma Turns(offset: int -> int, wall: int, first: int, second: int)
    requires Zone(offset) && wall % SECOND == 0
    requires first == wall - offset(wall) && second == wall - offset(first)
    ensures WallToUtc(offset, wall)
         == if first == wall then first else if second == first then second else wall - offset(second)
  {
    OneTurn(offset, wall, wall, first, 3);
    OneTurn(offset, wall, first, second, 2);
    OneTurn(offset, wall, second, wall - offset(second), 1);
  }

  /** Which of two offsets a wall time gets: the one both agree on, and else the one in force at `wall` as if in UTC. */
  function OffsetUsed(wall: int, change: int, before: int, later: int): int {
    if wall - before < change && wall - later < change then before
    else if change <= wall - before && change <= wall - later then later
    else if wall < change then before else later
  }

  lemma OneChangeSettles(offset: int -> int, wall: int, change: int, before: int, later: int)
    requires Zone(offset) && wall % SECOND == 0 && OneChange(offset, wall, change, before, later)
    ensures WallToUtc(offset, wall) == wall - OffsetUsed(wall, change, before, later)
  {
    var first := wall - offset(wall);
    Turns(offset, wall, first, wall - offset(first));
  }

  /** Two wall times change places exactly when clocks go forward by more than lies between them, and the earlier
      one gets the offset of before. */
  lemma PlacesChangeIff(v: int, w: int, change: int, before: int, later: int)
    requires v <= w
    ensures w - OffsetUsed(w, change, before, later) < v - OffsetUsed(v, change, before, later) <==>
            w - v < later - before && OffsetUsed(v, change, before, later) == before && OffsetUsed(w, change, before, later) == later
  {
  }

  /** A wall time the clock does show is turned into an instant at which it shows it. */
  lemma ReadsBack(offset: int -> int, wall: int, change: int, before: int, later: int, t: int)
    requires Zone(offset) && wall % SECOND == 0 && OneChange(offset, wall, change, before, later)
    requires t + offset(t) == wall
    ensures var utc := WallToUtc(offset, wall); utc + offset(utc) == wall
  {
    assert -DAY < t - wall < DAY;
    var first := wall - offset(wall);
    Turns(offset, wall, first, wall - offset(first));
  }

  /** A wall time the clock skips settles on an instant that shows a time one gap earlier or later. */
  lemma SkippedTimeMovesByTheGap(offset: int -> int, wall: int, change: int, before: int, later: int)
    requires Zone(offset) && wall % SECOND == 0 && OneChange(offset, wall, change, before, later)
    requires forall t :: t + offset(t) != wall
    ensures change + before <= wall < change + later
    ensures var utc, gap := WallToUtc(offset, wall), later - before;
            utc + offset(utc) == wall + if utc < change then -gap else gap
  {
    var first := wall - offset(wall);
    var second := wall - offset(first);
    Turns(offset, wall, first, second);
    assert first + offset(first) != wall && second + offset(second) != wall;
  }
}
