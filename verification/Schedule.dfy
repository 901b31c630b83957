/** When a schedule fires. */
module Schedule {
  // The walk over calendar days, the window it is asked about, and the next run.

  import opened Options
  import opened Sweep
  import opened ZonedTime

  /** A schedule with its defaults filled in. `once` carries the instant its own zone gives, if any. */
  datatype Schedule =
    | Daily(hour: int, minute: int)
    | Weekdays(hour: int, minute: int)
    | Weekly(day: int, hour: int, minute: int)
    | Hours(every: int)
    | Once(at: Option<int>)

  predicate Accepted(s: Schedule) {
    match s
    case Daily(hour, minute) => 0 <= hour < 24 && 0 <= minute < 60
    case Weekdays(hour, minute) => 0 <= hour < 24 && 0 <= minute < 60
    case Weekly(day, hour, minute) => 1 <= day <= 7 && 0 <= hour < 24 && 0 <= minute < 60
    case Hours(every) => every in {1, 2, 3, 4, 6, 8, 12}
    case Once(_) => true
  }

  /** Every time of day and weekday is accepted, and for hours the steps that divide a day into two runs or more. */
  lemma AcceptsEveryShape(hour: int, minute: int, day: int, every: int, at: Option<int>)
    ensures Accepted(Daily(hour, minute)) <==> 0 <= hour <= 23 && 0 <= minute <= 59
    ensures Accepted(Weekdays(hour, minute)) <==> Accepted(Daily(hour, minute))
    ensures Accepted(Weekly(day, hour, minute)) <==> 1 <= day <= 7 && Accepted(Daily(hour, minute))
    ensures Accepted(Hours(every)) <==> 1 <= every <= 12 && 24 % every == 0
    ensures Accepted(Once(at))
  {
  }

  datatype Time = Time(hour: int, minute: int)

  function MinuteOf(t: Time): int {
    t.hour * 60 + t.minute
  }

  // ---- what it means to fire -------------------------------------------------------------------

  /** Whether a repeating schedule fires at a minute of a day with this weekday. */
  predicate FiresOn(s: Schedule, weekday: int, minute: int) {
    0 <= minute < 1440 &&
    match s
    case Daily(h, m) => minute == h * 60 + m
    case Weekdays(h, m) => weekday <= 5 && minute == h * 60 + m
    case Weekly(day, h, m) => weekday == day && minute == h * 60 + m
    case Hours(every) => minute % 60 == 0 && every != 0 && minute / 60 % every == 0
    case Once(_) => false
  }

  /** The wall time `minute` of day `day`. */
  function Wall(day: int, minute: int): int {
    day * DAY + minute * MINUTE
  }

  function DayOf(wall: int): int {
    wall / DAY
  }

  function MinuteOn(wall: int): int {
    (wall - DayOf(wall) * DAY) / MINUTE
  }

  predicate FiresAtWall(s: Schedule, wall: int) {
    wall == Wall(DayOf(wall), MinuteOn(wall)) && FiresOn(s, Weekday(DayOf(wall)), MinuteOn(wall))
  }

  ghost predicate Fires(s: Schedule, offset: int -> int, t: int) {
    match s
    case Once(at) => at == Some(t)
    case _ => exists wall :: FiresAtWall(s, wall) && WallToUtc(offset, wall) == t
  }

  /** No two wall times of the schedule are closer than this. */
  function Spacing(s: Schedule): int {
    if s.Hours? then s.every * HOUR else DAY
  }

  lemma WallParts(day: int, minute: int)
    requires 0 <= minute < 1440
    ensures DayOf(Wall(day, minute)) == day && MinuteOn(Wall(day, minute)) == minute
  {
  }

  /** A slot of an `hours` schedule is a whole number of steps, and leaves room for one more in its day. */
  lemma HourSlot(every: int, weekday: int, minute: int)
    requires every in {1, 2, 3, 4, 6, 8, 12} && FiresOn(Hours(every), weekday, minute)
    ensures exists k: nat :: minute == k * every * 60 && k < 24 / every
  {
    var hour := minute / 60;
    assert minute == 60 * hour && hour == hour / every * every;
    assert hour / every < 24 / every;
  }

  lemma SlotsAreSpaced(every: int, weekday: int, other: int, minute: int, later: int)
    requires every in {1, 2, 3, 4, 6, 8, 12}
    requires FiresOn(Hours(every), weekday, minute) && FiresOn(Hours(every), other, later)
    ensures later <= 1440 - every * 60
    ensures minute < later ==> later - minute >= every * 60
  {
    HourSlot(every, weekday, minute);
    HourSlot(every, other, later);
    var k: nat :| minute == k * every * 60 && k < 24 / every;
    var l: nat :| later == l * every * 60 && l < 24 / every;
    assert l * every <= 24 - every;
    assert later - minute == (l - k) * every * 60;
    if minute < later {
      assert (l - k) * every >= every;
    }
  }

  lemma WallsAreSpaced(s: Schedule, v: int, w: int)
    requires Accepted(s) && FiresAtWall(s, v) && FiresAtWall(s, w) && v < w
    ensures w - v >= Spacing(s)
  {
    var days := DayOf(w) - DayOf(v);
    assert w - v == days * DAY + (MinuteOn(w) - MinuteOn(v)) * MINUTE;
    assert days >= 0;
    if s.Hours? {
      SlotsAreSpaced(s.every, Weekday(DayOf(v)), Weekday(DayOf(w)), MinuteOn(v), MinuteOn(w));
      SlotsAreSpaced(s.every, Weekday(DayOf(w)), Weekday(DayOf(v)), MinuteOn(w), MinuteOn(v));
      if days == 0 {
        assert MinuteOn(v) < MinuteOn(w);
      }
    }
  }

  /** An instant comes from a wall time less than a day away, by an offset read near it. */
  lemma UtcIsNear(s: Schedule, offset: int -> int, wall: int)
    requires Zone(offset) && FiresAtWall(s, wall)
    ensures exists c :: -DAY < c - wall < DAY && WallToUtc(offset, wall) == wall - offset(c)
  {
    SettleReadsNearby(offset, wall, wall, 3);
  }

  // ---- the list of occurrences -----------------------------------------------------------------

  /** How many occurrences a list may hold: a repeating schedule reads the limit only after adding one. */
  function Cap(s: Schedule, limit: int): nat {
    if limit > 0 then limit else if s.Once? then 0 else 1
  }

  /** `t` is listed, or the list is full and `t` comes after it. */
  predicate ListedOrCut(out: seq<int>, cap: nat, t: int) {
    t in out || (|out| == cap && (out == [] || out[|out| - 1] < t))
  }

  /** `out` is the ascending list of the instants in `[from, to)` at which `s` fires, cut to the first `cap`. */
  ghost predicate Lists(out: seq<int>, s: Schedule, offset: int -> int, from: int, to: int, cap: nat) {
    && Ascending(out) && |out| <= cap
    && (forall t :: t in out ==> from <= t < to && Fires(s, offset, t))
    && (forall t :: from <= t < to && Fires(s, offset, t) ==> ListedOrCut(out, cap, t))
  }

  /** The instant of a wall time at which the schedule fires. */
  function InstantAt(s: Schedule, offset: int -> int, wall: int): Option<int> {
    if FiresAtWall(s, wall) then Some(WallToUtc(offset, wall)) else None
  }

  /** `f` gives every firing wall time its instant. */
  ghost predicate AreInstants(f: Instants, s: Schedule, offset: int -> int) {
    forall wall {:trigger InstantAt(s, offset, wall)} :: f(wall) == InstantAt(s, offset, wall)
  }

  function InstantsOf(s: Schedule, offset: int -> int): (f: Instants)
    ensures AreInstants(f, s, offset)
  {
    wall => InstantAt(s, offset, wall)
  }

  /** Of all firing wall times with instants in the window, a later one never has an earlier instant. */
  ghost predicate InOrder(s: Schedule, offset: int -> int, from: int, to: int) {
    forall v, w :: v <= w && FiresInside(s, offset, from, to, v) && FiresInside(s, offset, from, to, w) ==>
      WallToUtc(offset, v) <= WallToUtc(offset, w)
  }

  predicate FiresInside(s: Schedule, offset: int -> int, from: int, to: int, wall: int) {
    FiresAtWall(s, wall) && from <= WallToUtc(offset, wall) < to
  }

  // ---- the days walked -------------------------------------------------------------------------

  function StartDay(offset: int -> int, from: int): int {
    DayOf(Shown(offset, from))
  }

  function DayCount(from: int, to: int): int {
    (to - from + DAY - 1) / DAY + 2
  }

  function WalkStart(offset: int -> int, from: int): int {
    Wall(StartDay(offset, from) - 1, 0)
  }

  function WalkEnd(offset: int -> int, from: int, to: int): int {
    Wall(StartDay(offset, from) + DayCount(from, to) + 1, 0)
  }

  /** Everything the walk lists when no limit stops it. */
  function Listing(s: Schedule, offset: int -> int, from: int, to: int): seq<int> {
    Swept(InstantsOf(s, offset), from, to, WalkStart(offset, from), WalkEnd(offset, from, to))
  }

  function Cut(out: seq<int>, cap: nat): seq<int> {
    if |out| <= cap then out else out[..cap]
  }

  /** Cutting to a positive limit leaves the first ones, as many as the limit or else all. */
  lemma CutToTheLimit(s: Schedule, all: seq<int>, limit: int)
    requires limit > 0
    ensures var out := Cut(all, Cap(s, limit)); out <= all && |out| == if |all| < limit then |all| else limit
  {
  }

  /** Near the start of a window the zone's offset never falls by more than a day. */
  ghost predicate SettledAt(offset: int -> int, from: int) {
    forall c :: -3 * DAY < c - from < 3 * DAY ==> offset(from) - offset(c) <= DAY
  }

  /** Wall times outside the days walked are instants outside the window. */
  lemma WalkIsWide(s: Schedule, offset: int -> int, from: int, to: int, wall: int)
    requires Zone(offset) && SettledAt(offset, from) && from < to && FiresInside(s, offset, from, to, wall)
    ensures WalkStart(offset, from) <= wall < WalkEnd(offset, from, to)
  {
    var utc := WallToUtc(offset, wall);
    UtcIsNear(s, offset, wall);
    var c :| -DAY < c - wall < DAY && utc == wall - offset(c);
    StartIsBefore(offset, from);
    assert DayCount(from, to) * DAY >= to - from + 2 * DAY;
    assert wall < WalkStart(offset, from) ==> -3 * DAY < c - from < 3 * DAY;
  }

  lemma StartIsBefore(offset: int -> int, from: int)
    ensures StartDay(offset, from) * DAY <= from + offset(from) < (StartDay(offset, from) + 1) * DAY
  {
    var shown := Shown(offset, from);
    assert shown % SECOND == 0 && shown <= from + offset(from) < shown + SECOND;
    assert StartDay(offset, from) * DAY <= shown < (StartDay(offset, from) + 1) * DAY;
  }

  /** In any zone the walk's list holds exactly the instants of the window at which the schedule fires. */
  lemma ListingHolds(s: Schedule, offset: int -> int, from: int, to: int, t: int)
    requires !s.Once? && Zone(offset) && SettledAt(offset, from) && from < to
    ensures t in Listing(s, offset, from, to) <==> from <= t < to && Fires(s, offset, t)
  {
    var f, lo, hi := InstantsOf(s, offset), WalkStart(offset, from), WalkEnd(offset, from, to);
    SweptHolds(f, from, to, lo, hi, t);
    if t in Listing(s, offset, from, to) {
      var wall :| lo <= wall < hi && Hits(f, from, to, wall) && f(wall).value == t;
      assert InstantAt(s, offset, wall) == f(wall);
    }
    if from <= t < to && Fires(s, offset, t) {
      var wall :| FiresAtWall(s, wall) && WallToUtc(offset, wall) == t;
      assert f(wall) == InstantAt(s, offset, wall) == Some(t);
      WalkIsWide(s, offset, from, to, wall);
    }
  }

  lemma OrderOverTheWalk(s: Schedule, offset: int -> int, from: int, to: int)
    requires Zone(offset) && SettledAt(offset, from) && from < to
    ensures InOrderOver(InstantsOf(s, offset), from, to, WalkStart(offset, from), WalkEnd(offset, from, to)) <==> InOrder(s, offset, from, to)
  {
    var f, lo, hi := InstantsOf(s, offset), WalkStart(offset, from), WalkEnd(offset, from, to);
    forall wall
      ensures FiresInside(s, offset, from, to, wall) <==> Hits(f, from, to, wall)
      ensures FiresInside(s, offset, from, to, wall) ==> lo <= wall < hi && f(wall).value == WallToUtc(offset, wall)
    {
      assert f(wall) == InstantAt(s, offset, wall);
      if FiresInside(s, offset, from, to, wall) {
        WalkIsWide(s, offset, from, to, wall);
      }
    }
  }

  /** It ascends strictly, and so lists nothing twice, exactly when the wall times of the window are in order. */
  lemma ListingAscendsIff(s: Schedule, offset: int -> int, from: int, to: int)
    requires Zone(offset) && SettledAt(offset, from) && from < to
    ensures Ascending(Listing(s, offset, from, to)) <==> InOrder(s, offset, from, to)
  {
    SweptAscendsIff(InstantsOf(s, offset), from, to, WalkStart(offset, from), WalkEnd(offset, from, to));
    OrderOverTheWalk(s, offset, from, to);
  }

  lemma CutKeepsTheFirst(all: seq<int>, cap: nat)
    requires Ascending(all)
    ensures Ascending(Cut(all, cap)) && |Cut(all, cap)| <= cap
    ensures forall t :: t in Cut(all, cap) ==> t in all
    ensures forall t :: t in all ==> ListedOrCut(Cut(all, cap), cap, t)
  {
    forall t | t in all
      ensures ListedOrCut(Cut(all, cap), cap, t)
    {
      var i :| 0 <= i < |all| && all[i] == t;
      assert i < cap && |all| > cap ==> all[..cap][i] == t;
    }
  }

  /** Cut to the limit or not, it is then the list that was asked for, and only then when it is not cut. */
  lemma ListingIsTheListIff(s: Schedule, offset: int -> int, from: int, to: int, cap: nat)
    requires !s.Once? && Zone(offset) && SettledAt(offset, from) && from < to
    ensures InOrder(s, offset, from, to) ==> Lists(Cut(Listing(s, offset, from, to), cap), s, offset, from, to, cap)
    ensures |Listing(s, offset, from, to)| <= cap ==>
              (Lists(Listing(s, offset, from, to), s, offset, from, to, cap) <==> InOrder(s, offset, from, to))
  {
    var all := Listing(s, offset, from, to);
    ListingAscendsIff(s, offset, from, to);
    forall t
      ensures t in all <==> from <= t < to && Fires(s, offset, t)
    {
      ListingHolds(s, offset, from, to, t);
    }
    if InOrder(s, offset, from, to) {
      CutKeepsTheFirst(all, cap);
    }
  }

  // ---- the walk --------------------------------------------------------------------------------

  /** A list of times of one day, in order, with none missing. */
  ghost predicate TimesOfDay(times: seq<Time>, s: Schedule, weekday: int) {
    && (forall i :: 0 <= i < |times| ==> FiresOn(s, weekday, MinuteOf(times[i])))
    && (forall i, j :: 0 <= i < j < |times| ==> MinuteOf(times[i]) < MinuteOf(times[j]))
    && (forall minute :: FiresOn(s, weekday, minute) ==> exists i :: 0 <= i < |times| && MinuteOf(times[i]) == minute)
  }

  lemma HourlyTimes(times: seq<Time>, every: int, weekday: int)
    requires Accepted(Hours(every)) && 24 <= |times| * every < 24 + every
    requires forall i :: 0 <= i < |times| ==> times[i] == Time(i * every, 0)
    ensures TimesOfDay(times, Hours(every), weekday)
  {
    assert |times| == 24 / every;
    forall i | 0 <= i < |times|
      ensures FiresOn(Hours(every), weekday, MinuteOf(times[i]))
    {
      SlotFires(every, weekday, i);
    }
    forall minute | FiresOn(Hours(every), weekday, minute)
      ensures exists i :: 0 <= i < |times| && MinuteOf(times[i]) == minute
    {
      HourSlot(every, weekday, minute);
      var k: nat :| minute == k * every * 60 && k < 24 / every;
      assert MinuteOf(times[k]) == minute;
    }
  }

  lemma SlotFires(every: int, weekday: int, k: int)
    requires Accepted(Hours(every)) && 0 <= k < 24 / every
    ensures FiresOn(Hours(every), weekday, k * every * 60)
  {
    assert k * every * 60 / 60 == k * every;
  }

  method WallTimesOn(s: Schedule, weekday: int) returns (times: seq<Time>)
    requires Accepted(s)
    ensures TimesOfDay(times, s, weekday)
  {
    match s
    case Once(_) =>
      times := [];
    case Daily(hour, minute) =>
      times := [Time(hour, minute)];
      assert MinuteOf(times[0]) == hour * 60 + minute;
    case Weekdays(hour, minute) =>
      times := if weekday <= 5 then [Time(hour, minute)] else [];
      assert weekday <= 5 ==> MinuteOf(times[0]) == hour * 60 + minute;
    case Weekly(day, hour, minute) =>
      times := if weekday == day then [Time(hour, minute)] else [];
      assert weekday == day ==> MinuteOf(times[0]) == hour * 60 + minute;
    case Hours(every) =>
      times := [];
      var h := 0;
      while h < 24
        invariant 0 <= h < 24 + every && h == |times| * every
        invariant forall i :: 0 <= i < |times| ==> times[i] == Time(i * every, 0)
      {
        times := times + [Time(h, 0)];
        h := h + every;
      }
      HourlyTimes(times, every, weekday);
  }

  predicate ConvertsAt(f: Instants, offset: int -> int, day: int, times: seq<Time>, walls: seq<int>, n: nat)
    requires n < |times| == |walls|
  {
    walls[n] == Wall(day, MinuteOf(times[n])) && f(walls[n]) == Some(WallToUtc(offset, walls[n]))
  }

  /** The walls are those of the times, and `f` has the instants of them. */
  ghost predicate Converts(f: Instants, offset: int -> int, day: int, times: seq<Time>, walls: seq<int>) {
    |walls| == |times| &&
    forall n: nat {:trigger ConvertsAt(f, offset, day, times, walls, n)} :: n < |walls| ==> ConvertsAt(f, offset, day, times, walls, n)
  }

  method InstantOf(offset: int -> int, day: int, times: seq<Time>, n: nat, ghost f: Instants, ghost walls: seq<int>) returns (at: int)
    requires Converts(f, offset, day, times, walls) && n < |times|
    ensures f(walls[n]) == Some(at)
  {
    assert ConvertsAt(f, offset, day, times, walls, n);
    at := ZonedWallTimeToUtc(offset, Wall(day, MinuteOf(times[n])));
  }

  /** The wall times of a day are the places of the sweep in that day. */
  lemma DayHasAllPlaces(f: Instants, s: Schedule, offset: int -> int, day: int, times: seq<Time>) returns (walls: seq<int>)
    requires AreInstants(f, s, offset) && TimesOfDay(times, s, Weekday(day))
    ensures AllPlaces(f, walls, Wall(day, 0), Wall(day + 1, 0)) && Converts(f, offset, day, times, walls)
  {
    walls := seq(|times|, i requires 0 <= i < |times| => Wall(day, MinuteOf(times[i])));
    forall i | 0 <= i < |times|
      ensures Wall(day, 0) <= walls[i] < Wall(day + 1, 0)
      ensures f(walls[i]) == Some(WallToUtc(offset, walls[i]))
    {
      WallParts(day, MinuteOf(times[i]));
      assert f(walls[i]) == InstantAt(s, offset, walls[i]);
    }
    forall wall | Wall(day, 0) <= wall < Wall(day + 1, 0) && f(wall).Some?
      ensures wall in walls
    {
      assert f(wall) == InstantAt(s, offset, wall) && DayOf(wall) == day;
      var i :| 0 <= i < |times| && MinuteOf(times[i]) == MinuteOn(wall);
      assert walls[i] == wall;
    }
  }

  /** One day's times up to the limit; `full` when it is reached. */
  method WalkTimes(offset: int -> int, from: int, to: int, limit: int, ghost cap: nat, day: int, times: seq<Time>, listed: seq<int>,
                   ghost f: Instants, ghost walls: seq<int>)
    returns (out: seq<int>, full: bool)
    requires |listed| < cap == (if limit > 0 then limit else 1) && Converts(f, offset, day, times, walls)
    ensures full <==> |out| == cap
    ensures out <= TakePlaces(f, listed, walls, |walls|, from, to)
    ensures !full ==> |out| < cap && out == TakePlaces(f, listed, walls, |walls|, from, to)
  {
    out := listed;
    for n := 0 to |times|
      invariant |out| < cap && out == TakePlaces(f, listed, walls, n, from, to)
    {
      var at := InstantOf(offset, day, times, n, f, walls);
      ghost var next := TakePlaces(f, listed, walls, n + 1, from, to);
      PlaceIsTaken(f, listed, walls, n, at, from, to);
      assert next == Taken(out, at, from, to);
      if out != [] && out[|out| - 1] == at {
        continue;
      }
      if from <= at < to {
        out := out + [at];
        assert out == next;
        if |out| >= limit {
          return out, true;
        }
      }
    }
    full := false;
  }

  /** The walk's turn for one day. */
  method WalkDay(s: Schedule, offset: int -> int, from: int, to: int, limit: int, day: int, listed: seq<int>, ghost f: Instants, ghost lo: int)
    returns (out: seq<int>, full: bool)
    requires Accepted(s) && !s.Once? && |listed| < Cap(s, limit) && lo <= Wall(day, 0) && AreInstants(f, s, offset)
    requires listed == Swept(f, from, to, lo, Wall(day, 0))
    ensures full <==> |out| == Cap(s, limit)
    ensures out <= Swept(f, from, to, lo, Wall(day + 1, 0))
    ensures !full ==> |out| < Cap(s, limit) && out == Swept(f, from, to, lo, Wall(day + 1, 0))
  {
    var times := WallTimesOn(s, Weekday(day));
    ghost var walls := DayHasAllPlaces(f, s, offset, day, times);
    StretchIsSwept(f, walls, from, to, lo, Wall(day, 0), Wall(day + 1, 0));
    out, full := WalkTimes(offset, from, to, limit, Cap(s, limit), day, times, listed, f, walls);
  }

  /** The walk over the days, up to the limit. */
  method WalkDays(s: Schedule, offset: int -> int, from: int, to: int, limit: int, ghost f: Instants) returns (out: seq<int>)
    requires Accepted(s) && !s.Once? && from < to && AreInstants(f, s, offset)
    ensures out == Cut(Swept(f, from, to, WalkStart(offset, from), WalkEnd(offset, from, to)), Cap(s, limit))
  {
    out := [];
    var start, dayCount := StartDay(offset, from), DayCount(from, to);
    ghost var lo, hi := WalkStart(offset, from), WalkEnd(offset, from, to);
    for d := -1 to dayCount + 1
      invariant |out| < Cap(s, limit) && out == Swept(f, from, to, lo, Wall(start + d, 0))
    {
      SweptGrows(f, from, to, lo, Wall(start + d + 1, 0), hi);
      var full;
      out, full := WalkDay(s, offset, from, to, limit, start + d, out, f, lo);
      if full {
        return;
      }
    }
  }

  /** Whatever the zone does, the walk's list up to the limit; the list asked for whenever that is in order. */
  method OccurrencesBetween(s: Schedule, from: int, to: int, zone: Option<int -> int>, limit: int) returns (out: seq<int>)
    requires Accepted(s)
    ensures zone.None? && !s.Once? ==> out == []
    ensures s.Once? ==> out == if s.at.Some? && from <= s.at.value < to && limit > 0 then [s.at.value] else []
    ensures zone.Some? && !s.Once? && from < to ==> out == Cut(Listing(s, zone.value, from, to), Cap(s, limit))
    ensures zone.Some? && Zone(zone.value) && SettledAt(zone.value, from) && InOrder(s, zone.value, from, to) ==>
              Lists(out, s, zone.value, from, to, Cap(s, limit))
  {
    if s.Once? {
      return if s.at.Some? && from <= s.at.value < to && limit > 0 then [s.at.value] else [];
    }
    if zone.None? || to <= from {
      return [];
    }
    out := WalkDays(s, zone.value, from, to, limit, InstantsOf(s, zone.value));
    if Zone(zone.value) && SettledAt(zone.value, from) && InOrder(s, zone.value, from, to) {
      ListingIsTheListIff(s, zone.value, from, to, Cap(s, limit));
    }
  }

  // ---- the next run ----------------------------------------------------------------------------

  /** `t` is the first instant after `after` at which `s` fires. */
  ghost predicate IsNext(s: Schedule, offset: int -> int, after: int, t: int) {
    Fires(s, offset, t) && after < t && forall u :: Fires(s, offset, u) && after < u ==> t <= u
  }

  lemma DayFrom(a: int, minute: int) returns (day: int)
    ensures a <= Wall(day, minute) < a + DAY
  {
    day := DayOf(a - minute * MINUTE + DAY - 1);
  }

  /** Of any seven days one has the weekday `d`. */
  lemma DayWithWeekday(day: int, d: int) returns (on: int)
    requires 1 <= d <= 7
    ensures day <= on <= day + 6 && Weekday(on) == d
  {
    on := day + (d + 7 - Weekday(day)) % 7;
  }

  lemma DayThatFires(s: Schedule, day: int, minute: int) returns (on: int)
    requires Accepted(s) && !s.Once? && minute == if s.Hours? then 0 else s.hour * 60 + s.minute
    ensures day <= on <= day + 6 && FiresOn(s, Weekday(on), minute)
  {
    on := day;
    if s.Weekly? {
      on := DayWithWeekday(day, s.day);
    } else if s.Weekdays? && Weekday(day) > 5 {
      on := DayWithWeekday(day, 1);
    }
  }

  /** Within any seven days there is a day on which a repeating schedule fires. */
  lemma FiresWithinAWeek(s: Schedule, a: int) returns (wall: int)
    requires Accepted(s) && !s.Once?
    ensures a <= wall < a + 7 * DAY && FiresAtWall(s, wall)
  {
    var minute := if s.Hours? then 0 else s.hour * 60 + s.minute;
    var day := DayFrom(a, minute);
    var on := DayThatFires(s, day, minute);
    wall := Wall(on, minute);
    WallParts(on, minute);
  }

  /** A repeating schedule fires within nine days, in every zone. */
  lemma FiresInWindow(s: Schedule, offset: int -> int, after: int) returns (t: int)
    requires Accepted(s) && !s.Once? && Zone(offset)
    ensures after < t < after + 9 * DAY && Fires(s, offset, t)
  {
    var wall := FiresWithinAWeek(s, after + DAY);
    t := WallToUtc(offset, wall);
    UtcIsNear(s, offset, wall);
  }

  /** Of the firing wall times with instants in the window, `wall` is the first on the clock. */
  ghost predicate FirstInside(s: Schedule, offset: int -> int, from: int, to: int, wall: int) {
    FiresInside(s, offset, from, to, wall) && forall v :: FiresInside(s, offset, from, to, v) ==> wall <= v
  }

  /** No later firing wall time of the window has an earlier instant than the first one. */
  ghost predicate NoneOvertakes(s: Schedule, offset: int -> int, from: int, to: int) {
    forall v, w :: FirstInside(s, offset, from, to, v) && FiresInside(s, offset, from, to, w) ==>
      WallToUtc(offset, v) <= WallToUtc(offset, w)
  }

  /** Where `nextOccurrence` looks: the nine days after an instant. */
  function SearchEnd(after: int): int {
    after + 9 * DAY
  }

  /** Some firing wall time of the window is the first, and its instant leads the list. */
  lemma FirstLeadsTheList(s: Schedule, offset: int -> int, from: int, to: int, t: int) returns (wall: int)
    requires !s.Once? && Zone(offset) && SettledAt(offset, from) && from <= t < to && Fires(s, offset, t)
    ensures FirstInside(s, offset, from, to, wall)
    ensures Listing(s, offset, from, to) != [] && Listing(s, offset, from, to)[0] == WallToUtc(offset, wall)
  {
    var f, lo, hi := InstantsOf(s, offset), WalkStart(offset, from), WalkEnd(offset, from, to);
    forall v
      ensures FiresInside(s, offset, from, to, v) <==> Hits(f, from, to, v)
      ensures FiresInside(s, offset, from, to, v) ==> lo <= v < hi
    {
      assert f(v) == InstantAt(s, offset, v);
      if FiresInside(s, offset, from, to, v) {
        WalkIsWide(s, offset, from, to, v);
      }
    }
    var v :| FiresAtWall(s, v) && WallToUtc(offset, v) == t;
    assert FiresInside(s, offset, from, to, v) && Hits(f, from, to, v);
    wall := SomeHitIsFirst(f, from, to, lo, hi);
    FirstHitLeads(f, from, to, lo, hi, wall);
    assert f(wall) == InstantAt(s, offset, wall);
  }

  lemma NextIsEarliest(s: Schedule, offset: int -> int, after: int, to: int, wall: int, u: int)
    requires !s.Once? && FirstInside(s, offset, after + 1, to, wall) && NoneOvertakes(s, offset, after + 1, to)
    requires Fires(s, offset, u) && after < u
    ensures WallToUtc(offset, wall) <= u
  {
    var w :| FiresAtWall(s, w) && WallToUtc(offset, w) == u;
    if u < to {
      assert FiresInside(s, offset, after + 1, to, w);
    }
  }

  lemma InsideIsFired(s: Schedule, offset: int -> int, from: int, to: int, wall: int)
    requires !s.Once? && FiresInside(s, offset, from, to, wall)
    ensures Fires(s, offset, WallToUtc(offset, wall)) && from <= WallToUtc(offset, wall) < to
  {
  }

  /** The instant of the first wall time is the next run exactly when no later wall time overtakes it. */
  lemma FirstIsNextIff(s: Schedule, offset: int -> int, after: int, to: int, wall: int)
    requires !s.Once? && FirstInside(s, offset, after + 1, to, wall)
    ensures IsNext(s, offset, after, WallToUtc(offset, wall)) <==> NoneOvertakes(s, offset, after + 1, to)
  {
    var first := WallToUtc(offset, wall);
    InsideIsFired(s, offset, after + 1, to, wall);
    if NoneOvertakes(s, offset, after + 1, to) {
      forall u | Fires(s, offset, u) && after < u
        ensures first <= u
      {
        NextIsEarliest(s, offset, after, to, wall, u);
      }
    } else {
      var v, w :| FirstInside(s, offset, after + 1, to, v) && FiresInside(s, offset, after + 1, to, w) && WallToUtc(offset, w) < WallToUtc(offset, v);
      InsideIsFired(s, offset, after + 1, to, w);
      assert v == wall;
    }
  }

  /** `t` is a run in the nine days after `after`, that of their first wall time, and the next run under one condition. */
  ghost predicate BeginsRuns(s: Schedule, offset: int -> int, after: int, t: int) {
    && after < t < SearchEnd(after) && Fires(s, offset, t)
    && (exists wall :: FirstInside(s, offset, after + 1, SearchEnd(after), wall) && t == WallToUtc(offset, wall))
    && (IsNext(s, offset, after, t) <==> NoneOvertakes(s, offset, after + 1, SearchEnd(after)))
  }

  /** What the list of the nine days begins with. */
  lemma FirstListed(s: Schedule, offset: int -> int, after: int)
    requires Accepted(s) && !s.Once? && Zone(offset) && SettledAt(offset, after + 1)
    ensures Listing(s, offset, after + 1, SearchEnd(after)) != []
    ensures BeginsRuns(s, offset, after, Listing(s, offset, after + 1, SearchEnd(after))[0])
  {
    var t := FiresInWindow(s, offset, after);
    var wall := FirstLeadsTheList(s, offset, after + 1, SearchEnd(after), t);
    InsideIsFired(s, offset, after + 1, SearchEnd(after), wall);
    FirstIsNextIff(s, offset, after, SearchEnd(after), wall);
  }

  method NextOccurrence(s: Schedule, after: int, zone: Option<int -> int>) returns (next: Option<int>)
    requires Accepted(s)
    ensures s.Once? ==> next == if s.at.Some? && s.at.value > after then s.at else None
    ensures zone.None? && !s.Once? ==> next.None?
    ensures zone.Some? && !s.Once? && Zone(zone.value) && SettledAt(zone.value, after + 1) ==>
              next.Some? && BeginsRuns(s, zone.value, after, next.value) && next.value < after + 777_600_000
  {
    if s.Once? {
      return if s.at.Some? && s.at.value > after then s.at else None;
    }
    var out := OccurrencesBetween(s, after + 1, after + 9 * DAY, zone, 1);
    next := if out == [] then None else Some(out[0]);
    if zone.Some? && Zone(zone.value) && SettledAt(zone.value, after + 1) {
      FirstListed(s, zone.value, after);
    }
  }

  /** Wall times in order are enough. */
  lemma InOrderNoneOvertakes(s: Schedule, offset: int -> int, from: int, to: int)
    requires InOrder(s, offset, from, to)
    ensures NoneOvertakes(s, offset, from, to)
  {
  }

  // ---- what the list promises ------------------------------------------------------------------

  /** There is only one such list. */
  lemma ListIsUnique(a: seq<int>, b: seq<int>, s: Schedule, offset: int -> int, from: int, to: int, cap: nat)
    requires Lists(a, s, offset, from, to, cap) && Lists(b, s, offset, from, to, cap)
    ensures a == b
  {
    ShorterIsPrefix(a, b, s, offset, from, to, cap, cap);
    ShorterIsPrefix(b, a, s, offset, from, to, cap, cap);
  }

  /** A smaller limit gives a prefix of the list. */
  lemma ShorterIsPrefix(a: seq<int>, b: seq<int>, s: Schedule, offset: int -> int, from: int, to: int, m: nat, n: nat)
    requires Lists(a, s, offset, from, to, m) && Lists(b, s, offset, from, to, n) && m <= n
    ensures a <= b
  {
    for i := 0 to |a|
      invariant i <= |b| && forall k :: 0 <= k < i ==> a[k] == b[k]
    {
      assert a[i] in a && ListedOrCut(b, n, a[i]);
      SameUpTo(a, b, s, offset, from, to, m, n, i);
    }
  }

  lemma SameUpTo(a: seq<int>, b: seq<int>, s: Schedule, offset: int -> int, from: int, to: int, m: nat, n: nat, i: nat)
    requires Lists(a, s, offset, from, to, m) && Lists(b, s, offset, from, to, n) && m <= n
    requires i < |a| && i <= |b| && forall k :: 0 <= k < i ==> a[k] == b[k]
    ensures i < |b| && a[i] == b[i]
  {
    assert a[i] in a && ListedOrCut(b, n, a[i]);
    if a[i] in b {
      var k :| 0 <= k < |b| && b[k] == a[i];
    }
    assert b[i] <= a[i] && b[i] in b && ListedOrCut(a, m, b[i]);
    assert b[i] in a;
    var l :| 0 <= l < |a| && a[l] == b[i];
  }

  /** Lists of adjacent windows, neither cut, join into the list of both. */
  lemma ListsJoin(a: seq<int>, b: seq<int>, s: Schedule, offset: int -> int, from: int, mid: int, to: int, m: nat, n: nat, cap: nat)
    requires from <= mid <= to && Lists(a, s, offset, from, mid, m) && Lists(b, s, offset, mid, to, n)
    requires |a| < m && |b| < n && |a| + |b| < cap
    ensures Lists(a + b, s, offset, from, to, cap)
  {
    forall i, j | 0 <= i < j < |a + b|
      ensures (a + b)[i] < (a + b)[j]
    {
      assert i < |a| ==> a[i] in a;
      assert j >= |a| ==> b[j - |a|] in b;
    }
    forall t | from <= t < to && Fires(s, offset, t)
      ensures t in a + b
    {
      assert if t < mid then ListedOrCut(a, m, t) else ListedOrCut(b, n, t);
    }
  }

  /** Asking again for the next run, each time from the last answer, walks through the list. */
  lemma NextWalksTheList(out: seq<int>, s: Schedule, offset: int -> int, after: int, to: int, cap: nat, i: nat, t: int)
    requires Lists(out, s, offset, after + 1, to, cap) && |out| < cap && i <= |out|
    requires IsNext(s, offset, if i == 0 then after else out[i - 1], t)
    ensures if i < |out| then t == out[i] else to <= t
  {
    if i < |out| {
      assert out[i] in out;
    }
    if i > 0 {
      assert out[i - 1] in out;
    }
    if t < to {
      assert ListedOrCut(out, cap, t);
      var k :| 0 <= k < |out| && out[k] == t;
    }
  }

  /** A repeating schedule with a run in the window keeps to the limit exactly when the limit is positive. */
  lemma LimitIsKeptIffPositive(out: seq<int>, s: Schedule, offset: int -> int, from: int, to: int, limit: int, t: int)
    requires Lists(out, s, offset, from, to, Cap(s, limit)) && !s.Once?
    requires from <= t < to && Fires(s, offset, t)
    ensures |out| <= limit <==> limit >= 1
    ensures limit <= 0 ==> |out| == 1
  {
    assert ListedOrCut(out, Cap(s, limit), t);
  }
}
