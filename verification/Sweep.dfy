/**
 * A list gathered from instants that come with places on a line, in the order of the places, as far as the
 * instants are in a window and leaving out those that repeat the last one taken. What it holds, and exactly
 * when it ascends.
 */
module Sweep {
  import opened Options

  /** The instant at a place, if there is one. */
  type Instants = int -> Option<int>

  /** What a list makes of one more instant: nothing if it is the last again or is outside the window. */
  function Taken(out: seq<int>, at: int, from: int, to: int): seq<int> {
    if out != [] && out[|out| - 1] == at then out else if from <= at < to then out + [at] else out
  }

  /** What it makes of all places in `[lo, hi)`. */
  function Swept(f: Instants, from: int, to: int, lo: int, hi: int): seq<int>
    decreases hi - lo
  {
    if hi <= lo then []
    else
      var before := Swept(f, from, to, lo, hi - 1);
      if f(hi - 1).Some? then Taken(before, f(hi - 1).value, from, to) else before
  }

  /** The place has an instant in the window. */
  predicate Hits(f: Instants, from: int, to: int, place: int) {
    f(place).Some? && from <= f(place).value < to
  }

  ghost predicate NoHit(f: Instants, from: int, to: int, lo: int, hi: int) {
    forall place :: lo <= place < hi ==> !Hits(f, from, to, place)
  }

  /** Of the hits in `[lo, hi)`, a later place never has an earlier instant. */
  ghost predicate InOrderOver(f: Instants, from: int, to: int, lo: int, hi: int) {
    forall v, w :: lo <= v <= w < hi && Hits(f, from, to, v) && Hits(f, from, to, w) ==> f(v).value <= f(w).value
  }

  ghost predicate Ascending(out: seq<int>) {
    forall i, j :: 0 <= i < j < |out| ==> out[i] < out[j]
  }

  /** Whatever the order, the list holds the instants it should and no other. */
  lemma {:induction false} SweptHolds(f: Instants, from: int, to: int, lo: int, hi: int, t: int)
    ensures t in Swept(f, from, to, lo, hi) <==>
            exists place :: lo <= place < hi && Hits(f, from, to, place) && f(place).value == t
    decreases hi - lo
  {
    if lo < hi {
      SweptHolds(f, from, to, lo, hi - 1, t);
      var before := Swept(f, from, to, lo, hi - 1);
      if before != [] && f(hi - 1).Some? && before[|before| - 1] == f(hi - 1).value {
        assert f(hi - 1).value in before;
        SweptHolds(f, from, to, lo, hi - 1, f(hi - 1).value);
      }
    }
  }

  lemma {:induction false} SweptGrows(f: Instants, from: int, to: int, lo: int, a: int, b: int)
    requires a <= b
    ensures Swept(f, from, to, lo, a) <= Swept(f, from, to, lo, b)
    decreases b - a
  {
    if a < b {
      SweptGrows(f, from, to, lo, a, b - 1);
    }
  }

  /** Places that hit nothing leave the list as it is. */
  lemma {:induction false} SweptSkips(f: Instants, from: int, to: int, lo: int, a: int, b: int)
    requires a <= b && NoHit(f, from, to, a, b)
    ensures Swept(f, from, to, lo, b) == Swept(f, from, to, lo, a)
    decreases b - a
  {
    if a < b {
      SweptSkips(f, from, to, lo, a, b - 1);
      assert !Hits(f, from, to, b - 1);
      SweptIsInWindow(f, from, to, lo, b - 1);
    }
  }

  lemma SweptIsInWindow(f: Instants, from: int, to: int, lo: int, hi: int)
    ensures forall t :: t in Swept(f, from, to, lo, hi) ==> from <= t < to
  {
    forall t | t in Swept(f, from, to, lo, hi)
      ensures from <= t < to
    {
      SweptHolds(f, from, to, lo, hi, t);
    }
  }

  lemma {:induction false} InOrderAscends(f: Instants, from: int, to: int, lo: int, hi: int)
    requires InOrderOver(f, from, to, lo, hi)
    ensures Ascending(Swept(f, from, to, lo, hi))
    decreases hi - lo
  {
    if lo < hi {
      InOrderAscends(f, from, to, lo, hi - 1);
      if Hits(f, from, to, hi - 1) {
        var before, at := Swept(f, from, to, lo, hi - 1), f(hi - 1).value;
        forall i | 0 <= i < |before|
          ensures before[i] <= at
        {
          SweptHolds(f, from, to, lo, hi - 1, before[i]);
        }
        EndsTheList(before, at, from, to);
      }
    }
  }

  lemma EndsTheList(out: seq<int>, at: int, from: int, to: int)
    requires Ascending(out) && forall i :: 0 <= i < |out| ==> out[i] <= at
    ensures Ascending(Taken(out, at, from, to))
  {
    assert out != [] ==> forall i :: 0 <= i < |out| - 1 ==> out[i] < out[|out| - 1];
  }

  /** Two hits in the wrong order spoil the list. */
  lemma DisorderShows(f: Instants, from: int, to: int, lo: int, hi: int, v: int, w: int)
    requires lo <= v < w < hi && Hits(f, from, to, v) && Hits(f, from, to, w) && f(w).value < f(v).value
    ensures !Ascending(Swept(f, from, to, lo, hi))
  {
    var before, part, all := Swept(f, from, to, lo, w), Swept(f, from, to, lo, w + 1), Swept(f, from, to, lo, hi);
    SweptHolds(f, from, to, lo, w, f(v).value);
    var i :| 0 <= i < |before| && before[i] == f(v).value;
    SweptGrows(f, from, to, lo, w + 1, hi);
    assert part == Taken(before, f(w).value, from, to);
    assert all[|part| - 1] == f(w).value && all[i] == f(v).value;
  }

  /** The list ascends strictly exactly when the hits are in order. */
  lemma SweptAscendsIff(f: Instants, from: int, to: int, lo: int, hi: int)
    ensures Ascending(Swept(f, from, to, lo, hi)) <==> InOrderOver(f, from, to, lo, hi)
  {
    if InOrderOver(f, from, to, lo, hi) {
      InOrderAscends(f, from, to, lo, hi);
    } else {
      var v, w :| lo <= v <= w < hi && Hits(f, from, to, v) && Hits(f, from, to, w) && f(w).value < f(v).value;
      DisorderShows(f, from, to, lo, hi, v, w);
    }
  }

  // ---- its first element -----------------------------------------------------------------------

  /** `place` is the first in `[lo, hi)` with an instant in the window. */
  ghost predicate FirstHit(f: Instants, from: int, to: int, lo: int, hi: int, place: int) {
    lo <= place < hi && Hits(f, from, to, place) && NoHit(f, from, to, lo, place)
  }

  lemma {:induction false} SomeHitIsFirst(f: Instants, from: int, to: int, lo: int, hi: int) returns (place: int)
    requires lo <= hi && !NoHit(f, from, to, lo, hi)
    ensures FirstHit(f, from, to, lo, hi, place)
    decreases hi - lo
  {
    if NoHit(f, from, to, lo, hi - 1) {
      place := hi - 1;
    } else {
      place := SomeHitIsFirst(f, from, to, lo, hi - 1);
    }
  }

  /** The list begins with the instant of the first place that has one in the window, early or late. */
  lemma FirstHitLeads(f: Instants, from: int, to: int, lo: int, hi: int, place: int)
    requires FirstHit(f, from, to, lo, hi, place)
    ensures Swept(f, from, to, lo, hi) != [] && Swept(f, from, to, lo, hi)[0] == f(place).value
  {
    SweptSkips(f, from, to, lo, lo, place);
    assert Swept(f, from, to, lo, place + 1) == [f(place).value];
    SweptGrows(f, from, to, lo, place + 1, hi);
  }

  // ---- the same list from a list of places -----------------------------------------------------

  /** The first `n` of some places, taken one after the other. */
  function TakePlaces(f: Instants, out: seq<int>, places: seq<int>, n: nat, from: int, to: int): seq<int>
    requires n <= |places|
  {
    if n == 0 then out
    else
      var before := TakePlaces(f, out, places, n - 1, from, to);
      if f(places[n - 1]).Some? then Taken(before, f(places[n - 1]).value, from, to) else before
  }

  /** All places of `[a, b)` that have an instant, in order. */
  ghost predicate AllPlaces(f: Instants, places: seq<int>, a: int, b: int) {
    && (forall i :: 0 <= i < |places| ==> a <= places[i] < b)
    && Ascending(places)
    && (forall place :: a <= place < b && f(place).Some? ==> place in places)
  }

  function Cursor(places: seq<int>, n: nat, a: int): int
    requires n <= |places|
  {
    if n == 0 then a else places[n - 1] + 1
  }

  lemma NoneBetween(f: Instants, places: seq<int>, n: nat, from: int, to: int, a: int, b: int)
    requires a <= b && AllPlaces(f, places, a, b) && n <= |places|
    ensures var end := if n == |places| then b else places[n];
            Cursor(places, n, a) <= end && NoHit(f, from, to, Cursor(places, n, a), end)
  {
    var end := if n == |places| then b else places[n];
    assert forall i :: 0 <= i < n ==> places[i] < Cursor(places, n, a);
    assert forall i :: n <= i < |places| ==> end <= places[i];
  }

  lemma {:induction false} PlacesAreSwept(f: Instants, places: seq<int>, n: nat, from: int, to: int, lo: int, a: int, b: int)
    requires lo <= a <= b && AllPlaces(f, places, a, b) && n <= |places|
    ensures TakePlaces(f, Swept(f, from, to, lo, a), places, n, from, to) == Swept(f, from, to, lo, Cursor(places, n, a))
  {
    if n > 0 {
      PlacesAreSwept(f, places, n - 1, from, to, lo, a, b);
      NoneBetween(f, places, n - 1, from, to, a, b);
      SweptSkips(f, from, to, lo, Cursor(places, n - 1, a), places[n - 1]);
    }
  }

  /** Taking the places of a stretch sweeps it. */
  lemma StretchIsSwept(f: Instants, places: seq<int>, from: int, to: int, lo: int, a: int, b: int)
    requires lo <= a <= b && AllPlaces(f, places, a, b)
    ensures TakePlaces(f, Swept(f, from, to, lo, a), places, |places|, from, to) == Swept(f, from, to, lo, b)
  {
    PlacesAreSwept(f, places, |places|, from, to, lo, a, b);
    NoneBetween(f, places, |places|, from, to, a, b);
    SweptSkips(f, from, to, lo, Cursor(places, |places|, a), b);
  }

  lemma {:induction false} TakePlacesGrows(f: Instants, out: seq<int>, places: seq<int>, n: nat, m: nat, from: int, to: int)
    requires n <= m <= |places|
    ensures TakePlaces(f, out, places, n, from, to) <= TakePlaces(f, out, places, m, from, to)
  {
    if n < m {
      TakePlacesGrows(f, out, places, n, m - 1, from, to);
    }
  }

  lemma PlaceIsTaken(f: Instants, out: seq<int>, places: seq<int>, n: nat, at: int, from: int, to: int)
    requires n < |places| && f(places[n]) == Some(at)
    ensures TakePlaces(f, out, places, n + 1, from, to) == Taken(TakePlaces(f, out, places, n, from, to), at, from, to)
    ensures TakePlaces(f, out, places, n + 1, from, to) <= TakePlaces(f, out, places, |places|, from, to)
  {
    TakePlacesGrows(f, out, places, n + 1, |places|, from, to);
  }
}
