/** The catalog of team skills of one project: loads that overlap, and the lists they publish. */
module TeamSkills {
  // A generation keeps an older view from replacing a newer one. A step is what runs between two awaits.

  import opened Options

  /** A source's identity: two branches of one repository are two sources. */
  datatype Source = Source(repo: string, branch: string)

  datatype Skill = Skill(team: Option<Source>, name: string, content: string)

  type Listing = Option<seq<Skill>>

  // ---- merging the sources' lists --------------------------------------------------------------

  datatype Key = Key(repo: Option<string>, name: string)

  function KeyOf(s: Skill): Key {
    Key(if s.team.Some? then Some(s.team.value.repo) else None, s.name)
  }

  /** Two skills are one exactly if they have one name and are of one repository, whatever the branch, or of none. */
  lemma SameKeyIff(s: Skill, t: Skill)
    ensures KeyOf(s) == KeyOf(t) <==>
            s.name == t.name && s.team.Some? == t.team.Some? && (s.team.Some? && t.team.Some? ==> s.team.value.repo == t.team.value.repo)
  {
  }

  /** A source that failed to list contributes nothing. */
  function Flat(lists: seq<Listing>): seq<Skill> {
    if lists == [] then [] else (if lists[0].Some? then lists[0].value else []) + Flat(lists[1..])
  }

  /** The lists are joined in the order of their sources. */
  lemma {:induction false} FlatJoins(a: seq<Listing>, list: Listing, b: seq<Listing>)
    ensures Flat(a + [list] + b) == Flat(a) + (if list.Some? then list.value else []) + Flat(b)
    decreases |a|
  {
    if a == [] {
      assert (a + [list] + b)[1..] == b;
    } else {
      assert (a + [list] + b)[1..] == a[1..] + [list] + b;
      FlatJoins(a[1..], list, b);
    }
  }

  /** `all[p]` is the first with its key. */
  predicate IsFirst(all: seq<Skill>, p: nat)
    requires p < |all|
  {
    forall q :: 0 <= q < p ==> KeyOf(all[q]) != KeyOf(all[p])
  }

  /** The first of each key among the first `n`, in order. */
  function Firsts(all: seq<Skill>, n: nat): seq<Skill>
    requires n <= |all|
  {
    if n == 0 then [] else Firsts(all, n - 1) + if IsFirst(all, n - 1) then [all[n - 1]] else []
  }

  function Merged(lists: seq<Listing>): seq<Skill> {
    Firsts(Flat(lists), |Flat(lists)|)
  }

  lemma {:induction false} FirstsAreFirst(all: seq<Skill>, n: nat, s: Skill)
    requires n <= |all|
    ensures s in Firsts(all, n) <==> exists p :: 0 <= p < n && all[p] == s && IsFirst(all, p)
  {
    if n > 0 {
      FirstsAreFirst(all, n - 1, s);
    }
  }

  /** One skill for each repository and name. */
  lemma {:induction false} FirstsAreDistinct(all: seq<Skill>, n: nat, i: nat, j: nat)
    requires n <= |all| && i < j < |Firsts(all, n)|
    ensures KeyOf(Firsts(all, n)[i]) != KeyOf(Firsts(all, n)[j])
  {
    if j < |Firsts(all, n - 1)| {
      FirstsAreDistinct(all, n - 1, i, j);
    } else {
      var s := Firsts(all, n - 1)[i];
      FirstsAreFirst(all, n - 1, s);
    }
  }

  /** Nothing is lost: every key is kept, by the first that has it. */
  lemma {:induction false} EveryKeyIsKept(all: seq<Skill>, p: nat) returns (q: nat)
    requires p < |all|
    ensures q <= p && KeyOf(all[q]) == KeyOf(all[p]) && all[q] in Firsts(all, |all|)
  {
    if IsFirst(all, p) {
      q := p;
      FirstsAreFirst(all, |all|, all[p]);
    } else {
      var r :| 0 <= r < p && KeyOf(all[r]) == KeyOf(all[p]);
      q := EveryKeyIsKept(all, r);
    }
  }

  method MergeSourceLists(lists: seq<Listing>) returns (out: seq<Skill>)
    ensures out == Merged(lists)
  {
    out := [];
    var seen: set<Key> := {};
    var all := Flat(lists);
    for p := 0 to |all|
      invariant out == Firsts(all, p)
      invariant forall key :: key in seen <==> exists q :: 0 <= q < p && KeyOf(all[q]) == key
    {
      var key := KeyOf(all[p]);
      if key in seen {
        continue;
      }
      seen := seen + {key};
      out := out + [all[p]];
    }
  }

  // ---- what is published -----------------------------------------------------------------------

  /** The list shown, and how many lists were published after a load. */
  datatype Shelf = Shelf(list: Listing, generation: nat)

  /** A passive load shows what the clones hold, unless a newer list came since it began. */
  function WithCached(shelf: Shelf, generation: nat, cached: seq<Listing>): Shelf {
    if shelf.generation != generation then shelf else shelf.(list := Some(Merged(cached)))
  }

  function Enabled(skills: seq<Skill>, enabled: set<Source>): seq<Skill> {
    if skills == [] then []
    else (if skills[0].team.Some? && skills[0].team.value !in enabled then [] else [skills[0]]) + Enabled(skills[1..], enabled)
  }

  lemma {:induction false} EnabledIsExact(skills: seq<Skill>, enabled: set<Source>, s: Skill)
    ensures s in Enabled(skills, enabled) <==> s in skills && (s.team.None? || s.team.value in enabled)
  {
    if skills != [] {
      EnabledIsExact(skills[1..], enabled, s);
      assert s in skills <==> s == skills[0] || s in skills[1..];
    }
  }

  /** Whether a load that is done publishes. */
  predicate Publishes(shelf: Shelf, passive: bool, generation: nat) {
    !passive || shelf.generation == generation
  }

  function WithLoaded(shelf: Shelf, passive: bool, generation: nat, lists: seq<Listing>, enabled: set<Source>): Shelf {
    if Publishes(shelf, passive, generation) then Shelf(Some(Enabled(Merged(lists), enabled)), shelf.generation + 1) else shelf
  }

  class Catalog {
    var list: Listing
    var generation: nat

    function Now(): Shelf
      reads this
    {
      Shelf(list, generation)
    }

    constructor ()
      ensures Now() == Shelf(None, 0)
    {
      list, generation := None, 0;
    }

    /** The step of a passive load that follows the listing of the clones. */
    method ShowCached(began: nat, cached: seq<Listing>) returns (listed: seq<Skill>)
      modifies this
      ensures Now() == WithCached(old(Now()), began, cached) && listed == Merged(cached)
    {
      listed := MergeSourceLists(cached);
      if generation == began {
        list := Some(listed);
      }
    }

    /** The last step of a load; `enabled` is read in this step. */
    method Publish(passive: bool, began: nat, lists: seq<Listing>, enabled: set<Source>) returns (out: seq<Skill>)
      modifies this
      ensures Now() == WithLoaded(old(Now()), passive, began, lists, enabled)
      ensures out == if Publishes(old(Now()), passive, began) || old(list).None? then Enabled(Merged(lists), enabled) else old(list).value
    {
      var merged := MergeSourceLists(lists);
      out := Enabled(merged, enabled);
      if passive && generation != began {
        return if list.Some? then list.value else out;
      }
      generation := generation + 1;
      list := Some(out);
    }
  }

  // ---- loads that overlap ----------------------------------------------------------------------

  /** A load that was called reads the configuration, then the generation, and then its sources one by one. */
  datatype Stage = Called | Started(sources: seq<Source>, generation: nat, listed: bool, lists: seq<Listing>)

  datatype Load = Load(passive: bool, stage: Stage)

  datatype World = World(shelf: Shelf, enabled: set<Source>, loads: map<nat, Load>)

  datatype Event =
    | Call(id: nat, passive: bool)
    | Start(id: nat, sources: seq<Source>)
    | Snapshot(id: nat, cached: seq<Listing>)
    | Fetched(id: nat, skills: Listing)
    | Finish(id: nat)
    | Configure(enabled: set<Source>)

  predicate Possible(w: World, e: Event) {
    match e
    case Configure(_) => true
    case Call(id, _) => id !in w.loads
    case Start(id, _) => id in w.loads && w.loads[id].stage.Called?
    case Snapshot(id, cached) =>
      id in w.loads && w.loads[id].passive && w.loads[id].stage.Started? && !w.loads[id].stage.listed
      && |cached| == |w.loads[id].stage.sources|
    case Fetched(id, _) => Working(w, id) && |w.loads[id].stage.lists| < |w.loads[id].stage.sources|
    case Finish(id) => Working(w, id) && |w.loads[id].stage.lists| == |w.loads[id].stage.sources|
  }

  /** A load lists its sources; a passive one has shown what the clones hold first. */
  predicate Working(w: World, id: nat) {
    id in w.loads && w.loads[id].stage.Started? && (w.loads[id].passive ==> w.loads[id].stage.listed)
  }

  function Step(w: World, e: Event): World
    requires Possible(w, e)
  {
    match e
    case Configure(enabled) => w.(enabled := enabled)
    case Call(id, passive) => w.(loads := w.loads[id := Load(passive, Called)])
    case Start(id, sources) => WithStage(w, id, Started(sources, w.shelf.generation, false, []))
    case Snapshot(id, cached) =>
      WithStage(w, id, w.loads[id].stage.(listed := true)).(shelf := WithCached(w.shelf, w.loads[id].stage.generation, cached))
    case Fetched(id, skills) => WithStage(w, id, w.loads[id].stage.(lists := w.loads[id].stage.lists + [skills]))
    case Finish(id) =>
      var l := w.loads[id];
      w.(loads := w.loads - {id}, shelf := WithLoaded(w.shelf, l.passive, l.stage.generation, l.stage.lists, w.enabled))
  }

  function WithStage(w: World, id: nat, stage: Stage): World
    requires id in w.loads
  {
    w.(loads := w.loads[id := w.loads[id].(stage := stage)])
  }

  /** A passive load shows what the clones hold once, before it lists its sources, each of which it lists once. */
  lemma ShowsOnceThenLists(w: World, e: Event, cached: seq<Listing>, skills: Listing)
    requires Possible(w, e)
    ensures e.Start? ==> var t := Step(w, e); var l := t.loads[e.id];
              l.stage == Started(e.sources, w.shelf.generation, false, []) && Working(t, e.id) == !l.passive
              && (Possible(t, Snapshot(e.id, cached)) <==> l.passive && |cached| == |e.sources|)
    ensures e.Snapshot? ==> var t := Step(w, e); Working(t, e.id) && !Possible(t, Snapshot(e.id, cached))
    ensures e.Fetched? ==> Step(w, e).loads[e.id].stage.lists == w.loads[e.id].stage.lists + [e.skills]
    ensures e.Fetched? ==> var t := Step(w, e); Possible(t, Fetched(e.id, skills)) != Possible(t, Finish(e.id))
    ensures Possible(w, Configure({}))
    ensures e.Configure? ==> Step(w, e) == World(w.shelf, e.enabled, w.loads)
  {
  }

  ghost predicate Goes(worlds: seq<World>, events: seq<Event>, i: nat)
    requires i < |events| < |worlds|
  {
    Possible(worlds[i], events[i]) && worlds[i + 1] == Step(worlds[i], events[i])
  }

  /** Any interleaving of any loads and changes of the configuration, from the start of the program. */
  ghost predicate Run(worlds: seq<World>, events: seq<Event>) {
    && |worlds| == |events| + 1 && worlds[0].loads == map[] && worlds[0].shelf == Shelf(None, 0)
    && forall i :: 0 <= i < |events| ==> Goes(worlds, events, i)
  }

  /** This step publishes a list after a load. */
  predicate IsPublication(w: World, e: Event) {
    e.Finish? && Possible(w, e) && Publishes(w.shelf, w.loads[e.id].passive, w.loads[e.id].stage.generation)
  }

  /** In this step a passive load sets the list shown. */
  predicate IsPassiveWrite(w: World, e: Event) {
    (e.Snapshot? && Possible(w, e) && w.shelf.generation == w.loads[e.id].stage.generation)
    || (IsPublication(w, e) && w.loads[e.id].passive)
  }

  /** Only a publication or a passive write changes the list, and only a publication counts. */
  lemma WhatChangesTheShelf(w: World, e: Event)
    requires Possible(w, e)
    ensures Step(w, e).shelf.generation == w.shelf.generation + if IsPublication(w, e) then 1 else 0
    ensures Step(w, e).shelf.list != w.shelf.list ==> IsPublication(w, e) || IsPassiveWrite(w, e)
  {
  }

  /** A published list holds only skills of sources that are enabled at that moment. */
  lemma PublishedIsEnabled(w: World, e: Event, s: Skill)
    requires IsPublication(w, e)
    ensures var list := Step(w, e).shelf.list;
            list.Some? && (s in list.value <==>
              s in Merged(w.loads[e.id].stage.lists) && (s.team.None? || s.team.value in w.enabled))
  {
    EnabledIsExact(Merged(w.loads[e.id].stage.lists), w.enabled, s);
  }

  /** The generation counts publications: it stands still exactly while there are none. */
  lemma {:induction false} GenerationCounts(worlds: seq<World>, events: seq<Event>, i: nat, j: nat)
    requires Run(worlds, events) && i <= j <= |events|
    ensures worlds[i].shelf.generation <= worlds[j].shelf.generation
    ensures worlds[i].shelf.generation == worlds[j].shelf.generation <==> forall k :: i <= k < j ==> !IsPublication(worlds[k], events[k])
  {
    if i < j {
      GenerationCounts(worlds, events, i, j - 1);
      assert Goes(worlds, events, j - 1);
      WhatChangesTheShelf(worlds[j - 1], events[j - 1]);
    }
  }

  /** Load `id` started at event `k` and runs on at `j` with the generation it read then. */
  ghost predicate StartedAt(worlds: seq<World>, events: seq<Event>, j: nat, id: nat, k: nat)
    requires j < |worlds| == |events| + 1
  {
    && k < j && events[k].Start? && events[k].id == id
    && id in worlds[j].loads && worlds[j].loads[id].stage.Started?
    && worlds[j].loads[id].stage.generation == worlds[k].shelf.generation
  }

  lemma {:induction false} WhenItStarted(worlds: seq<World>, events: seq<Event>, j: nat, id: nat) returns (k: nat)
    requires Run(worlds, events) && j < |worlds| && id in worlds[j].loads && worlds[j].loads[id].stage.Started?
    ensures StartedAt(worlds, events, j, id, k)
  {
    assert j > 0;
    assert Goes(worlds, events, j - 1);
    if events[j - 1].Start? && events[j - 1].id == id {
      k := j - 1;
    } else {
      k := WhenItStarted(worlds, events, j - 1, id);
    }
  }

  /**
   * A passive load sets the list exactly when no list was published since it started: a published list is
   * never replaced by a passive load that had read the generation before.
   */
  lemma PassiveWritesIffNothingNewer(worlds: seq<World>, events: seq<Event>, j: nat) returns (k: nat)
    requires Run(worlds, events) && j < |events| && (events[j].Snapshot? || events[j].Finish?)
    requires Possible(worlds[j], events[j]) && worlds[j].loads[events[j].id].passive
    ensures StartedAt(worlds, events, j, events[j].id, k)
    ensures IsPassiveWrite(worlds[j], events[j]) <==> forall i :: k <= i < j ==> !IsPublication(worlds[i], events[i])
  {
    k := WhenItStarted(worlds, events, j, events[j].id);
    GenerationCounts(worlds, events, k, j);
  }

  /** A passive load that replaces a published list started after it was published. */
  lemma PublishedIsKeptFromEarlierLoads(worlds: seq<World>, events: seq<Event>, i: nat, j: nat) returns (k: nat)
    requires Run(worlds, events) && i < j < |events|
    requires IsPublication(worlds[i], events[i]) && IsPassiveWrite(worlds[j], events[j])
    ensures i < k < j && StartedAt(worlds, events, j, events[j].id, k)
  {
    k := PassiveWritesIffNothingNewer(worlds, events, j);
    assert events[k].Start?;
  }

  // ---- where the promise ends ------------------------------------------------------------------

  /** A passive load waits for its configuration while another load of no source publishes. */
  lemma EmptyListIsPublished() returns (worlds: seq<World>, events: seq<Event>)
    ensures Run(worlds, events) && |events| == 4 && events[0] == Call(0, true) && IsPublication(worlds[3], events[3])
    ensures worlds[4] == World(Shelf(Some([]), 1), {}, map[0 := Load(true, Called)])
  {
    events := [Call(0, true), Call(1, false), Start(1, []), Finish(1)];
    var waiting := Load(true, Called);
    var w0 := World(Shelf(None, 0), {}, map[]);
    var w1 := World(Shelf(None, 0), {}, map[0 := waiting]);
    var w2 := World(Shelf(None, 0), {}, map[0 := waiting, 1 := Load(false, Called)]);
    var w3 := World(Shelf(None, 0), {}, map[0 := waiting, 1 := Load(false, Started([], 0, false, []))]);
    worlds := [w0, w1, w2, w3, World(Shelf(Some([]), 1), {}, map[0 := waiting])];
    assert Goes(worlds, events, 0) && Goes(worlds, events, 1) && Goes(worlds, events, 2) && Goes(worlds, events, 3);
  }

  lemma GoesOn(worlds: seq<World>, events: seq<Event>, e: Event)
    requires Run(worlds, events) && Possible(worlds[|events|], e)
    ensures Run(worlds + [Step(worlds[|events|], e)], events + [e])
  {
    var more, after := worlds + [Step(worlds[|events|], e)], events + [e];
    forall i | 0 <= i < |after|
      ensures Goes(more, after, i)
    {
      assert i < |events| ==> Goes(worlds, events, i);
    }
  }

  /**
   * A load starts only once the configuration is read. One that was called before a list was published, and
   * starts after it, shows what the clones hold in its place, of sources switched off meanwhile too.
   */
  lemma CalledEarlierMayReplace(src: Source, cached: Skill) returns (worlds: seq<World>, events: seq<Event>)
    requires cached.team == Some(src)
    ensures Run(worlds, events) && |events| == 6 && events[0] == Call(0, true)
    ensures IsPublication(worlds[3], events[3]) && worlds[4].shelf.list == Some([])
    ensures events[5] == Snapshot(0, [Some([cached])])
    ensures worlds[6].shelf.list == Some([cached]) && worlds[6].enabled == {}
  {
    worlds, events := EmptyListIsPublished();
    var start, show := Start(0, [src]), Snapshot(0, [Some([cached])]);
    GoesOn(worlds, events, start);
    worlds, events := worlds + [Step(worlds[4], start)], events + [start];
    GoesOn(worlds, events, show);
    worlds, events := worlds + [Step(worlds[5], show)], events + [show];
    MergedOne(cached);
  }

  lemma MergedOne(s: Skill)
    ensures Merged([Some([s])]) == [s]
  {
    var lists := [Some([s])];
    assert lists[1..] == [] && Flat(lists) == [s];
    assert IsFirst([s], 0) && Firsts([s], 1) == Firsts([s], 0) + [s];
  }
}
