/** The skills that a run installs. */
module SkillClosure {
  // The roots, and up to a cap the skills of a catalog that they name, directly or not.

  import opened Options

  const MAX_SKILL_CLOSURE := 24

  datatype Skill = Skill(name: string, body: string)

  /** Whether a body names a skill. */
  type Mentions = (string, string) -> bool

  // ---- the first of each name ------------------------------------------------------------------

  predicate Named(skills: seq<Skill>, name: string) {
    exists i :: 0 <= i < |skills| && skills[i].name == name
  }

  /** Among the first `n`, the first of each name, in order. */
  function FirstByName(all: seq<Skill>, n: nat): (kept: seq<Skill>)
    requires n <= |all|
    ensures forall name :: Named(kept, name) <==> Named(all[..n], name)
  {
    if n == 0 then []
    else
      var kept := FirstByName(all, n - 1);
      assert forall name :: Named(all[..n], name) <==> Named(all[..n - 1], name) || name == all[n - 1].name by {
        NamedInPrefix(all, n);
      }
      if Named(kept, all[n - 1].name) then kept
      else
        NamedMore(kept, all[n - 1]);
        kept + [all[n - 1]]
  }

  lemma NamedMore(skills: seq<Skill>, s: Skill)
    ensures forall name :: Named(skills + [s], name) <==> Named(skills, name) || name == s.name
  {
    forall name
      ensures Named(skills + [s], name) <==> Named(skills, name) || name == s.name
    {
      var more := skills + [s];
      assert more[|skills|] == s;
      if Named(skills, name) {
        var i :| 0 <= i < |skills| && skills[i].name == name;
        assert more[i].name == name;
      }
    }
  }

  lemma NamedInPrefix(all: seq<Skill>, n: nat)
    requires 0 < n <= |all|
    ensures forall name :: Named(all[..n], name) <==> Named(all[..n - 1], name) || name == all[n - 1].name
  {
    assert all[..n - 1] + [all[n - 1]] == all[..n];
    NamedMore(all[..n - 1], all[n - 1]);
  }

  ghost predicate DistinctNames(skills: seq<Skill>) {
    forall i, j :: 0 <= i < j < |skills| ==> skills[i].name != skills[j].name
  }

  lemma {:induction false} FirstByNameIsDistinct(all: seq<Skill>, n: nat)
    requires n <= |all|
    ensures DistinctNames(FirstByName(all, n))
  {
    if n > 0 {
      FirstByNameIsDistinct(all, n - 1);
    }
  }

  /** The first entry wins each name, and every name has one. */
  lemma {:induction false} FirstEntryWins(all: seq<Skill>, n: nat, s: Skill)
    requires n <= |all|
    ensures s in FirstByName(all, n) <==> exists p :: 0 <= p < n && all[p] == s && !Named(all[..p], s.name)
  {
    if n > 0 {
      FirstEntryWins(all, n - 1, s);
    }
  }

  method Candidates(catalog: seq<Skill>) returns (candidates: seq<Skill>)
    ensures candidates == FirstByName(catalog, |catalog|)
    ensures DistinctNames(candidates)
  {
    candidates := [];
    var byName: set<string> := {};
    for n := 0 to |catalog|
      invariant candidates == FirstByName(catalog, n)
      invariant forall name :: name in byName <==> Named(candidates, name)
    {
      var skill := catalog[n];
      if skill.name !in byName {
        NamedMore(candidates, skill);
        byName := byName + {skill.name};
        candidates := candidates + [skill];
      }
    }
    FirstByNameIsDistinct(catalog, |catalog|);
  }

  // ---- where a skill comes from ----------------------------------------------------------------

  /** `parent == -1`: root number `at`. Otherwise: candidate number `at`, named by skill number `parent`. */
  datatype Tag = Tag(parent: int, at: int)

  predicate Before(t: Tag, u: Tag) {
    t.parent < u.parent || (t.parent == u.parent && t.at < u.at)
  }

  /** What the search is given. */
  datatype Given = Given(roots: seq<Skill>, candidates: seq<Skill>, mentions: Mentions)

  /** `s` comes from where `t` says, by one of the first `n` skills. */
  predicate ComesFrom(g: Given, skills: seq<Skill>, n: nat, s: Skill, t: Tag)
    requires n <= |skills|
  {
    if t.parent == -1 then 0 <= t.at < |g.roots| && g.roots[t.at] == s
    else 0 <= t.parent < n && 0 <= t.at < |g.candidates| && g.candidates[t.at] == s && g.mentions(skills[t.parent].body, s.name)
  }

  /** Nothing before `t` would have brought a skill of this name. */
  ghost predicate Earliest(g: Given, skills: seq<Skill>, name: string, t: Tag) {
    && (forall a :: 0 <= a < |g.roots| && (t.parent != -1 || a < t.at) ==> g.roots[a].name != name)
    && (forall k :: 0 <= k < t.parent && k < |skills| ==> !g.mentions(skills[k].body, name))
  }

  /**
   * Each skill comes from a root or from a skill before it, as early as any of its name could, and they stand
   * in that order: roots first, then by who names them, then as in the catalog.
   */
  ghost predicate Explained(g: Given, skills: seq<Skill>, origin: seq<Tag>) {
    && |origin| == |skills| && DistinctNames(skills)
    && (forall i {:trigger origin[i]} :: 0 <= i < |skills| ==>
          ComesFrom(g, skills, i, skills[i], origin[i]) && Earliest(g, skills[..i], skills[i].name, origin[i]))
    && (forall i, j :: 0 <= i < j < |skills| ==> Before(origin[i], origin[j]))
  }

  // ---- the search ------------------------------------------------------------------------------

  ghost predicate InOrder(tags: seq<Tag>) {
    forall p, q :: 0 <= p < q < |tags| ==> Before(tags[p], tags[q])
  }

  /** What waits comes from the skills so far, after all of them, and in order. */
  ghost predicate Waiting(g: Given, skills: seq<Skill>, origin: seq<Tag>, queue: seq<Skill>, tags: seq<Tag>) {
    && |tags| == |queue| && InOrder(tags)
    && (forall q :: 0 <= q < |queue| ==> ComesFrom(g, skills, |skills|, queue[q], tags[q]))
    && (forall i, q :: 0 <= i < |origin| && 0 <= q < |tags| ==> Before(origin[i], tags[q]))
  }

  /** Every root is in or waits, and so is every candidate that one of the first `n` skills names. */
  ghost predicate Covered(g: Given, skills: seq<Skill>, n: nat, tags: seq<Tag>)
    requires n <= |skills|
  {
    && (forall a :: 0 <= a < |g.roots| ==> Named(skills, g.roots[a].name) || Tag(-1, a) in tags)
    && (forall k, c :: 0 <= k < n && 0 <= c < |g.candidates| && g.mentions(skills[k].body, g.candidates[c].name) ==>
          Named(skills, g.candidates[c].name) || Tag(k, c) in tags)
  }

  ghost predicate Searching(g: Given, skills: seq<Skill>, origin: seq<Tag>, queue: seq<Skill>, tags: seq<Tag>) {
    Explained(g, skills, origin) && Waiting(g, skills, origin, queue, tags) && Covered(g, skills, |skills|, tags)
  }

  /** The head of the queue, when its name is in already, can go. */
  lemma HeadIsSkipped(g: Given, skills: seq<Skill>, origin: seq<Tag>, queue: seq<Skill>, tags: seq<Tag>)
    requires Searching(g, skills, origin, queue, tags) && queue != [] && Named(skills, queue[0].name)
    ensures Searching(g, skills, origin, queue[1..], tags[1..])
  {
    assert forall t :: t in tags ==> t == tags[0] || t in tags[1..];
  }

  /** Nothing would have brought the head's name earlier. */
  lemma HeadIsEarliest(g: Given, skills: seq<Skill>, origin: seq<Tag>, queue: seq<Skill>, tags: seq<Tag>)
    requires Searching(g, skills, origin, queue, tags) && queue != [] && !Named(skills, queue[0].name)
    ensures Earliest(g, skills, queue[0].name, tags[0])
  {
    var t, name := tags[0], queue[0].name;
    assert forall u :: u in tags && u != t ==> Before(t, u);
    forall a | 0 <= a < |g.roots| && (t.parent != -1 || a < t.at)
      ensures g.roots[a].name != name
    {
      assert g.roots[a].name == name ==> Tag(-1, a) in tags;
    }
    forall k | 0 <= k < t.parent && k < |skills|
      ensures !g.mentions(skills[k].body, name)
    {
      assert g.mentions(skills[k].body, name) ==> Tag(k, t.at) in tags;
    }
  }

  /** The head, when its name is new, becomes the next skill. */
  lemma HeadIsTaken(g: Given, skills: seq<Skill>, origin: seq<Tag>, queue: seq<Skill>, tags: seq<Tag>)
    requires Searching(g, skills, origin, queue, tags) && queue != [] && !Named(skills, queue[0].name)
    ensures Explained(g, skills + [queue[0]], origin + [tags[0]])
    ensures Waiting(g, skills + [queue[0]], origin + [tags[0]], queue[1..], tags[1..])
    ensures Covered(g, skills + [queue[0]], |skills|, tags[1..])
  {
    var more, from := skills + [queue[0]], origin + [tags[0]];
    HeadIsEarliest(g, skills, origin, queue, tags);
    NamedMore(skills, queue[0]);
    forall i | 0 <= i < |more|
      ensures ComesFrom(g, more, i, more[i], from[i]) && Earliest(g, more[..i], more[i].name, from[i])
    {
      assert more[..i] == skills[..i];
      assert skills[..|skills|] == skills;
    }
    assert forall t :: t in tags ==> t == tags[0] || t in tags[1..];
  }

  lemma OrderJoins(tags: seq<Tag>, marks: seq<Tag>, last: int)
    requires InOrder(tags) && InOrder(marks)
    requires forall q :: 0 <= q < |tags| ==> tags[q].parent < last
    requires forall q :: 0 <= q < |marks| ==> marks[q].parent == last
    ensures InOrder(tags + marks)
  {
  }

  /** The candidates that the last skill names join the queue. */
  lemma FoundWait(g: Given, skills: seq<Skill>, origin: seq<Tag>, queue: seq<Skill>, tags: seq<Tag>, found: seq<Skill>, marks: seq<Tag>)
    requires skills != [] && Explained(g, skills, origin) && Waiting(g, skills, origin, queue, tags)
    requires forall q :: 0 <= q < |tags| ==> tags[q].parent < |skills| - 1
    requires Finds(g, skills, |g.candidates|, found, marks)
    ensures Waiting(g, skills, origin, queue + found, tags + marks)
  {
    OrderJoins(tags, marks, |skills| - 1);
    forall q | 0 <= q < |queue + found|
      ensures ComesFrom(g, skills, |skills|, (queue + found)[q], (tags + marks)[q])
      ensures (tags + marks)[q] == if q < |tags| then tags[q] else marks[q - |tags|]
    {
    }
    forall i | 0 <= i < |origin|
      ensures origin[i].parent < |skills| - 1
    {
      assert ComesFrom(g, skills, i, skills[i], origin[i]);
    }
  }

  lemma FoundCover(g: Given, skills: seq<Skill>, tags: seq<Tag>, found: seq<Skill>, marks: seq<Tag>)
    requires skills != [] && Covered(g, skills, |skills| - 1, tags) && Finds(g, skills, |g.candidates|, found, marks)
    ensures Covered(g, skills, |skills|, tags + marks)
  {
    var all := tags + marks;
    assert (forall t :: t in tags ==> t in all) && (forall t :: t in marks ==> t in all);
    forall k, c | 0 <= k < |skills| && 0 <= c < |g.candidates| && g.mentions(skills[k].body, g.candidates[c].name)
      ensures Named(skills, g.candidates[c].name) || Tag(k, c) in all
    {
      assert k == |skills| - 1 || k < |skills| - 1;
    }
  }

  /** One turn: the head is taken, and what it names joins the queue. */
  lemma TurnIsTaken(g: Given, skills: seq<Skill>, origin: seq<Tag>, queue: seq<Skill>, tags: seq<Tag>, found: seq<Skill>, marks: seq<Tag>)
    requires Searching(g, skills, origin, queue, tags) && queue != [] && !Named(skills, queue[0].name)
    requires Finds(g, skills + [queue[0]], |g.candidates|, found, marks)
    ensures Searching(g, skills + [queue[0]], origin + [tags[0]], queue[1..] + found, tags[1..] + marks)
  {
    var more := skills + [queue[0]];
    HeadIsTaken(g, skills, origin, queue, tags);
    forall q | 0 <= q < |tags|
      ensures tags[q].parent < |skills|
    {
      assert ComesFrom(g, skills, |skills|, queue[q], tags[q]);
    }
    FoundWait(g, more, origin + [tags[0]], queue[1..], tags[1..], found, marks);
    FoundCover(g, more, tags[1..], found, marks);
  }

  /** Of the first `n` candidates, `found` are those that the last skill names and that are not in yet. */
  ghost predicate Finds(g: Given, skills: seq<Skill>, n: nat, found: seq<Skill>, marks: seq<Tag>)
    requires skills != [] && n <= |g.candidates|
  {
    && |marks| == |found| && InOrder(marks)
    && (forall q :: 0 <= q < |found| ==>
          marks[q].parent == |skills| - 1 && marks[q].at < n && ComesFrom(g, skills, |skills|, found[q], marks[q]))
    && (forall c :: 0 <= c < n && g.mentions(skills[|skills| - 1].body, g.candidates[c].name) ==>
          Named(skills, g.candidates[c].name) || Tag(|skills| - 1, c) in marks)
  }

  ghost predicate AreSeen(skills: seq<Skill>, seen: set<string>) {
    forall name :: name in seen <==> Named(skills, name)
  }

  method CompanionsOf(g: Given, skills: seq<Skill>, seen: set<string>) returns (found: seq<Skill>)
    requires skills != [] && AreSeen(skills, seen)
    ensures exists marks :: Finds(g, skills, |g.candidates|, found, marks)
  {
    found := [];
    ghost var marks: seq<Tag> := [];
    for c := 0 to |g.candidates|
      invariant Finds(g, skills, c, found, marks)
    {
      var candidate := g.candidates[c];
      ghost var before := marks;
      if candidate.name !in seen && g.mentions(skills[|skills| - 1].body, candidate.name) {
        found, marks := found + [candidate], marks + [Tag(|skills| - 1, c)];
        assert marks[|before|] == Tag(|skills| - 1, c);
      }
      assert forall t :: t in before ==> t in marks;
    }
  }

  function NamesOf(skills: seq<Skill>): set<string> {
    set i | 0 <= i < |skills| :: skills[i].name
  }

  lemma {:induction false} DistinctNamesCount(skills: seq<Skill>)
    requires DistinctNames(skills)
    ensures |NamesOf(skills)| == |skills|
  {
    if skills != [] {
      var n := |skills| - 1;
      DistinctNamesCount(skills[..n]);
      assert NamesOf(skills) == NamesOf(skills[..n]) + {skills[n].name};
    }
  }

  lemma SubsetIsSmaller(a: set<string>, b: set<string>)
    requires a <= b
    ensures |a| <= |b|
  {
    assert b == a + (b - a);
  }

  /** The head, when it is new and names a root, is a root, and only roots are in. */
  lemma RootsOnlySoFar(g: Given, skills: seq<Skill>, origin: seq<Tag>, queue: seq<Skill>, tags: seq<Tag>)
    requires Searching(g, skills, origin, queue, tags) && queue != []
    requires !Named(skills, queue[0].name) && Named(g.roots, queue[0].name)
    ensures |skills| < |NamesOf(g.roots)|
  {
    HeadIsEarliest(g, skills, origin, queue, tags);
    var more := skills + [queue[0]];
    NamedMore(skills, queue[0]);
    forall i | 0 <= i < |skills|
      ensures skills[i].name in NamesOf(g.roots)
    {
      assert Before(origin[i], tags[0]);
      assert ComesFrom(g, skills, i, skills[i], origin[i]);
      assert g.roots[origin[i].at] == skills[i];
    }
    DistinctNamesCount(more);
    SubsetIsSmaller(NamesOf(more), NamesOf(g.roots));
  }

  /** Skill number `k` names candidate number `c`, which is not in. */
  predicate Missing(g: Given, skills: seq<Skill>, k: int, c: int) {
    0 <= k < |skills| && 0 <= c < |g.candidates| && g.mentions(skills[k].body, g.candidates[c].name) && !Named(skills, g.candidates[c].name)
  }

  /** The first companion that the cap left out. */
  ghost predicate LeftOut(g: Given, skills: seq<Skill>, name: string, t: Tag) {
    && Missing(g, skills, t.parent, t.at) && g.candidates[t.at].name == name && !Named(g.roots, name)
    && forall k, c :: Missing(g, skills, k, c) ==> !Before(Tag(k, c), t)
  }

  /** What the search promises of its answer. */
  ghost predicate IsClosure(g: Given, skills: seq<Skill>, truncated: Option<string>, origin: seq<Tag>) {
    && Explained(g, skills, origin)
    && (forall a :: 0 <= a < |g.roots| ==> Named(skills, g.roots[a].name))
    && (|skills| <= MAX_SKILL_CLOSURE || |skills| <= |NamesOf(g.roots)|)
    && if truncated.None? then Covered(g, skills, |skills|, [])
       else |skills| >= MAX_SKILL_CLOSURE && exists t :: LeftOut(g, skills, truncated.value, t)
  }

  lemma HeadIsLeftOut(g: Given, skills: seq<Skill>, origin: seq<Tag>, queue: seq<Skill>, tags: seq<Tag>)
    requires Searching(g, skills, origin, queue, tags) && queue != []
    requires !Named(skills, queue[0].name) && !Named(g.roots, queue[0].name)
    requires |skills| == MAX_SKILL_CLOSURE || MAX_SKILL_CLOSURE < |skills| <= |NamesOf(g.roots)|
    ensures IsClosure(g, skills, Some(queue[0].name), origin)
  {
    HeadIsCut(g, skills, origin, queue, tags);
  }

  lemma SearchEnds(g: Given, skills: seq<Skill>, origin: seq<Tag>)
    requires Searching(g, skills, origin, [], []) && (|skills| <= MAX_SKILL_CLOSURE || |skills| <= |NamesOf(g.roots)|)
    ensures IsClosure(g, skills, None, origin)
  {
  }

  lemma HeadIsCut(g: Given, skills: seq<Skill>, origin: seq<Tag>, queue: seq<Skill>, tags: seq<Tag>)
    requires Searching(g, skills, origin, queue, tags) && queue != []
    requires !Named(skills, queue[0].name) && !Named(g.roots, queue[0].name)
    ensures LeftOut(g, skills, queue[0].name, tags[0])
    ensures forall a :: 0 <= a < |g.roots| ==> Named(skills, g.roots[a].name)
  {
    var t := tags[0];
    assert forall u :: u in tags && u != t ==> Before(t, u);
    assert ComesFrom(g, skills, |skills|, queue[0], t);
    forall a | 0 <= a < |g.roots|
      ensures Named(skills, g.roots[a].name)
    {
      assert Before(Tag(-1, a), t);
      assert Tag(-1, a) !in tags;
    }
  }

  lemma SearchBegins(g: Given, tags: seq<Tag>)
    requires |tags| == |g.roots| && forall a :: 0 <= a < |tags| ==> tags[a] == Tag(-1, a)
    ensures Searching(g, [], [], g.roots, tags)
  {
    forall a | 0 <= a < |g.roots|
      ensures Tag(-1, a) in tags
    {
      assert tags[a] == Tag(-1, a);
    }
  }

  method SkillClosure(roots: seq<Skill>, catalog: seq<Skill>, mentions: Mentions)
    returns (skills: seq<Skill>, truncated: Option<string>)
    ensures exists origin :: IsClosure(Given(roots, FirstByName(catalog, |catalog|), mentions), skills, truncated, origin)
  {
    var candidates := Candidates(catalog);
    var g := Given(roots, candidates, mentions);
    var rootNames := NamesOf(roots);
    var seen: set<string> := {};
    var queue := roots;
    ghost var tags := seq(|roots|, a => Tag(-1, a));
    ghost var universe := rootNames + NamesOf(g.candidates);
    ghost var origin: seq<Tag> := [];
    skills := [];
    SearchBegins(g, tags);
    while queue != []
      invariant Searching(g, skills, origin, queue, tags)
      invariant AreSeen(skills, seen)
      invariant |skills| <= MAX_SKILL_CLOSURE || |skills| <= |rootNames|
      decreases |universe - seen|, |queue|
    {
      var skill := queue[0];
      if skill.name in seen {
        HeadIsSkipped(g, skills, origin, queue, tags);
        queue, tags := queue[1..], tags[1..];
        continue;
      }
      if |skills| >= MAX_SKILL_CLOSURE && skill.name !in rootNames {
        HeadIsLeftOut(g, skills, origin, queue, tags);
        return skills, Some(skill.name);
      }
      if skill.name in rootNames {
        RootsOnlySoFar(g, skills, origin, queue, tags);
      }
      HeadIsNew(g, skills, queue, tags, universe, seen);
      var found := CompanionsOf(g, skills + [skill], seen + {skill.name});
      ghost var marks :| Finds(g, skills + [skill], |g.candidates|, found, marks);
      TurnIsTaken(g, skills, origin, queue, tags, found, marks);
      skills, origin, seen := skills + [skill], origin + [tags[0]], seen + {skill.name};
      queue, tags := queue[1..] + found, tags[1..] + marks;
    }
    SearchEnds(g, skills, origin);
    truncated := None;
  }

  /** A new name is one of finitely many. */
  lemma HeadIsNew(g: Given, skills: seq<Skill>, queue: seq<Skill>, tags: seq<Tag>, universe: set<string>, seen: set<string>)
    requires |tags| == |queue| > 0 && ComesFrom(g, skills, |skills|, queue[0], tags[0]) && queue[0].name !in seen
    requires universe == NamesOf(g.roots) + NamesOf(g.candidates) && AreSeen(skills, seen)
    ensures AreSeen(skills + [queue[0]], seen + {queue[0].name})
    ensures |universe - (seen + {queue[0].name})| < |universe - seen|
  {
    NamedMore(skills, queue[0]);
    assert queue[0].name in universe;
    assert universe - seen == (universe - (seen + {queue[0].name})) + {queue[0].name};
  }

  // ---- what the answer is ----------------------------------------------------------------------

  /** A skill with a root's name is a root, the first of that name. */
  lemma HasRootsName(g: Given, skills: seq<Skill>, origin: seq<Tag>, a: nat, i: nat)
    requires Explained(g, skills, origin) && a < |g.roots| && i < |skills| && skills[i].name == g.roots[a].name
    ensures origin[i].parent == -1 && 0 <= origin[i].at <= a && skills[i] == g.roots[origin[i].at]
  {
    var t := origin[i];
    assert ComesFrom(g, skills, i, skills[i], t) && Earliest(g, skills[..i], skills[i].name, t);
    assert !(t.parent != -1 || a < t.at);
  }

  lemma OnlyRootsBeforeARoot(g: Given, skills: seq<Skill>, origin: seq<Tag>, j: nat, i: nat)
    requires Explained(g, skills, origin) && j <= i < |skills| && origin[i].parent == -1
    ensures origin[j].parent == -1
  {
    assert ComesFrom(g, skills, j, skills[j], origin[j]);
    if j < i {
      assert Before(origin[j], origin[i]);
    }
  }

  /** Every root's name is in as a root, the first of that name, and only roots stand before a root. */
  lemma RootsLead(g: Given, skills: seq<Skill>, truncated: Option<string>, origin: seq<Tag>, a: nat) returns (i: nat)
    requires IsClosure(g, skills, truncated, origin) && a < |g.roots|
    ensures i < |skills| && skills[i].name == g.roots[a].name
    ensures 0 <= origin[i].at <= a && skills[i] == g.roots[origin[i].at]
    ensures forall j :: 0 <= j <= i ==> origin[j].parent == -1
  {
    i :| 0 <= i < |skills| && skills[i].name == g.roots[a].name;
    HasRootsName(g, skills, origin, a, i);
    forall j | 0 <= j <= i
      ensures origin[j].parent == -1
    {
      OnlyRootsBeforeARoot(g, skills, origin, j, i);
    }
  }

  /** `s` names candidate number `c`, whose name no root has. */
  predicate Companion(g: Given, s: Skill, c: int) {
    0 <= c < |g.candidates| && g.mentions(s.body, g.candidates[c].name) && !Named(g.roots, g.candidates[c].name)
  }

  predicate FirstRoot(g: Given, a: int) {
    0 <= a < |g.roots| && forall b :: 0 <= b < a ==> g.roots[b].name != g.roots[a].name
  }

  /** A set that holds the first root of each name and, with a skill, every companion it names. */
  ghost predicate Closed(g: Given, all: set<Skill>) {
    && (forall a :: FirstRoot(g, a) ==> g.roots[a] in all)
    && (forall s, c :: s in all && Companion(g, s, c) ==> g.candidates[c] in all)
  }

  /** Nothing is in that need not be: every skill is in every closed set. */
  lemma {:induction false} InEveryClosedSet(g: Given, skills: seq<Skill>, origin: seq<Tag>, all: set<Skill>, i: nat)
    requires Explained(g, skills, origin) && Closed(g, all) && i < |skills|
    ensures skills[i] in all
  {
    var t := origin[i];
    assert ComesFrom(g, skills, i, skills[i], t) && Earliest(g, skills[..i], skills[i].name, t);
    if t.parent == -1 {
      assert FirstRoot(g, t.at);
    } else {
      InEveryClosedSet(g, skills, origin, all, t.parent);
      assert Companion(g, skills[t.parent], t.at);
    }
  }

  lemma FirstRootIsIn(g: Given, skills: seq<Skill>, origin: seq<Tag>, a: nat)
    requires IsClosure(g, skills, None, origin) && FirstRoot(g, a)
    ensures g.roots[a] in skills
  {
    var i :| 0 <= i < |skills| && skills[i].name == g.roots[a].name;
    HasRootsName(g, skills, origin, a, i);
    assert origin[i].at == a;
  }

  lemma CompanionIsIn(g: Given, skills: seq<Skill>, origin: seq<Tag>, k: nat, c: nat)
    requires IsClosure(g, skills, None, origin) && DistinctNames(g.candidates)
    requires k < |skills| && Companion(g, skills[k], c)
    ensures g.candidates[c] in skills
  {
    assert Named(skills, g.candidates[c].name);
    var j :| 0 <= j < |skills| && skills[j].name == g.candidates[c].name;
    NotARoot(g, skills, origin, j);
  }

  /** With `InEveryClosedSet`: an answer that is not cut is the least closed set. */
  lemma UncutIsClosed(g: Given, skills: seq<Skill>, origin: seq<Tag>)
    requires IsClosure(g, skills, None, origin) && DistinctNames(g.candidates)
    ensures Closed(g, set s | s in skills)
  {
    forall a: nat | FirstRoot(g, a)
      ensures g.roots[a] in skills
    {
      FirstRootIsIn(g, skills, origin, a);
    }
    forall s, c: nat | s in skills && Companion(g, s, c)
      ensures g.candidates[c] in skills
    {
      var k :| 0 <= k < |skills| && skills[k] == s;
      CompanionIsIn(g, skills, origin, k, c);
    }
  }

  lemma NotARoot(g: Given, skills: seq<Skill>, origin: seq<Tag>, j: nat)
    requires Explained(g, skills, origin) && j < |skills| && !Named(g.roots, skills[j].name)
    ensures 0 <= origin[j].at < |g.candidates| && g.candidates[origin[j].at] == skills[j]
  {
    assert ComesFrom(g, skills, j, skills[j], origin[j]);
  }

  /** The answers are the same up to `i`. */
  ghost predicate Agree(a: seq<Skill>, b: seq<Skill>, i: nat) {
    i <= |a| && i <= |b| && forall k :: 0 <= k < i ==> a[k] == b[k]
  }

  /** There is only one answer: its order is settled by the roots, who names whom, and the catalog. */
  lemma OnlyOneAnswer(g: Given, a: seq<Skill>, oa: seq<Tag>, b: seq<Skill>, ob: seq<Tag>)
    requires IsClosure(g, a, None, oa) && IsClosure(g, b, None, ob) && DistinctNames(g.candidates)
    ensures a == b
  {
    AgreeUpTo(g, a, oa, b, ob, |a|);
    AgreeUpTo(g, b, ob, a, oa, |b|);
  }

  lemma {:induction false} AgreeUpTo(g: Given, a: seq<Skill>, oa: seq<Tag>, b: seq<Skill>, ob: seq<Tag>, i: nat)
    requires IsClosure(g, a, None, oa) && IsClosure(g, b, None, ob) && DistinctNames(g.candidates) && i <= |a|
    ensures Agree(a, b, i)
  {
    if i > 0 {
      AgreeUpTo(g, a, oa, b, ob, i - 1);
      SameNext(g, a, oa, b, ob, i - 1);
    }
  }

  lemma SameNext(g: Given, a: seq<Skill>, oa: seq<Tag>, b: seq<Skill>, ob: seq<Tag>, i: nat)
    requires IsClosure(g, a, None, oa) && IsClosure(g, b, None, ob) && DistinctNames(g.candidates) && i < |a| && Agree(a, b, i)
    ensures i < |b| && a[i] == b[i]
  {
    ComesNoEarlier(g, a, oa, b, ob, i);
    ComesNoEarlier(g, b, ob, a, oa, i);
    assert oa[i] == ob[i];
    Origin(g, a, oa, i);
    Origin(g, b, ob, i);
  }

  lemma Origin(g: Given, skills: seq<Skill>, origin: seq<Tag>, i: nat)
    requires Explained(g, skills, origin) && i < |skills|
    ensures ComesFrom(g, skills, i, skills[i], origin[i])
  {
  }

  /** What comes next in one answer comes from no earlier than what comes next in the other. */
  lemma ComesNoEarlier(g: Given, a: seq<Skill>, oa: seq<Tag>, b: seq<Skill>, ob: seq<Tag>, i: nat)
    requires IsClosure(g, a, None, oa) && IsClosure(g, b, None, ob) && DistinctNames(g.candidates) && i < |a| && Agree(a, b, i)
    ensures i < |b| && !Before(oa[i], ob[i])
  {
    Origin(g, a, oa, i);
    NameIsInBoth(g, a, b, i, a[i], oa[i]);
    var j :| 0 <= j < |b| && b[j].name == a[i].name;
    assert i <= j;
    ComesAsEarlyAs(g, b, ob, a[i], oa[i], i, j);
  }

  lemma NameIsInBoth(g: Given, a: seq<Skill>, b: seq<Skill>, i: nat, s: Skill, t: Tag)
    requires Agree(a, b, i) && ComesFrom(g, a, i, s, t)
    requires (forall c :: 0 <= c < |g.roots| ==> Named(b, g.roots[c].name)) && Covered(g, b, |b|, [])
    ensures ComesFrom(g, b, i, s, t) && Named(b, s.name)
  {
    if t.parent != -1 {
      assert a[t.parent] == b[t.parent];
    }
  }

  /** A skill that could come from `t` does not come from anything after `t`. */
  lemma ComesAsEarlyAs(g: Given, b: seq<Skill>, ob: seq<Tag>, s: Skill, t: Tag, i: nat, j: nat)
    requires Explained(g, b, ob) && DistinctNames(g.candidates)
    requires i <= j < |b| && b[j].name == s.name && ComesFrom(g, b, i, s, t)
    ensures !Before(t, ob[i])
  {
    Origin(g, b, ob, j);
    assert i < j ==> Before(ob[i], ob[j]);
    assert Earliest(g, b[..j], b[j].name, ob[j]);
    assert t.parent != -1 ==> b[..j][t.parent] == b[t.parent];
  }
}
