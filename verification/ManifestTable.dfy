/**
 * The manifest's entries in the order a JavaScript `Map` keeps them, and the file that holds them: which
 * entries of a file are acceptable, what a table finds for a path, how one entry is added or replaced, and
 * that what is saved is loaded again.
 */
module ManifestTable {
  import opened Options
  import T = TreeEncoding

  type Path = string

  /** One path cezar wrote. `extra` holds the fields this version does not know. */
  datatype Entry = Entry(
    writer: string, kind: string, skill: Option<string>, source: Option<string>,
    identity: T.Identity, alternate: Option<T.Identity>, extra: map<string, string>)

  datatype Item = Item(path: Path, entry: Entry)
  type Table = seq<Item>

  function Find(t: Table, p: Path): Option<Entry> {
    if t == [] then None else if t[0].path == p then Some(t[0].entry) else Find(t[1..], p)
  }

  /** `Map.set`: in place when the key is there, else at the end. */
  function With(t: Table, p: Path, e: Entry): Table {
    if t == [] then [Item(p, e)]
    else if t[0].path == p then [Item(p, e)] + t[1..]
    else [t[0]] + With(t[1..], p, e)
  }

  function Without(t: Table, p: Path): Table {
    if t == [] then [] else if t[0].path == p then Without(t[1..], p) else [t[0]] + Without(t[1..], p)
  }

  predicate Distinct(t: Table) {
    t != [] ==> Find(t[1..], t[0].path).None? && Distinct(t[1..])
  }

  lemma {:induction false} FindWith(t: Table, p: Path, e: Entry, q: Path)
    ensures Find(With(t, p, e), q) == if q == p then Some(e) else Find(t, q)
  {
    if t != [] && t[0].path != p {
      assert With(t, p, e)[1..] == With(t[1..], p, e);
      FindWith(t[1..], p, e, q);
    } else if t != [] {
      assert With(t, p, e)[1..] == t[1..];
    }
  }

  lemma {:induction false} FindWithout(t: Table, p: Path, q: Path)
    ensures Find(Without(t, p), q) == if q == p then None else Find(t, q)
  {
    if t != [] {
      FindWithout(t[1..], p, q);
      if t[0].path != p {
        assert Without(t, p)[1..] == Without(t[1..], p);
      }
    }
  }

  lemma {:induction false} DistinctWith(t: Table, p: Path, e: Entry)
    requires Distinct(t)
    ensures Distinct(With(t, p, e))
  {
    if t != [] {
      if t[0].path != p {
        DistinctWith(t[1..], p, e);
        FindWith(t[1..], p, e, t[0].path);
        assert With(t, p, e)[1..] == With(t[1..], p, e);
      } else {
        assert With(t, p, e)[1..] == t[1..];
      }
    }
  }

  lemma {:induction false} DistinctWithout(t: Table, p: Path)
    requires Distinct(t)
    ensures Distinct(Without(t, p))
  {
    if t != [] {
      DistinctWithout(t[1..], p);
      FindWithout(t[1..], p, t[0].path);
      if t[0].path != p {
        assert Without(t, p)[1..] == Without(t[1..], p);
      }
    }
  }

  // ---- the file --------------------------------------------------------------------------------

  /** One element of the file's `entries`: an entry the schema takes, or anything else. */
  datatype Raw = Valid(item: Item) | Refused

  datatype ManifestFile =
    | NoFile
    | Unreadable
    | Newer
    | Doc(extra: map<string, string>, entries: seq<Raw>, roots: seq<string>, skillsExtra: map<string, string>)

  /** The skills record of an older cezar; its entries name no writer. */
  datatype OldFile = OldFile(entries: seq<Raw>, roots: seq<string>)

  /** What a pass works on: `legacy` says an older record was imported and is still there. */
  datatype View = View(
    extra: map<string, string>, skillsExtra: map<string, string>, byPath: Table, roots: seq<string>, legacy: bool)

  /** Take `raws` in order, each valid entry only for a path not listed before it. */
  function AddAll(t: Table, raws: seq<Raw>): Table
    decreases |raws|
  {
    if raws == [] then t
    else if raws[0].Valid? && Find(t, raws[0].item.path).None? then AddAll(t + [raws[0].item], raws[1..])
    else AddAll(t, raws[1..])
  }

  function AsSkills(raws: seq<Raw>): seq<Raw> {
    if raws == [] then []
    else [AsSkill(raws[0])] + AsSkills(raws[1..])
  }

  function AsSkill(raw: Raw): Raw {
    if raw.Valid? then Valid(raw.item.(entry := raw.item.entry.(writer := "skills"))) else Refused
  }

  function AddRoots(roots: seq<string>, more: seq<string>): seq<string>
    decreases |more|
  {
    if more == [] then roots else AddRoots(if more[0] in roots then roots else roots + [more[0]], more[1..])
  }

  const EMPTY_VIEW := View(map[], map[], [], [], false)

  function LoadDoc(file: ManifestFile): View {
    match file
    case Doc(extra, entries, roots, skillsExtra) => View(extra, skillsExtra, AddAll([], entries), roots, false)
    case _ => EMPTY_VIEW
  }

  /** None when a newer cezar wrote the file. */
  function Load(file: ManifestFile, legacy: Option<OldFile>): Option<View> {
    if file.Newer? then None else
    var view := LoadDoc(file);
    match legacy
    case None => Some(view)
    case Some(o) => Some(view.(byPath := AddAll(view.byPath, AsSkills(o.entries)),
                               roots := AddRoots(AddRoots([], view.roots), o.roots), legacy := true))
  }

  function Raws(t: Table): seq<Raw> {
    if t == [] then [] else [Valid(t[0])] + Raws(t[1..])
  }

  /** What a save writes: no file at all when there is nothing to keep. */
  function Saved(v: View): ManifestFile {
    if v.byPath == [] && v.roots == [] && v.skillsExtra == map[] && v.extra == map[] then NoFile
    else Doc(v.extra, Raws(v.byPath), v.roots, v.skillsExtra)
  }

  lemma {:induction false} FindLast(t: Table, item: Item, q: Path)
    ensures Find(t + [item], q) == match Find(t, q) { case Some(e) => Some(e) case None => if q == item.path then Some(item.entry) else None }
  {
    if t != [] {
      assert (t + [item])[1..] == t[1..] + [item];
      FindLast(t[1..], item, q);
    } else {
      assert (t + [item])[1..] == [];
    }
  }

  lemma {:induction false} DistinctLast(t: Table, item: Item)
    requires Distinct(t) && Find(t, item.path).None?
    ensures Distinct(t + [item])
  {
    if t != [] {
      assert (t + [item])[1..] == t[1..] + [item];
      DistinctLast(t[1..], item);
      FindLast(t[1..], item, t[0].path);
    } else {
      assert (t + [item])[1..] == [];
    }
  }

  /** The first valid entry in `raws` for `p`. */
  function FirstValid(raws: seq<Raw>, p: Path): Option<Entry> {
    if raws == [] then None
    else if raws[0].Valid? && raws[0].item.path == p then Some(raws[0].item.entry)
    else FirstValid(raws[1..], p)
  }

  /** Loading lists for each path its first valid entry, and keeps no other. */
  lemma {:induction false} AddAllFinds(t: Table, raws: seq<Raw>, p: Path)
    ensures Find(AddAll(t, raws), p) == if Find(t, p).Some? then Find(t, p) else FirstValid(raws, p)
    decreases |raws|
  {
    if raws != [] {
      if raws[0].Valid? && Find(t, raws[0].item.path).None? {
        FindLast(t, raws[0].item, p);
        AddAllFinds(t + [raws[0].item], raws[1..], p);
      } else {
        AddAllFinds(t, raws[1..], p);
      }
    }
  }

  lemma {:induction false} AddAllDistinct(t: Table, raws: seq<Raw>)
    requires Distinct(t)
    ensures Distinct(AddAll(t, raws))
    decreases |raws|
  {
    if raws != [] {
      if raws[0].Valid? && Find(t, raws[0].item.path).None? {
        DistinctLast(t, raws[0].item);
        AddAllDistinct(t + [raws[0].item], raws[1..]);
      } else {
        AddAllDistinct(t, raws[1..]);
      }
    }
  }

  lemma LoadedIsDistinct(file: ManifestFile, legacy: Option<OldFile>)
    requires Load(file, legacy).Some?
    ensures Distinct(Load(file, legacy).value.byPath)
  {
    if file.Doc? {
      AddAllDistinct([], file.entries);
    }
    if legacy.Some? {
      AddAllDistinct(LoadDoc(file).byPath, AsSkills(legacy.value.entries));
    }
  }

  lemma {:induction false} AddBack(t: Table, more: Table)
    requires Distinct(t + more)
    ensures AddAll(t, Raws(more)) == t + more
    decreases |more|
  {
    if more != [] {
      DistinctSplit(t, more);
      assert t + more == (t + [more[0]]) + more[1..];
      AddBack(t + [more[0]], more[1..]);
    } else {
      assert t + more == t;
    }
  }

  lemma {:induction false} DistinctSplit(t: Table, more: Table)
    requires Distinct(t + more) && more != []
    ensures Find(t, more[0].path).None?
  {
    if t != [] {
      assert (t + more)[1..] == t[1..] + more;
      DistinctSplit(t[1..], more);
      FindInRest(t[1..], more, more[0].path);
    }
  }

  lemma {:induction false} FindInRest(t: Table, more: Table, p: Path)
    requires more != [] && more[0].path == p
    ensures Find(t + more, p).Some?
  {
    if t != [] {
      assert (t + more)[1..] == t[1..] + more;
      FindInRest(t[1..], more, p);
    }
  }

  /** A saved view loads as it was, apart from the record of an older cezar. */
  lemma SavedLoadsBack(v: View)
    requires Distinct(v.byPath)
    ensures Load(Saved(v), None) == Some(v.(legacy := false))
  {
    assert [] + v.byPath == v.byPath;
    AddBack([], v.byPath);
  }

  // ---- order and roots -------------------------------------------------------------------------

  function Paths(t: Table): seq<Path> {
    if t == [] then [] else [t[0].path] + Paths(t[1..])
  }

  /** Setting an entry leaves the paths where they are, and puts a new one at the end. */
  lemma {:induction false} WithKeepsOrder(t: Table, p: Path, e: Entry)
    ensures Paths(With(t, p, e)) == if Find(t, p).Some? then Paths(t) else Paths(t) + [p]
  {
    if t != [] {
      if t[0].path == p {
        assert With(t, p, e)[1..] == t[1..];
      } else {
        assert With(t, p, e)[1..] == With(t[1..], p, e);
        WithKeepsOrder(t[1..], p, e);
      }
    }
  }

  predicate NoRepeat(s: seq<string>) {
    forall i, j :: 0 <= i < j < |s| ==> s[i] != s[j]
  }

  /** Roots are added at the end, each once. */
  lemma {:induction false} AddRootsHolds(roots: seq<string>, more: seq<string>)
    ensures roots <= AddRoots(roots, more) && (NoRepeat(roots) ==> NoRepeat(AddRoots(roots, more)))
    ensures forall r :: r in AddRoots(roots, more) <==> r in roots || r in more
    decreases |more|
  {
    if more != [] {
      AddRootsHolds(if more[0] in roots then roots else roots + [more[0]], more[1..]);
      assert forall r :: r in more <==> r == more[0] || r in more[1..];
    }
  }

  /** The roots of a manifest and of an older record beside it, each once. */
  lemma LoadedRoots(file: ManifestFile, o: OldFile)
    requires !file.Newer?
    ensures Load(file, Some(o)).Some? && NoRepeat(Load(file, Some(o)).value.roots) && Load(file, Some(o)).value.legacy
    ensures forall r :: r in Load(file, Some(o)).value.roots <==> (file.Doc? && r in file.roots) || r in o.roots
  {
    var roots := LoadDoc(file).roots;
    AddRootsHolds([], roots);
    AddRootsHolds(AddRoots([], roots), o.roots);
  }

  /** The older record's entries are taken as they are, for the writer of skills. */
  lemma {:induction false} AsSkillsAt(raws: seq<Raw>, i: nat)
    requires i < |raws|
    ensures |AsSkills(raws)| == |raws| && (AsSkills(raws)[i].Valid? <==> raws[i].Valid?)
    ensures raws[i].Valid? ==> var e := raws[i].item.entry;
              AsSkills(raws)[i] == Valid(Item(raws[i].item.path, Entry("skills", e.kind, e.skill, e.source, e.identity, e.alternate, e.extra)))
    decreases |raws|
  {
    if |raws| > 1 {
      AsSkillsAt(raws[1..], if i > 0 then i - 1 else 0);
    }
  }

  /** A manifest of a later cezar is not read, whatever else is there; any other is, an unreadable one as empty. */
  lemma NewerIsNotRead(file: ManifestFile, legacy: Option<OldFile>)
    ensures Load(file, legacy).None? <==> file.Newer?
    ensures !file.Doc? && !file.Newer? ==> Load(file, None) == Some(View(map[], map[], [], [], false))
  {
  }

  /** A save leaves no file exactly when there is nothing to keep. */
  lemma NothingIsNoFile(v: View)
    ensures Saved(v).NoFile? <==> v.byPath == [] && v.roots == [] && v.skillsExtra == map[] && v.extra == map[]
    ensures !Saved(v).Newer? && !Saved(v).Unreadable?
  {
  }
}
