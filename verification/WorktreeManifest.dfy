/** The manifest of the paths cezar wrote into a worktree. */
module WorktreeManifest {
  // Who may write a path, the steps of one write, and what survives a crash between any two of them.

  import opened Options
  import opened ManifestTable
  import T = TreeEncoding

  /** A worktree as one pass finds it. `outside` holds the paths whose parent leads out of it. */
  datatype Disk = Disk(trees: map<Path, T.Tree>, outside: set<Path>)

  datatype Owner = Ours | FreePath | Theirs | Kept | Outside

  datatype PathState = PathState(owner: Owner, current: Option<T.Identity>, entry: Option<Entry>)

  datatype Meta = Meta(kind: string, skill: Option<string>, source: Option<string>)

  const KINDS: set<string> := {"link", "copy", "generated", "team-copy", "ignore-file", "file", "pending"}

  function TreeAt(disk: Disk, p: Path): Option<T.Tree> {
    if p in disk.trees then Some(disk.trees[p]) else None
  }

  function IdentityAt(disk: Disk, p: Path): Option<T.Identity> {
    if p in disk.trees then Some(T.IdentityOf(disk.trees[p])) else None
  }

  function Own(t: Table, p: Path, writer: string): Option<Entry> {
    match Find(t, p)
    case Some(e) => if e.writer == writer then Some(e) else None
    case None => None
  }

  // ---- inspect ---------------------------------------------------------------------------------

  datatype OldCheck = NoMatch | MustKeep | Proven(entry: Entry)

  predicate OneSkillEntry(e: Entry) {
    e.kind == "generated" || (e.kind == "pending" && e.identity.Tree1?)
  }

  /** A directory whose listing is `SKILL.md` alone. */
  predicate OnlySkill(t: T.Tree) {
    t.Dir? && |t.entries| == 1 && t.entries[0].name == "SKILL.md"
  }

  /** `checkLegacy`: an identity in the older encoding proves a file, or a directory of one skill. */
  function CheckOld(e: Entry, t: T.Tree): OldCheck {
    if !e.identity.Tree1? && !(e.alternate.Some? && e.alternate.value.Tree1?) then NoMatch else
    var id := T.OldIdentityOf(t);
    if id != e.identity && Some(id) != e.alternate then NoMatch
    else if !t.File? && !OneSkillEntry(e) then MustKeep
    else if !t.File? && !OnlySkill(t) then NoMatch
    else if id == e.identity then Proven(e.(identity := T.IdentityOf(t)))
    else Proven(e.(alternate := Some(T.IdentityOf(t))))
  }

  /** Who may write `p`. */
  function Inspect(disk: Disk, t: Table, p: Path, writer: string): PathState {
    if p in disk.outside then PathState(Outside, None, Own(t, p, writer)) else
    var listed, current := Find(t, p), IdentityAt(disk, p);
    if listed.Some? && (listed.value.writer != writer || listed.value.kind !in KINDS) then PathState(Kept, current, None)
    else if current.None? then PathState(FreePath, current, listed)
    else if listed.None? then PathState(Theirs, current, None)
    else if current == Some(listed.value.identity) || current == listed.value.alternate then PathState(Ours, current, listed)
    else match CheckOld(listed.value, disk.trees[p])
      case MustKeep => PathState(Kept, current, listed)
      case Proven(e) => PathState(Ours, current, Some(e))
      case NoMatch =>
        PathState(if listed.value.kind == "pending" || !T.Verifiable(listed.value.identity) then Kept else Theirs, current, listed)
  }

  /** The table after an inspection: an entry proven in the older encoding is listed in the new one. */
  function Inspected(disk: Disk, t: Table, p: Path, writer: string): Table {
    var state := Inspect(disk, t, p, writer);
    if state.owner.Ours? && state.entry.Some? && state.entry != Find(t, p) then With(t, p, state.entry.value) else t
  }

  /** A path whose parent leads out of the worktree is nobody's to write, whatever is listed for it. */
  lemma OutsideIsNotWritten(disk: Disk, t: Table, writer: string, p: Path, content: T.Tree, meta: Meta, reread: Disk,
                            linkRefused: bool, cut: Cut)
    requires p in disk.outside
    ensures Inspect(disk, t, p, writer).owner.Outside? && Inspected(disk, t, p, writer) == t
    ensures var entry := Inspect(disk, t, p, writer).entry;
            if Find(t, p).Some? && Find(t, p).value.writer == writer then entry == Find(t, p) else entry.None?
    ensures PutSpec(disk, t, writer, p, content, meta, reread, linkRefused, cut) == PutOutcome(NotOurs, disk, t, false, None)
  {
  }

  function NewEntry(t: Table, p: Path, writer: string, meta: Meta, id: T.Identity, alternate: Option<T.Identity>): Entry {
    var own := Own(t, p, writer);
    Entry(writer, meta.kind, meta.skill, meta.source, id, alternate, if own.Some? then own.value.extra else map[])
  }

  /** The unknown fields of the writer's own entry. */
  function OwnExtra(t: Table, p: Path, writer: string): map<string, string> {
    if Own(t, p, writer).Some? then Own(t, p, writer).value.extra else map[]
  }

  lemma WithFinds(t: Table, p: Path, e: Entry)
    ensures Find(With(t, p, e), p) == Some(e) && forall q :: q != p ==> Find(With(t, p, e), q) == Find(t, q)
  {
    forall q
      ensures Find(With(t, p, e), q) == if q == p then Some(e) else Find(t, q)
    {
      FindWith(t, p, e, q);
    }
  }

  lemma WithoutFinds(t: Table, p: Path)
    ensures Find(Without(t, p), p) == None && forall q :: q != p ==> Find(Without(t, p), q) == Find(t, q)
  {
    forall q
      ensures Find(Without(t, p), q) == if q == p then None else Find(t, q)
    {
      FindWithout(t, p, q);
    }
  }

  // ---- one write -------------------------------------------------------------------------------

  /** Where a pass is cut short. */
  datatype Cut = Whole | AtStaged | AtPending | AtCleared | AtPlaced

  datatype PutResult = Placed(identity: T.Identity) | NotPlaced | NotOurs | LinkRefused | Stopped

  /** What one write does. `lost` is the tree it overwrote or deleted; `saved` says the manifest file
      holds `table`. */
  datatype PutOutcome = PutOutcome(result: PutResult, disk: Disk, table: Table, saved: bool, lost: Option<T.Tree>)

  predicate RenamesOver(content: T.Tree, now: T.Tree) {
    content.File? && now.File?
  }

  function Pending(before: PathState, id: T.Identity): Option<T.Identity> {
    if before.current != Some(id) then before.current else None
  }

  /** The write of `content` at `p`, where `reread` is the worktree as the agent has left it by the time
      the path is read again. */
  function PutSpec(disk: Disk, t: Table, writer: string, p: Path, content: T.Tree, meta: Meta, reread: Disk,
                   linkRefused: bool, cut: Cut): PutOutcome {
    var before, t0 := Inspect(disk, t, p, writer), Inspected(disk, t, p, writer);
    if !before.owner.FreePath? && !before.owner.Ours? then PutOutcome(NotOurs, disk, t0, false, None)
    else if cut.AtStaged? then PutOutcome(Stopped, disk, t0, false, None)
    else
      var t1 := PendingTable(before, t0, writer, p, T.IdentityOf(content), meta);
      if cut.AtPending? then PutOutcome(Stopped, disk, t1, true, None)
      else PlaceSpec(before.current, t1, writer, p, content, meta, reread, linkRefused, cut)
  }

  function PendingEntry(before: PathState, t: Table, writer: string, p: Path, id: T.Identity, meta: Meta): Entry {
    NewEntry(t, p, writer, meta.(kind := "pending"), id, Pending(before, id))
  }

  function PendingTable(before: PathState, t: Table, writer: string, p: Path, id: T.Identity, meta: Meta): Table {
    With(t, p, PendingEntry(before, t, writer, p, id, meta))
  }

  /** The rest of a write, once its pending entry is saved. */
  function PlaceSpec(before: Option<T.Identity>, t: Table, writer: string, p: Path, content: T.Tree, meta: Meta,
                     disk: Disk, linkRefused: bool, cut: Cut): PutOutcome {
    var now := TreeAt(disk, p);
    if now.Some? && Some(T.IdentityOf(now.value)) != before then
      PutOutcome(NotPlaced, disk, Without(t, p), true, None)
    else
      var clears := now.Some? && !RenamesOver(content, now.value);
      var cleared := if clears then disk.(trees := disk.trees - {p}) else disk;
      if clears && cut.AtCleared? then PutOutcome(Stopped, cleared, t, true, now)
      else if content.Link? && linkRefused then PutOutcome(LinkRefused, cleared, t, true, now)
      else
        var placed := cleared.(trees := cleared.trees[p := content]);
        if cut.AtPlaced? then PutOutcome(Stopped, placed, t, true, now)
        else
          var id := T.IdentityOf(content);
          var done := With(t, p, NewEntry(t, p, writer, meta, id, None));
          PutOutcome(Placed(id), placed, done, true, now)
  }

  /** The worktree and its private git dir. */
  class Worktree {
    var disk: Disk
    var file: ManifestFile
    var legacy: Option<OldFile>

    constructor (disk: Disk, file: ManifestFile, legacy: Option<OldFile>)
      ensures this.disk == disk && this.file == file && this.legacy == legacy
    {
      this.disk, this.file, this.legacy := disk, file, legacy;
    }
  }

  /** One writer's view of the manifest for one pass. */
  class WorktreeFiles {
    const worktree: Worktree
    const writer: string
    const extra: map<string, string>
    const skillsExtra: map<string, string>
    var roots: seq<string>
    var byPath: Table
    var legacy: bool

    constructor (worktree: Worktree, writer: string, loaded: View)
      ensures this.worktree == worktree && this.writer == writer
      ensures AsView() == loaded
    {
      this.worktree, this.writer := worktree, writer;
      this.extra, this.skillsExtra := loaded.extra, loaded.skillsExtra;
      this.roots, this.byPath, this.legacy := loaded.roots, loaded.byPath, loaded.legacy;
    }

    function AsView(): View
      reads this
    {
      View(extra, skillsExtra, byPath, roots, legacy)
    }

    method InspectPath(p: Path) returns (state: PathState)
      modifies this
      ensures state == Inspect(worktree.disk, old(byPath), p, writer)
      ensures AsView() == old(AsView()).(byPath := Inspected(worktree.disk, old(byPath), p, writer))
    {
      var disk := worktree.disk;
      if p in disk.outside {
        return PathState(Outside, None, Own(byPath, p, writer));
      }
      var listed := Find(byPath, p);
      var current := IdentityAt(disk, p);
      if listed.Some? && (listed.value.writer != writer || listed.value.kind !in KINDS) {
        return PathState(Kept, current, None);
      }
      if current.None? {
        return PathState(FreePath, current, listed);
      }
      if listed.None? {
        return PathState(Theirs, current, None);
      }
      var e := listed.value;
      if current == Some(e.identity) || current == e.alternate {
        return PathState(Ours, current, listed);
      }
      var check := CheckOld(e, disk.trees[p]);
      match check {
        case MustKeep =>
          return PathState(Kept, current, listed);
        case Proven(entry) =>
          byPath := With(byPath, p, entry);
          return PathState(Ours, current, Some(entry));
        case NoMatch =>
          return PathState(if e.kind == "pending" || !T.Verifiable(e.identity) then Kept else Theirs, current, listed);
      }
    }

    /** Replace the manifest in one step; the record of an older cezar goes once its entries are in. */
    method Save()
      modifies this, worktree
      ensures worktree.disk == old(worktree.disk) && worktree.file == Saved(old(AsView()))
      ensures worktree.legacy == if old(legacy) then None else old(worktree.legacy)
      ensures AsView() == old(AsView()).(legacy := false)
    {
      worktree.file := Saved(AsView());
      if legacy {
        worktree.legacy := None;
        legacy := false;
      }
    }

    method Put(p: Path, content: T.Tree, meta: Meta, reread: Disk, linkRefused: bool, cut: Cut) returns (result: PutResult)
      modifies this, worktree
      ensures var o := PutSpec(old(worktree.disk), old(byPath), writer, p, content, meta, reread, linkRefused, cut);
              && result == o.result && worktree.disk == o.disk && byPath == o.table
              && (!o.saved ==> legacy == old(legacy) && worktree.file == old(worktree.file) && worktree.legacy == old(worktree.legacy))
              && (o.saved ==> !legacy && worktree.file == Saved(AsView()))
              && (o.saved ==> worktree.legacy == if old(legacy) then None else old(worktree.legacy))
      ensures roots == old(roots)
      // A redirected parent turns no write into one in another checkout.
      ensures p in old(worktree.disk).outside ==> result == NotOurs && worktree.disk == old(worktree.disk) && AsView() == old(AsView())
      ensures p in old(worktree.disk).outside ==> worktree.file == old(worktree.file) && worktree.legacy == old(worktree.legacy)
    {
      var before := InspectPath(p);
      if !before.owner.FreePath? && !before.owner.Ours? {
        return NotOurs;
      }
      var identity := T.IdentityOf(content);
      if cut.AtStaged? {
        return Stopped;
      }
      ListPending(p, before, identity, meta);
      if cut.AtPending? {
        return Stopped;
      }
      worktree.disk := reread;
      result := Place(p, before.current, content, meta, linkRefused, cut);
    }

    /** Save the entry that outlives a crash during the write: what it leaves, and what it replaces. */
    method ListPending(p: Path, before: PathState, identity: T.Identity, meta: Meta)
      modifies this, worktree
      ensures byPath == PendingTable(before, old(byPath), writer, p, identity, meta)
      ensures !legacy && worktree.file == Saved(AsView()) && roots == old(roots)
      ensures worktree.disk == old(worktree.disk)
      ensures worktree.legacy == if old(legacy) then None else old(worktree.legacy)
    {
      var alternate := if before.current.Some? && before.current != Some(identity) then before.current else None;
      byPath := With(byPath, p, NewEntry(byPath, p, writer, meta.(kind := "pending"), identity, alternate));
      Save();
    }

    /** Read the path again, then clear it, place `content` and list it. The file already holds the
        pending entry. */
    method Place(p: Path, before: Option<T.Identity>, content: T.Tree, meta: Meta, linkRefused: bool, cut: Cut)
      returns (result: PutResult)
      requires !legacy && worktree.file == Saved(AsView())
      modifies this, worktree
      ensures var o := PlaceSpec(before, old(byPath), writer, p, content, meta, old(worktree.disk), linkRefused, cut);
              && result == o.result && worktree.disk == o.disk
              && byPath == o.table && o.saved
      ensures !legacy && worktree.file == Saved(AsView())
      ensures worktree.legacy == old(worktree.legacy) && roots == old(roots)
    {
      var now := TreeAt(worktree.disk, p);
      if now.Some? && Some(T.IdentityOf(now.value)) != before {
        byPath := Without(byPath, p);
        Save();
        return NotPlaced;
      }
      if now.Some? && !RenamesOver(content, now.value) {
        worktree.disk := worktree.disk.(trees := worktree.disk.trees - {p});
        if cut.AtCleared? {
          return Stopped;
        }
      }
      if content.Link? && linkRefused {
        return LinkRefused;
      }
      worktree.disk := worktree.disk.(trees := worktree.disk.trees[p := content]);
      if cut.AtPlaced? {
        return Stopped;
      }
      var identity := T.IdentityOf(content);
      byPath := With(byPath, p, NewEntry(byPath, p, writer, meta, identity, None));
      Save();
      return Placed(identity);
    }

    method Record(p: Path, meta: Meta, identity: T.Identity)
      modifies this
      ensures AsView() == old(AsView()).(byPath := With(old(byPath), p, NewEntry(old(byPath), p, writer, meta, identity, None)))
      // The path is listed with the identity, keeping only the unknown fields of the writer's own entry.
      ensures Find(byPath, p).Some? && var e := Find(byPath, p).value;
              && e.writer == writer && e.kind == meta.kind && e.skill == meta.skill && e.source == meta.source
              && e.identity == identity && e.alternate.None? && e.extra == OwnExtra(old(byPath), p, writer)
      // No other path's entry changes.
      ensures forall q :: q != p ==> Find(byPath, q) == Find(old(byPath), q)
    {
      var e := NewEntry(byPath, p, writer, meta, identity, None);
      WithFinds(byPath, p, e);
      byPath := With(byPath, p, e);
    }

    method Remove(p: Path) returns (removed: bool)
      modifies this, worktree
      ensures var state := Inspect(old(worktree.disk), old(byPath), p, writer);
              var t := Inspected(old(worktree.disk), old(byPath), p, writer);
              && removed == state.owner.Ours?
              && worktree.disk == (if removed then old(worktree.disk).(trees := old(worktree.disk).trees - {p}) else old(worktree.disk))
              && AsView() == old(AsView()).(byPath := if removed then Without(t, p) else t)
              && worktree.file == old(worktree.file) && worktree.legacy == old(worktree.legacy)
      ensures p in old(worktree.disk).outside ==> !removed && worktree.disk == old(worktree.disk) && AsView() == old(AsView())
    {
      var state := InspectPath(p);
      if !state.owner.Ours? {
        return false;
      }
      worktree.disk := worktree.disk.(trees := worktree.disk.trees - {p});
      byPath := Without(byPath, p);
      return true;
    }

    method Forget(p: Path)
      modifies this
      ensures AsView() == old(AsView()).(byPath := if Own(old(byPath), p, writer).Some? then Without(old(byPath), p) else old(byPath))
      // The writer has no entry for the path; another writer's stays, and so does every other path's.
      ensures Own(byPath, p, writer).None?
      ensures Own(old(byPath), p, writer).None? ==> Find(byPath, p) == Find(old(byPath), p)
      ensures forall q :: q != p ==> Find(byPath, q) == Find(old(byPath), q)
    {
      if Own(byPath, p, writer).Some? {
        WithoutFinds(byPath, p);
        byPath := Without(byPath, p);
      }
    }
  }
}
