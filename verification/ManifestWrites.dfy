/** What an inspection answers and relists, and what a write leaves at its path wherever it is cut. */
module ManifestWrites {
  import opened Options
  import opened ManifestTable
  import opened WorktreeManifest
  import T = TreeEncoding

  /** `p` holds `now`, and the writer's entry `e` of a known kind is listed for it. */
  predicate Listed(d: Disk, t: Table, p: Path, writer: string, e: Entry, now: T.Tree) {
    p !in d.outside && TreeAt(d, p) == Some(now) && Find(t, p) == Some(e) && e.writer == writer && e.kind in KINDS
  }

  predicate Names(e: Entry, id: T.Identity) {
    e.identity == id || e.alternate == Some(id)
  }

  /** A tree that the entry names in neither encoding is the agent's, or kept when the entry is pending or cannot be checked. */
  lemma EditIsNotOurs(d: Disk, t: Table, p: Path, writer: string, e: Entry, now: T.Tree)
    requires Listed(d, t, p, writer, e, now) && !Names(e, T.IdentityOf(now)) && !Names(e, T.OldIdentityOf(now))
    ensures var state := Inspect(d, t, p, writer);
            && state.owner == (if e.kind == "pending" || e.identity.Other? then Kept else Theirs)
            && state.current == Some(T.IdentityOf(now)) && state.entry == Some(e)
  {
  }

  /** One `SKILL.md` that an older cezar may have written: as a generated skill, or as what a pending entry in that encoding replaces. */
  lemma OldSkillIsOurs(d: Disk, t: Table, p: Path, writer: string, e: Entry, skill: T.Tree)
    requires Listed(d, t, p, writer, e, T.SkillDir(skill)) && !Names(e, T.IdentityOf(T.SkillDir(skill)))
    requires Names(e, T.OldIdentityOf(T.SkillDir(skill)))
    ensures e.kind == "generated" ==> Inspect(d, t, p, writer).owner.Ours?
    ensures e.kind == "pending" && e.identity.Tree1? ==> Inspect(d, t, p, writer).owner.Ours?
    ensures e.kind == "pending" && !e.identity.Tree1? ==> Inspect(d, t, p, writer).owner.Kept?
    ensures e.kind !in {"generated", "pending"} ==> Inspect(d, t, p, writer).owner.Kept?
  {
  }

  /** A directory of anything else is kept where it reads the same as one copied by an older cezar. */
  lemma OldCopyIsKept(d: Disk, t: Table, p: Path, writer: string, e: Entry, now: T.Tree)
    requires Listed(d, t, p, writer, e, now) && now.Dir? && !Names(e, T.IdentityOf(now)) && Names(e, T.OldIdentityOf(now))
    requires e.kind !in {"generated", "pending"}
    ensures Inspect(d, t, p, writer) == PathState(Kept, Some(T.IdentityOf(now)), Some(e))
  {
  }

  /** The entry names `now` by its identity of today, in the place of the older one that it matched; nothing else in it changes. */
  predicate Renamed(e: Entry, e': Entry, now: T.Tree) {
    && e'.writer == e.writer && e'.kind == e.kind && e'.skill == e.skill && e'.source == e.source && e'.extra == e.extra
    && (if e.identity == T.OldIdentityOf(now) then e'.identity == T.IdentityOf(now) && e'.alternate == e.alternate
        else e.alternate == Some(T.OldIdentityOf(now)) && e'.alternate == Some(T.IdentityOf(now)) && e'.identity == e.identity)
  }

  /** What is the writer's stays the writer's at the next look, and an inspection changes no other path's entry. */
  lemma OursIsRelisted(d: Disk, t: Table, p: Path, writer: string, e: Entry, now: T.Tree)
    requires Listed(d, t, p, writer, e, now) && Inspect(d, t, p, writer).owner.Ours?
    ensures var e' := Find(Inspected(d, t, p, writer), p);
            e'.Some? && Names(e'.value, T.IdentityOf(now)) && (if Names(e, T.IdentityOf(now)) then e'.value == e else Renamed(e, e'.value, now))
    ensures forall q :: q != p ==> Find(Inspected(d, t, p, writer), q) == Find(t, q)
  {
    var state := Inspect(d, t, p, writer);
    if state.entry != Find(t, p) {
      WithFinds(t, p, state.entry.value);
    }
  }

  // ---- one write -------------------------------------------------------------------------------

  function FileAt(d: Disk, p: Path): Option<T.Tree> {
    if p in d.trees && d.trees[p].File? then Some(d.trees[p]) else None
  }

  /** A file goes over a file in one rename: wherever the write is cut, the path holds the old file or the new one. */
  lemma FileIsNeverAbsent(d: Disk, t: Table, writer: string, p: Path, content: T.Tree, meta: Meta, reread: Disk, refused: bool, cut: Cut)
    requires content.File? && FileAt(d, p).Some? && FileAt(reread, p).Some?
    ensures FileAt(PutSpec(d, t, writer, p, content, meta, reread, refused, cut).disk, p) in {FileAt(d, p), FileAt(reread, p), Some(content)}
    ensures FileAt(PutSpec(d, t, writer, p, content, meta, reread, refused, cut).disk, p) != None
  {
  }

  /** Anything else is cleared first, and a write cut there leaves nothing at the path. */
  lemma OthersAreCleared(t: Table, writer: string, p: Path, content: T.Tree, meta: Meta, d: Disk, refused: bool)
    requires p in d.trees && (!content.File? || !d.trees[p].File?)
    ensures var o := PlaceSpec(IdentityAt(d, p), t, writer, p, content, meta, d, refused, AtCleared);
            p !in o.disk.trees && o.lost == Some(d.trees[p]) && o.table == t && o.result == Stopped
  {
  }

  /** The entry saved before the path changes names what the write leaves and, if that is something else, what is there. */
  lemma PendingNamesBoth(before: PathState, t: Table, writer: string, p: Path, id: T.Identity, meta: Meta)
    ensures var e := Find(PendingTable(before, t, writer, p, id, meta), p);
            && e.Some? && e.value.writer == writer && e.value.kind == "pending" && e.value.identity == id
            && e.value.skill == meta.skill && e.value.source == meta.source
            && (if before.current == Some(id) then e.value.alternate.None? else e.value.alternate == before.current)
  {
    WithFinds(t, p, PendingEntry(before, t, writer, p, id, meta));
  }

  /** A link that the system refuses is not there afterwards, and its pending entry stays; neither does a cut after placing end the entry. */
  lemma UnfinishedStaysPending(t: Table, writer: string, p: Path, content: T.Tree, meta: Meta, d: Disk, cut: Cut)
    ensures content.Link? && !cut.AtCleared? ==>
              var o := PlaceSpec(IdentityAt(d, p), t, writer, p, content, meta, d, true, cut);
              o.result == LinkRefused && o.table == t && p !in o.disk.trees && o.lost == TreeAt(d, p)
    ensures var o := PlaceSpec(IdentityAt(d, p), t, writer, p, content, meta, d, false, AtPlaced);
            o.result == Stopped && o.table == t && TreeAt(o.disk, p) == Some(content) && o.lost == TreeAt(d, p)
  {
  }

  /** A write that goes through leaves the content, whatever was there, and lists it under its own identity alone. */
  lemma WholeWriteLeaves(t: Table, writer: string, p: Path, content: T.Tree, meta: Meta, d: Disk)
    ensures var o := PlaceSpec(IdentityAt(d, p), t, writer, p, content, meta, d, false, Whole);
            && o.disk.trees == d.trees[p := content] && o.disk.outside == d.outside && o.lost == TreeAt(d, p)
            && var e := Find(o.table, p);
               && e.Some? && e.value.identity == T.IdentityOf(content) && e.value.alternate == None
               && e.value.writer == writer && e.value.kind == meta.kind && e.value.skill == meta.skill && e.value.source == meta.source
  {
    var e := NewEntry(t, p, writer, meta, T.IdentityOf(content), None);
    WithFinds(t, p, e);
  }

  /** What the agent wrote meanwhile stays, and nothing is listed for it. */
  lemma MeanwhileIsKept(before: Option<T.Identity>, t: Table, writer: string, p: Path, content: T.Tree, meta: Meta, d: Disk, refused: bool, cut: Cut)
    requires p in d.trees && before != IdentityAt(d, p)
    ensures var o := PlaceSpec(before, t, writer, p, content, meta, d, refused, cut);
            o.disk == d && o.lost == None && Find(o.table, p) == None && o.result == NotPlaced
    ensures forall q :: q != p ==> Find(PlaceSpec(before, t, writer, p, content, meta, d, refused, cut).table, q) == Find(t, q)
  {
    WithoutFinds(t, p);
  }
}
