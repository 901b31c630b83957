/** Runs over a worktree that cezar and an agent write to. */
module ManifestRuns {
  // Passes of several writers, each write whole or cut short, removals, saves, reloads after a crash, and an
  // agent that edits the same paths at any time.

  import opened Options
  import opened ManifestTable
  import opened WorktreeManifest
  import T = TreeEncoding

  /** `writer` had, or removed, `tree` at `path`. */
  datatype Fact = Fact(writer: string, path: Path, tree: T.Tree)

  datatype Op =
    | NewPass(writer: string)
    | PutAt(p: Path, content: T.Tree, meta: Meta, reread: Disk, linkRefused: bool, cut: Cut)
    | RemoveAt(p: Path)
    | ForgetAt(p: Path)
    | RecordAt(p: Path, meta: Meta, tree: T.Tree)
    | SaveNow
    | AgentEdits(disk: Disk)

  /**
   * `older`: what an older cezar had written before the run. `wrote`: what this one listed, as pending
   * on disk or as recorded. `adopted`: what it took for its own by the older encoding. `lost`: what its writes and
   * removals destroyed.
   */
  datatype Session = Session(
    disk: Disk, file: ManifestFile, legacy: Option<OldFile>,
    writer: string, view: View, running: bool,
    older: set<Fact>, wrote: set<Fact>, adopted: set<Fact>, lost: set<Fact>)

  function Save(s: Session): Session {
    s.(file := Saved(s.view), legacy := if s.view.legacy then None else s.legacy, view := s.view.(legacy := false))
  }

  function WithTable(s: Session, t: Table): Session {
    s.(view := s.view.(byPath := t))
  }

  /** What an inspection of `p` takes for its own by the older encoding. */
  function Adopts(s: Session, p: Path): set<Fact> {
    if p in s.disk.trees && Inspected(s.disk, s.view.byPath, p, s.writer) != s.view.byPath
    then {Fact(s.writer, p, s.disk.trees[p])} else {}
  }

  function Do(s: Session, op: Op): Session {
    match op
    case NewPass(writer) =>
      (match Load(s.file, s.legacy)
       case None => s.(running := false)
       case Some(view) => s.(writer := writer, view := view, running := true))
    case AgentEdits(disk) => s.(disk := disk)
    case _ =>
      if !s.running then s else
      match op
      case PutAt(p, content, meta, reread, linkRefused, cut) =>
        var o := PutSpec(s.disk, s.view.byPath, s.writer, p, content, meta, reread, linkRefused, cut);
        var s' := WithTable(s, o.table).(
          disk := o.disk, running := !o.result.Stopped?,
          wrote := if o.saved then s.wrote + {Fact(s.writer, p, content)} else s.wrote, adopted := s.adopted + Adopts(s, p),
          lost := if o.lost.Some? then s.lost + {Fact(s.writer, p, o.lost.value)} else s.lost);
        if o.saved then Save(s') else s'
      case RemoveAt(p) =>
        var ours := Inspect(s.disk, s.view.byPath, p, s.writer).owner.Ours?;
        var t := Inspected(s.disk, s.view.byPath, p, s.writer);
        var s' := s.(adopted := s.adopted + Adopts(s, p));
        if ours then
          WithTable(s', Without(t, p)).(
            disk := s.disk.(trees := s.disk.trees - {p}),
            lost := if p in s.disk.trees then s.lost + {Fact(s.writer, p, s.disk.trees[p])} else s.lost)
        else WithTable(s', t)
      case ForgetAt(p) =>
        if Own(s.view.byPath, p, s.writer).Some? then WithTable(s, Without(s.view.byPath, p)) else s
      case RecordAt(p, meta, tree) =>
        // Callers record only a path that inspects as theirs.
        var t := s.view.byPath;
        if !Inspect(s.disk, t, p, s.writer).owner.Ours? then s else
        WithTable(s, With(t, p, NewEntry(t, p, s.writer, meta, T.IdentityOf(tree), None))).(
          wrote := s.wrote + {Fact(s.writer, p, tree)})
      case SaveNow => Save(s)
  }

  function DoAll(s: Session, ops: seq<Op>): Session
    decreases |ops|
  {
    if ops == [] then s else DoAll(Do(s, ops[0]), ops[1..])
  }

  // ---- what is destroyed -----------------------------------------------------------------------

  predicate ValidDisk(d: Disk) {
    forall p :: p in d.trees ==> T.Valid(d.trees[p])
  }

  predicate ValidOp(op: Op) {
    match op
    case PutAt(_, content, _, reread, _, _) => T.Valid(content) && ValidDisk(reread)
    case RecordAt(_, _, tree) => T.Valid(tree)
    case AgentEdits(disk) => ValidDisk(disk)
    case _ => true
  }

  predicate ValidOps(ops: seq<Op>) {
    forall n :: 0 <= n < |ops| ==> ValidOp(ops[n])
  }

  /** What an older cezar left for a generated skill. */
  predicate OneSkill(t: T.Tree) {
    OnlySkill(t) && t.entries[0].tree.File?
  }

  /** The same tree, but for the executable bit the older encoding leaves out. */
  predicate SameButMode(r: T.Tree, t: T.Tree) {
    || r == t
    || (r.File? && t.File? && r.bytes == t.bytes)
    || (OneSkill(r) && OneSkill(t) && r.entries[0].tree.bytes == t.entries[0].tree.bytes)
  }

  ghost predicate FromOlder(s: Session, f: Fact) {
    exists r :: Fact(f.writer, f.path, r) in s.older && SameButMode(r, f.tree)
  }

  /** `id` names something the writer had at `p`. */
  ghost predicate Backed(s: Session, writer: string, p: Path, id: T.Identity, one: bool) {
    || id.Other?
    || (exists r :: Fact(writer, p, r) in s.wrote + s.adopted && id == T.IdentityOf(r))
    || (exists r :: Fact(writer, p, r) in s.older && id == T.OldIdentityOf(r) && (one && r.Dir? ==> OneSkill(r)))
  }

  ghost predicate EntryBacked(s: Session, p: Path, e: Entry) {
    && Backed(s, e.writer, p, e.identity, OneSkillEntry(e))
    && (e.alternate.Some? ==> Backed(s, e.writer, p, e.alternate.value, OneSkillEntry(e)))
  }

  ghost predicate TableBacked(s: Session, t: Table) {
    forall p :: Find(t, p).Some? ==> EntryBacked(s, p, Find(t, p).value)
  }

  ghost predicate FileBacked(s: Session) {
    Load(s.file, s.legacy).Some? ==> TableBacked(s, Load(s.file, s.legacy).value.byPath)
  }

  ghost predicate FactsValid(facts: set<Fact>) {
    forall f :: f in facts ==> T.Valid(f.tree)
  }

  /** The session before the run: nothing is lost, and every listed identity is of an older write. */
  ghost predicate Start(s: Session) {
    && !s.running && s.wrote == s.adopted == s.lost == {}
    && ValidDisk(s.disk) && FactsValid(s.older) && FileBacked(s)
  }

  ghost predicate Inv(s: Session) {
    && ValidDisk(s.disk)
    && FactsValid(s.older) && FactsValid(s.wrote) && FactsValid(s.adopted)
    && FileBacked(s)
    && (s.running ==> TableBacked(s, s.view.byPath) && Distinct(s.view.byPath) && (s.legacy.Some? ==> s.view.legacy))
    && (forall f :: f in s.adopted ==> FromOlder(s, f))
    && (forall f :: f in s.lost ==> f in s.wrote || FromOlder(s, f))
  }

  ghost predicate Grows(s: Session, s': Session) {
    s'.older == s.older && s.wrote <= s'.wrote && s.adopted <= s'.adopted
  }

  lemma StillBacked(s: Session, s': Session, t: Table)
    requires Grows(s, s') && TableBacked(s, t)
    ensures TableBacked(s', t)
  {
    forall p | Find(t, p).Some?
      ensures EntryBacked(s', p, Find(t, p).value)
    {
      var e := Find(t, p).value;
      StillBackedId(s, s', e.writer, p, e.identity, OneSkillEntry(e));
      if e.alternate.Some? {
        StillBackedId(s, s', e.writer, p, e.alternate.value, OneSkillEntry(e));
      }
    }
  }

  lemma StillBackedId(s: Session, s': Session, writer: string, p: Path, id: T.Identity, one: bool)
    requires Grows(s, s') && Backed(s, writer, p, id, one)
    ensures Backed(s', writer, p, id, one)
  {
    if exists r :: Fact(writer, p, r) in s.wrote + s.adopted && id == T.IdentityOf(r) {
      var r :| Fact(writer, p, r) in s.wrote + s.adopted && id == T.IdentityOf(r);
      assert Fact(writer, p, r) in s'.wrote + s'.adopted;
    }
  }

  lemma BackedWith(s: Session, t: Table, p: Path, e: Entry)
    requires TableBacked(s, t) && EntryBacked(s, p, e)
    ensures TableBacked(s, With(t, p, e))
  {
    forall q | Find(With(t, p, e), q).Some?
      ensures EntryBacked(s, q, Find(With(t, p, e), q).value)
    {
      FindWith(t, p, e, q);
    }
  }

  lemma BackedWithout(s: Session, t: Table, p: Path)
    requires TableBacked(s, t)
    ensures TableBacked(s, Without(t, p))
  {
    forall q | Find(Without(t, p), q).Some?
      ensures EntryBacked(s, q, Find(Without(t, p), q).value)
    {
      FindWithout(t, p, q);
    }
  }

  /** A tree the older encoding proves unchanged is what was written, but for its mode. */
  lemma ProvenIsSame(r: T.Tree, t: T.Tree, one: bool)
    requires T.OldIdentityOf(r) == T.OldIdentityOf(t)
    requires t.File? || (OnlySkill(t) && (r.Dir? ==> OneSkill(r)))
    ensures SameButMode(r, t)
  {
    if t.File? {
      T.OldStreamOfFile(t, r);
    } else {
      T.OldStreamLetter(r);
      T.OldStreamLetter(t);
      var skill, other := r.entries[0].tree, t.entries[0].tree;
      assert r == T.SkillDir(skill) && t == T.SkillDir(other);
      T.OldStreamOfOneSkill(skill, other);
    }
  }

  predicate OursAt(s: Session, p: Path) {
    Inspect(s.disk, s.view.byPath, p, s.writer).owner.Ours?
  }

  /** The session's facts are in place and so is the pass it runs. */
  ghost predicate Ready(s: Session) {
    ValidDisk(s.disk) && FactsValid(s.older) && FactsValid(s.wrote) && FactsValid(s.adopted)
    && TableBacked(s, s.view.byPath)
  }

  /** An identity read from a tree is the writer's own only when the writer had that very tree. */
  lemma BackedTree(s: Session, p: Path, t: T.Tree, one: bool)
    requires Ready(s) && T.Valid(t) && Backed(s, s.writer, p, T.IdentityOf(t), one)
    ensures Fact(s.writer, p, t) in s.wrote + s.adopted || FromOlder(s, Fact(s.writer, p, t))
  {
    var id := T.IdentityOf(t);
    if exists r :: Fact(s.writer, p, r) in s.wrote + s.adopted && id == T.IdentityOf(r) {
      var r :| Fact(s.writer, p, r) in s.wrote + s.adopted && id == T.IdentityOf(r);
      assert T.Valid(Fact(s.writer, p, r).tree);
      T.IdentityNamesOneTree(r, t);
    } else {
      var r :| Fact(s.writer, p, r) in s.older && id == T.OldIdentityOf(r);
      assert r == t;
    }
  }

  lemma BackedOldTree(s: Session, p: Path, t: T.Tree, one: bool)
    requires Ready(s) && !t.Link? && Backed(s, s.writer, p, T.OldIdentityOf(t), one)
    requires t.File? || (one && OnlySkill(t))
    ensures FromOlder(s, Fact(s.writer, p, t))
  {
    var r :| Fact(s.writer, p, r) in s.older && T.OldIdentityOf(t) == T.OldIdentityOf(r) && (one && r.Dir? ==> OneSkill(r));
    ProvenIsSame(r, t, one);
  }

  /** What is at a path that is the writer's: a tree it had, but for the mode of an older one. */
  lemma OursIsBacked(s: Session, p: Path)
    requires Ready(s) && OursAt(s, p)
    ensures p in s.disk.trees
    ensures var f := Fact(s.writer, p, s.disk.trees[p]);
            && (f in s.wrote + s.adopted || FromOlder(s, f))
            && (Adopts(s, p) != {} ==> FromOlder(s, f))
    ensures Adopts(s, p) == {} ==> Backed(s, s.writer, p, T.IdentityOf(s.disk.trees[p]), false)
  {
    var e, t := Find(s.view.byPath, p).value, s.disk.trees[p];
    assert EntryBacked(s, p, e) && e.writer == s.writer;
    var one := OneSkillEntry(e);
    if T.IdentityOf(t) == e.identity || Some(T.IdentityOf(t)) == e.alternate {
      assert Backed(s, s.writer, p, T.IdentityOf(t), one);
      BackedTree(s, p, t, one);
    } else {
      ProvenEntry(e, t);
      assert Backed(s, s.writer, p, T.OldIdentityOf(t), one);
      BackedOldTree(s, p, t, one);
      FindWith(s.view.byPath, p, CheckOld(e, t).entry, p);
      assert Adopts(s, p) != {};
    }
  }

  lemma ProvenEntry(e: Entry, t: T.Tree)
    requires CheckOld(e, t).Proven? && T.IdentityOf(t) != e.identity && Some(T.IdentityOf(t)) != e.alternate
    ensures !t.Link? && (t.File? || (OneSkillEntry(e) && OnlySkill(t)))
    ensures T.OldIdentityOf(t) == e.identity || Some(T.OldIdentityOf(t)) == e.alternate
    ensures CheckOld(e, t).entry != e && CheckOld(e, t).entry.writer == e.writer
  {
  }

  /** The session once the inspection of `p` is accounted for. */
  function Adopted(s: Session, p: Path): Session {
    WithTable(s.(adopted := s.adopted + Adopts(s, p)), Inspected(s.disk, s.view.byPath, p, s.writer))
  }

  lemma AdoptedIsReady(s: Session, p: Path)
    requires Ready(s)
    ensures Ready(Adopted(s, p)) && Grows(s, Adopted(s, p))
    ensures forall f :: f in Adopts(s, p) ==> FromOlder(s, f)
    ensures OursAt(s, p) ==> Backed(Adopted(s, p), s.writer, p, T.IdentityOf(s.disk.trees[p]), false)
  {
    var s' := Adopted(s, p);
    StillBacked(s, s', s.view.byPath);
    if OursAt(s, p) {
      OursIsBacked(s, p);
      var t := s.disk.trees[p];
      if Adopts(s, p) != {} {
        assert Fact(s.writer, p, t) in s'.wrote + s'.adopted;
        var e, e' := Find(s.view.byPath, p).value, Inspect(s.disk, s.view.byPath, p, s.writer).entry.value;
        assert EntryBacked(s', p, e);
        assert e' == CheckOld(e, t).entry;
        assert EntryBacked(s', p, e');
        BackedWith(s', s.view.byPath, p, e');
      } else {
        StillBackedId(s, s', s.writer, p, T.IdentityOf(t), false);
      }
    }
  }

  ghost predicate LossesFit(s: Session) {
    && (forall f :: f in s.adopted ==> FromOlder(s, f))
    && (forall f :: f in s.lost ==> f in s.wrote || FromOlder(s, f))
  }

  lemma InspectedIsDistinct(s: Session, p: Path)
    requires Distinct(s.view.byPath)
    ensures Distinct(Inspected(s.disk, s.view.byPath, p, s.writer))
  {
    var state := Inspect(s.disk, s.view.byPath, p, s.writer);
    if state.entry.Some? {
      DistinctWith(s.view.byPath, p, state.entry.value);
    }
  }

  /** A file written from a backed table loads back as one. */
  lemma SaveKeepsInv(s: Session)
    requires Ready(s) && LossesFit(s) && Distinct(s.view.byPath) && (s.legacy.Some? ==> s.view.legacy)
    ensures Inv(Save(s))
  {
    SavedLoadsBack(s.view);
    StillBacked(s, Save(s), s.view.byPath);
    LossesStillFit(s, Save(s));
  }

  lemma LossesStillFit(s: Session, s': Session)
    requires LossesFit(s) && Grows(s, s')
    requires forall f :: f in s'.adopted ==> f in s.adopted || FromOlder(s, f)
    requires forall f :: f in s'.lost ==> f in s.lost || f in s'.wrote || FromOlder(s, f)
    ensures LossesFit(s')
  {
    forall f: Fact | FromOlder(s, f)
      ensures FromOlder(s', f)
    {
      var r :| Fact(f.writer, f.path, r) in s.older && SameButMode(r, f.tree);
      assert Fact(f.writer, f.path, r) in s'.older;
    }
  }

  /** The session once the write of `content` at `p` may list its pending entry. */
  function Staged(s: Session, p: Path, content: T.Tree): Session {
    var s1 := Adopted(s, p);
    s1.(wrote := s1.wrote + {Fact(s.writer, p, content)})
  }

  predicate MayWrite(s: Session, p: Path) {
    OursAt(s, p) || Inspect(s.disk, s.view.byPath, p, s.writer).owner.FreePath?
  }

  function PendingAt(s: Session, p: Path, content: T.Tree, meta: Meta): Entry {
    PendingEntry(Inspect(s.disk, s.view.byPath, p, s.writer), Adopted(s, p).view.byPath, s.writer, p, T.IdentityOf(content), meta)
  }

  lemma StagedIsReady(s: Session, p: Path, content: T.Tree)
    requires Inv(s) && s.running && T.Valid(content)
    ensures var s1 := Staged(s, p, content); Ready(s1) && Grows(s, s1) && LossesFit(s1) && FileBacked(s1) && Distinct(s1.view.byPath)
    ensures OursAt(s, p) ==> Backed(Staged(s, p, content), s.writer, p, T.IdentityOf(s.disk.trees[p]), false)
  {
    var s0, s1 := Adopted(s, p), Staged(s, p, content);
    AdoptedIsReady(s, p);
    InspectedIsDistinct(s, p);
    StillBacked(s0, s1, s0.view.byPath);
    LossesStillFit(s, s1);
    FileStillBacked(s, s1);
    if OursAt(s, p) {
      StillBackedId(s0, s1, s.writer, p, T.IdentityOf(s.disk.trees[p]), false);
    }
  }

  lemma PendingNames(s: Session, p: Path, content: T.Tree, meta: Meta)
    requires MayWrite(s, p)
    ensures var e := PendingAt(s, p, content, meta);
            && e.writer == s.writer && e.identity == T.IdentityOf(content) && !OneSkillEntry(e)
            && (e.alternate.Some? ==> OursAt(s, p) && p in s.disk.trees && e.alternate.value == T.IdentityOf(s.disk.trees[p]))
  {
  }

  lemma PendingIsBacked(s: Session, p: Path, content: T.Tree, meta: Meta)
    requires Inv(s) && s.running && T.Valid(content) && MayWrite(s, p)
    ensures EntryBacked(Staged(s, p, content), p, PendingAt(s, p, content, meta))
  {
    var s1, e := Staged(s, p, content), PendingAt(s, p, content, meta);
    StagedIsReady(s, p, content);
    PendingNames(s, p, content, meta);
    assert Fact(s.writer, p, content) in s1.wrote + s1.adopted;
    assert Backed(s1, s.writer, p, e.identity, false);
  }

  /** What a write finds when it reads the path again, and destroys, was the writer's. */
  lemma RereadIsOurs(s: Session, p: Path, now: T.Tree)
    requires Ready(s) && MayWrite(s, p) && T.Valid(now)
    requires Some(T.IdentityOf(now)) == Inspect(s.disk, s.view.byPath, p, s.writer).current
    ensures var f := Fact(s.writer, p, now); f in s.wrote + s.adopted || FromOlder(s, f)
  {
    OursIsBacked(s, p);
    T.IdentityNamesOneTree(now, s.disk.trees[p]);
  }

  /** Whatever way the rest of a write goes, its table stays backed. */
  lemma PlacedTableIsBacked(s: Session, before: Option<T.Identity>, t: Table, p: Path, content: T.Tree, meta: Meta,
                            disk: Disk, linkRefused: bool, cut: Cut)
    requires TableBacked(s, t) && Distinct(t) && Fact(s.writer, p, content) in s.wrote
    ensures var o := PlaceSpec(before, t, s.writer, p, content, meta, disk, linkRefused, cut);
            TableBacked(s, o.table) && Distinct(o.table)
  {
    BackedWithout(s, t, p);
    DistinctWithout(t, p);
    var e := NewEntry(t, p, s.writer, meta, T.IdentityOf(content), None);
    assert Fact(s.writer, p, content) in s.wrote + s.adopted;
    assert EntryBacked(s, p, e);
    BackedWith(s, t, p, e);
    DistinctWith(t, p, e);
  }

  lemma PlacedDiskIsValid(before: Option<T.Identity>, t: Table, writer: string, p: Path, content: T.Tree, meta: Meta,
                          disk: Disk, linkRefused: bool, cut: Cut)
    requires T.Valid(content) && ValidDisk(disk)
    ensures var o := PlaceSpec(before, t, writer, p, content, meta, disk, linkRefused, cut);
            && ValidDisk(o.disk) && o.saved
            && (o.lost.Some? ==> o.lost == TreeAt(disk, p) && T.Valid(o.lost.value) && Some(T.IdentityOf(o.lost.value)) == before)
  {
  }

  lemma FileStillBacked(s: Session, s': Session)
    requires FileBacked(s) && Grows(s, s') && s'.file == s.file && s'.legacy == s.legacy
    ensures FileBacked(s')
  {
    if Load(s.file, s.legacy).Some? {
      StillBacked(s, s', Load(s.file, s.legacy).value.byPath);
    }
  }

  /** A write that was refused, or cut before it saved anything. */
  lemma UnsavedPutKeepsInv(s: Session, op: Op)
    requires Inv(s) && s.running && op.PutAt? && ValidOp(op)
    requires !MayWrite(s, op.p) || op.cut.AtStaged?
    ensures Inv(Do(s, op))
  {
    var s1, s' := Adopted(s, op.p), Do(s, op);
    AdoptedIsReady(s, op.p);
    InspectedIsDistinct(s, op.p);
    assert s' == s1.(running := s'.running);
    StillBacked(s1, s', s1.view.byPath);
    LossesStillFit(s, s');
    FileStillBacked(s, s');
  }

  /** The session a write saves: its pending entry listed, and what `o` did to the disk and the table. */
  function Written(s: Session, p: Path, content: T.Tree, t: Table, o: PutOutcome): Session {
    WithTable(Staged(s, p, content), t).(
      disk := o.disk, running := !o.result.Stopped?,
      lost := if o.lost.Some? then s.lost + {Fact(s.writer, p, o.lost.value)} else s.lost)
  }

  lemma WrittenKeepsInv(s: Session, p: Path, content: T.Tree, t: Table, o: PutOutcome)
    requires Inv(s) && s.running && T.Valid(content) && MayWrite(s, p)
    requires TableBacked(Staged(s, p, content), t) && Distinct(t) && ValidDisk(o.disk)
    requires o.lost.Some? ==> T.Valid(o.lost.value)
    requires o.lost.Some? ==> Some(T.IdentityOf(o.lost.value)) == Inspect(s.disk, s.view.byPath, p, s.writer).current
    ensures Inv(Save(Written(s, p, content, t, o)))
  {
    var s1, s2 := Staged(s, p, content), Written(s, p, content, t, o);
    StagedIsReady(s, p, content);
    StillBacked(s1, s2, t);
    if o.lost.Some? {
      RereadIsOurs(s, p, o.lost.value);
    }
    LossesStillFit(s, s1);
    forall f | f in s2.lost
      ensures f in s.lost || f in s2.wrote || FromOlder(s, f)
    {
    }
    LossesStillFit(s, s2);
    SaveKeepsInv(s2);
  }

  lemma SavedPutKeepsInv(s: Session, op: Op)
    requires Inv(s) && s.running && op.PutAt? && ValidOp(op)
    requires MayWrite(s, op.p) && !op.cut.AtStaged?
    ensures Inv(Do(s, op))
  {
    var p, content := op.p, op.content;
    var s1, e := Staged(s, p, content), PendingAt(s, p, content, op.meta);
    var before := Inspect(s.disk, s.view.byPath, p, s.writer);
    StagedIsReady(s, p, content);
    PendingIsBacked(s, p, content, op.meta);
    BackedWith(s1, s1.view.byPath, p, e);
    DistinctWith(s1.view.byPath, p, e);
    var t1 := With(s1.view.byPath, p, e);
    var o := PutSpec(s.disk, s.view.byPath, s.writer, p, content, op.meta, op.reread, op.linkRefused, op.cut);
    if !op.cut.AtPending? {
      PlacedTableIsBacked(s1, before.current, t1, p, content, op.meta, op.reread, op.linkRefused, op.cut);
      PlacedDiskIsValid(before.current, t1, s.writer, p, content, op.meta, op.reread, op.linkRefused, op.cut);
    }
    WrittenKeepsInv(s, p, content, o.table, o);
    assert Do(s, op) == Save(Written(s, p, content, o.table, o));
  }

  lemma RemoveKeepsInv(s: Session, op: Op)
    requires Inv(s) && s.running && op.RemoveAt?
    ensures Inv(Do(s, op))
  {
    var p, s1, s' := op.p, Adopted(s, op.p), Do(s, op);
    AdoptedIsReady(s, p);
    InspectedIsDistinct(s, p);
    if OursAt(s, p) {
      OursIsBacked(s, p);
      BackedWithout(s1, s1.view.byPath, p);
      DistinctWithout(s1.view.byPath, p);
      StillBacked(s1, s', Without(s1.view.byPath, p));
    } else {
      StillBacked(s1, s', s1.view.byPath);
    }
    LossesStillFit(s, s');
    FileStillBacked(s, s');
  }

  lemma RecordKeepsInv(s: Session, op: Op)
    requires Inv(s) && s.running && op.RecordAt? && ValidOp(op) && OursAt(s, op.p)
    ensures Inv(Do(s, op))
  {
    var s' := Do(s, op);
    var t, e := s.view.byPath, NewEntry(s.view.byPath, op.p, s.writer, op.meta, T.IdentityOf(op.tree), None);
    assert Fact(s.writer, op.p, op.tree) in s'.wrote + s'.adopted;
    assert EntryBacked(s', op.p, e);
    StillBacked(s, s', t);
    BackedWith(s', t, op.p, e);
    DistinctWith(t, op.p, e);
    LossesStillFit(s, s');
    FileStillBacked(s, s');
  }

  lemma NewPassKeepsInv(s: Session, op: Op)
    requires Inv(s) && op.NewPass?
    ensures Inv(Do(s, op))
  {
    var s' := Do(s, op);
    if Load(s.file, s.legacy).Some? {
      LoadedIsDistinct(s.file, s.legacy);
      StillBacked(s, s', Load(s.file, s.legacy).value.byPath);
    }
    LossesStillFit(s, s');
    FileStillBacked(s, s');
  }

  lemma OtherOpKeepsInv(s: Session, op: Op)
    requires Inv(s) && ValidOp(op) && (op.ForgetAt? || op.SaveNow? || op.AgentEdits?)
    ensures Inv(Do(s, op))
  {
    var s' := Do(s, op);
    if op.SaveNow? && s.running {
      SaveKeepsInv(s);
    } else {
      if s.running {
        if op.ForgetAt? {
          BackedWithout(s, s.view.byPath, op.p);
          DistinctWithout(s.view.byPath, op.p);
        }
        StillBacked(s, s', s'.view.byPath);
      }
      LossesStillFit(s, s');
      FileStillBacked(s, s');
    }
  }

  lemma DoKeepsInv(s: Session, op: Op)
    requires Inv(s) && ValidOp(op)
    ensures Inv(Do(s, op))
  {
    match op
    case NewPass(_) => NewPassKeepsInv(s, op);
    case PutAt(p, _, _, _, _, cut) =>
      if s.running {
        if MayWrite(s, p) && !cut.AtStaged? {
          SavedPutKeepsInv(s, op);
        } else {
          UnsavedPutKeepsInv(s, op);
        }
      }
    case RemoveAt(_) => if s.running { RemoveKeepsInv(s, op); }
    case RecordAt(p, _, _) => if s.running && OursAt(s, p) { RecordKeepsInv(s, op); }
    case _ => OtherOpKeepsInv(s, op);
  }

  lemma {:induction false} RunKeepsInv(s: Session, ops: seq<Op>)
    requires Inv(s) && ValidOps(ops)
    ensures Inv(DoAll(s, ops))
    decreases |ops|
  {
    if ops != [] {
      DoKeepsInv(s, ops[0]);
      RunKeepsInv(Do(s, ops[0]), ops[1..]);
    }
  }

  /**
   * Over every run, a tree that was overwritten or deleted is one the same writer had listed for that very
   * path, or is what an older cezar wrote there, but for the executable bit.
   */
  lemma OnlyOwnTreesAreLost(s: Session, ops: seq<Op>, f: Fact)
    requires Start(s) && ValidOps(ops) && f in DoAll(s, ops).lost
    ensures f in DoAll(s, ops).wrote || FromOlder(DoAll(s, ops), f)
  {
    RunKeepsInv(s, ops);
  }

  /** The entry names the tree, in either encoding. */
  predicate Names(e: Entry, t: T.Tree) {
    || T.IdentityOf(t) == e.identity || Some(T.IdentityOf(t)) == e.alternate
    || T.OldIdentityOf(t) == e.identity || Some(T.OldIdentityOf(t)) == e.alternate
  }

  /** What inspects as the writer's is named by its entry. */
  lemma OursIsNamed(s: Session, p: Path)
    requires OursAt(s, p)
    ensures p in s.disk.trees
    ensures var e := Own(s.view.byPath, p, s.writer); e.Some? && Names(e.value, s.disk.trees[p])
  {
  }

  lemma WriteLosesCurrent(s: Session, op: Op, o: PutOutcome)
    requires op.PutAt? && ValidOp(op) && o.lost.Some?
    requires o == PutSpec(s.disk, s.view.byPath, s.writer, op.p, op.content, op.meta, op.reread, op.linkRefused, op.cut)
    ensures OursAt(s, op.p) && op.p in s.disk.trees && T.Valid(o.lost.value)
    ensures T.IdentityOf(o.lost.value) == T.IdentityOf(s.disk.trees[op.p])
  {
  }

  /** At each step, a tree that is lost is named by the entry that the writer has for its path just then. */
  lemma LostWasListed(s: Session, op: Op, f: Fact)
    requires ValidDisk(s.disk) && ValidOp(op) && f in Do(s, op).lost && f !in s.lost
    ensures f.writer == s.writer && var e := Own(s.view.byPath, f.path, s.writer); e.Some? && Names(e.value, f.tree)
  {
    if op.PutAt? {
      var o := PutSpec(s.disk, s.view.byPath, s.writer, op.p, op.content, op.meta, op.reread, op.linkRefused, op.cut);
      WriteLosesCurrent(s, op, o);
      T.IdentityNamesOneTree(f.tree, s.disk.trees[op.p]);
      OursIsNamed(s, op.p);
    } else if op.RemoveAt? {
      OursIsNamed(s, op.p);
    }
  }

  // ---- outside the worktree --------------------------------------------------------------------

  /** At a path whose parent leads out of the worktree a write and a removal change nothing at all. */
  lemma OutsideIsLeftAlone(s: Session, op: Op)
    requires (op.PutAt? || op.RemoveAt?) && op.p in s.disk.outside
    ensures Do(s, op) == s
  {
  }

  /** Operation `n` of a run writes or removes `p`, and the parent of `p` is inside the worktree. */
  predicate TouchesInside(s: Session, ops: seq<Op>, n: nat, p: Path)
    requires n < |ops|
  {
    (ops[n].PutAt? || ops[n].RemoveAt?) && ops[n].p == p && p !in DoAll(s, ops[..n]).disk.outside
  }

  lemma {:induction false} DoAllSplits(s: Session, ops: seq<Op>)
    requires ops != []
    ensures DoAll(s, ops) == Do(DoAll(s, ops[..|ops| - 1]), ops[|ops| - 1])
    decreases |ops|
  {
    if |ops| > 1 {
      DoAllSplits(Do(s, ops[0]), ops[1..]);
      assert ops[1..][..|ops| - 2] == ops[..|ops| - 1][1..];
    } else {
      assert ops[..0] == [] && ops[1..] == [];
    }
  }

  /** Over every run, what was destroyed was destroyed at a path that was inside the worktree just then. */
  lemma {:induction false} LostWasInside(s: Session, ops: seq<Op>, f: Fact)
    requires f in DoAll(s, ops).lost && f !in s.lost
    ensures exists n: nat :: n < |ops| && TouchesInside(s, ops, n, f.path)
    decreases |ops|
  {
    assert ops != [];
    var n: nat := |ops| - 1;
    var before := DoAll(s, ops[..n]);
    DoAllSplits(s, ops);
    if f in before.lost {
      LostWasInside(s, ops[..n], f);
      var k: nat :| k < n && TouchesInside(s, ops[..n], k, f.path);
      assert ops[..n][..k] == ops[..k];
      assert TouchesInside(s, ops, k, f.path);
    } else {
      assert ops[n].PutAt? || ops[n].RemoveAt?;
      if ops[n].p in before.disk.outside {
        OutsideIsLeftAlone(before, ops[n]);
      }
      assert TouchesInside(s, ops, n, f.path);
    }
  }
}
