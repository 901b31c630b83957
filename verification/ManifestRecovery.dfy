/** What a crash leaves for the next pass, and what a pass leaves of the other writers' entries. */
module ManifestRecovery {
  import opened Options
  import opened ManifestTable
  import opened WorktreeManifest
  import opened ManifestRuns
  import T = TreeEncoding

  // ---- convergence -----------------------------------------------------------------------------

  /** One pass that writes `content` at a path, whole or cut short. */
  datatype Attempt = Attempt(content: T.Tree, meta: Meta, linkRefused: bool, cut: Cut)

  function Try(s: Session, writer: string, p: Path, a: Attempt): Session {
    Do(Do(s, NewPass(writer)), PutAt(p, a.content, a.meta, s.disk, a.linkRefused, a.cut))
  }

  function TryAll(s: Session, writer: string, p: Path, attempts: seq<Attempt>): Session
    decreases |attempts|
  {
    if attempts == [] then s else TryAll(Try(s, writer, p, attempts[0]), writer, p, attempts[1..])
  }

  /** The reloaded manifest lets `writer` write `p`. */
  predicate Claimable(s: Session, writer: string, p: Path) {
    match Load(s.file, s.legacy)
    case None => false
    case Some(view) =>
      var owner := Inspect(s.disk, view.byPath, p, writer).owner;
      owner.FreePath? || owner.Ours?
  }

  predicate KnownKinds(attempts: seq<Attempt>) {
    forall n :: 0 <= n < |attempts| ==> attempts[n].meta.kind in KINDS
  }

  /** A pass that saved its table reloads it. */
  lemma SavedPassReloads(s: Session, writer: string, t: Table)
    requires Load(s.file, s.legacy).Some? && Distinct(t)
    ensures var s1 := Save(WithTable(Do(s, NewPass(writer)), t));
            Load(s1.file, s1.legacy) == Some(s1.view) && s1.view.byPath == t
  {
    SavedLoadsBack(WithTable(Do(s, NewPass(writer)), t).view);
  }

  /** With its own entry listed for what is there, or with nothing there, a path is the writer's. */
  lemma ListedIsClaimable(d: Disk, t: Table, p: Path, writer: string, e: Entry)
    requires p !in d.outside && Find(t, p) == Some(e) && e.writer == writer && e.kind in KINDS
    requires p in d.trees ==> T.IdentityOf(d.trees[p]) == e.identity || Some(T.IdentityOf(d.trees[p])) == e.alternate
    ensures var owner := Inspect(d, t, p, writer).owner; owner.FreePath? || owner.Ours?
  {
  }

  /** The pending table of a write that may go on. */
  function PendingOf(d: Disk, t: Table, writer: string, p: Path, a: Attempt): Table {
    PendingTable(Inspect(d, t, p, writer), Inspected(d, t, p, writer), writer, p, T.IdentityOf(a.content), a.meta)
  }

  predicate WritableAt(d: Disk, t: Table, writer: string, p: Path) {
    var owner := Inspect(d, t, p, writer).owner;
    owner.FreePath? || owner.Ours?
  }

  function Cutting(d: Disk, t: Table, writer: string, p: Path, a: Attempt): PutOutcome {
    PutSpec(d, t, writer, p, a.content, a.meta, d, a.linkRefused, a.cut)
  }

  /** Where a write ends: with the finished entry and the content, or with the pending entry and the old
      tree, nothing, or the content. */
  lemma CutOutcome(d: Disk, t: Table, writer: string, p: Path, a: Attempt)
    requires WritableAt(d, t, writer, p) && !a.cut.AtStaged?
    ensures var o, t1 := Cutting(d, t, writer, p, a), PendingOf(d, t, writer, p, a);
            && o.saved && o.disk.outside == d.outside
            && (if o.result.Placed? then
                  o.table == With(t1, p, NewEntry(t1, p, writer, a.meta, T.IdentityOf(a.content), None))
                  && TreeAt(o.disk, p) == Some(a.content)
                else
                  o.table == t1 && (TreeAt(o.disk, p).None? || o.disk.trees[p] == a.content || TreeAt(o.disk, p) == TreeAt(d, p)))
    ensures a.cut.Whole? && !(a.content.Link? && a.linkRefused) ==>
              Cutting(d, t, writer, p, a).result == Placed(T.IdentityOf(a.content))
  {
  }

  /** The pending entry of a write names what it leaves and what it replaces. */
  lemma PendingCovers(d: Disk, t: Table, writer: string, p: Path, a: Attempt)
    requires Distinct(t) && WritableAt(d, t, writer, p)
    ensures var t1 := PendingOf(d, t, writer, p, a);
            && Distinct(t1) && Find(t1, p).Some?
            && var e := Find(t1, p).value;
               && e.writer == writer && e.kind == "pending" && e.identity == T.IdentityOf(a.content)
               && (p in d.trees ==> T.IdentityOf(d.trees[p]) == e.identity || Some(T.IdentityOf(d.trees[p])) == e.alternate)
  {
    var before, t0 := Inspect(d, t, p, writer), Inspected(d, t, p, writer);
    if before.entry.Some? {
      DistinctWith(t, p, before.entry.value);
    }
    var e := PendingEntry(before, t0, writer, p, T.IdentityOf(a.content), a.meta);
    DistinctWith(t0, p, e);
    FindWith(t0, p, e, p);
  }

  /** The table and disk a write leaves, cut anywhere after its pending entry, agree at its path. */
  lemma CutWriteAgrees(d: Disk, t: Table, writer: string, p: Path, a: Attempt)
    requires Distinct(t) && a.meta.kind in KINDS && !a.cut.AtStaged? && WritableAt(d, t, writer, p)
    ensures var o := Cutting(d, t, writer, p, a);
            o.saved && Distinct(o.table) && WritableAt(o.disk, o.table, writer, p)
    ensures a.cut.Whole? && !(a.content.Link? && a.linkRefused) ==>
              var o := Cutting(d, t, writer, p, a);
              && TreeAt(o.disk, p) == Some(a.content)
              && Find(o.table, p).Some? && Find(o.table, p).value.kind == a.meta.kind
              && Find(o.table, p).value.identity == T.IdentityOf(a.content) && Find(o.table, p).value.alternate.None?
  {
    CutOutcome(d, t, writer, p, a);
    PendingCovers(d, t, writer, p, a);
    var o, t1 := Cutting(d, t, writer, p, a), PendingOf(d, t, writer, p, a);
    var done := NewEntry(t1, p, writer, a.meta, T.IdentityOf(a.content), None);
    DistinctWith(t1, p, done);
    FindWith(t1, p, done, p);
    ListedIsClaimable(o.disk, o.table, p, writer, Find(o.table, p).value);
  }

  lemma TryKeepsClaim(s: Session, writer: string, p: Path, a: Attempt)
    requires Claimable(s, writer, p) && a.meta.kind in KINDS
    ensures Claimable(Try(s, writer, p, a), writer, p)
  {
    var view := Load(s.file, s.legacy).value;
    LoadedIsDistinct(s.file, s.legacy);
    if !a.cut.AtStaged? {
      CutWriteAgrees(s.disk, view.byPath, writer, p, a);
      var o := PutSpec(s.disk, view.byPath, writer, p, a.content, a.meta, s.disk, a.linkRefused, a.cut);
      SavedPassReloads(s, writer, o.table);
    }
  }

  /**
   * After any number of writes by one writer, each cut at any boundary or whole, the reloaded manifest
   * still lets that writer write the path, as long as nobody else touched it.
   */
  lemma {:induction false} CutWritesConverge(s: Session, writer: string, p: Path, attempts: seq<Attempt>)
    requires Claimable(s, writer, p) && KnownKinds(attempts)
    ensures Claimable(TryAll(s, writer, p, attempts), writer, p)
    decreases |attempts|
  {
    if attempts != [] {
      TryKeepsClaim(s, writer, p, attempts[0]);
      CutWritesConverge(Try(s, writer, p, attempts[0]), writer, p, attempts[1..]);
    }
  }

  /** The first whole write after them leaves exactly its content and one finished entry for it. */
  lemma WholeWriteRepairs(s: Session, writer: string, p: Path, attempts: seq<Attempt>, a: Attempt)
    requires Claimable(s, writer, p) && KnownKinds(attempts)
    requires a.meta.kind in KINDS && a.cut.Whole? && !(a.content.Link? && a.linkRefused)
    ensures var s' := Try(TryAll(s, writer, p, attempts), writer, p, a);
            && TreeAt(s'.disk, p) == Some(a.content) && Load(s'.file, s'.legacy).Some?
            && var e := Find(Load(s'.file, s'.legacy).value.byPath, p);
               e.Some? && e.value.kind == a.meta.kind && e.value.identity == T.IdentityOf(a.content) && e.value.alternate.None?
  {
    CutWritesConverge(s, writer, p, attempts);
    var s0 := TryAll(s, writer, p, attempts);
    var view := Load(s0.file, s0.legacy).value;
    LoadedIsDistinct(s0.file, s0.legacy);
    CutWriteAgrees(s0.disk, view.byPath, writer, p, a);
    var o := PutSpec(s0.disk, view.byPath, writer, p, a.content, a.meta, s0.disk, a.linkRefused, a.cut);
    SavedPassReloads(s0, writer, o.table);
  }

  /**
   * What a pending entry makes of what is at its path: a complete form is the writer's, and anything
   * else is kept for good. So a recursive removal or a copy that is cut half-way is never repaired.
   */
  lemma PendingDecides(d: Disk, t: Table, p: Path, writer: string, e: Entry)
    requires p !in d.outside && Find(t, p) == Some(e) && e.writer == writer && e.kind == "pending"
    requires !e.identity.Tree1? && !(e.alternate.Some? && e.alternate.value.Tree1?)
    ensures Inspect(d, t, p, writer).owner ==
            if p !in d.trees then FreePath
            else if T.IdentityOf(d.trees[p]) == e.identity || Some(T.IdentityOf(d.trees[p])) == e.alternate then Ours
            else Kept
    ensures p in d.trees && T.IdentityOf(d.trees[p]) != e.identity && Some(T.IdentityOf(d.trees[p])) != e.alternate ==>
              forall content, meta, reread, refused, cut ::
                PutSpec(d, t, writer, p, content, meta, reread, refused, cut).result.NotOurs?
  {
  }

  // ---- the other writers -----------------------------------------------------------------------

  /** The manifest lists `e` at `q` and carries the unknown fields of `view`, in memory and on disk. */
  predicate Carries(s: Session, view: View, q: Path, e: Entry) {
    && s.running && Distinct(s.view.byPath) && (s.legacy.Some? ==> s.view.legacy)
    && Find(s.view.byPath, q) == Some(e) && s.view.extra == view.extra && s.view.skillsExtra == view.skillsExtra
    && OnDisk(s, view, q, e)
  }

  predicate OnDisk(s: Session, view: View, q: Path, e: Entry) {
    match Load(s.file, s.legacy)
    case None => false
    case Some(v) => Find(v.byPath, q) == Some(e) && v.extra == view.extra && v.skillsExtra == view.skillsExtra
  }

  lemma SaveCarries(s: Session, view: View, q: Path, e: Entry)
    requires Distinct(s.view.byPath) && (s.legacy.Some? ==> s.view.legacy)
    requires Find(s.view.byPath, q) == Some(e) && s.view.extra == view.extra && s.view.skillsExtra == view.skillsExtra
    ensures OnDisk(Save(s), view, q, e)
  {
    SavedLoadsBack(s.view);
  }

  /** An inspection of any path leaves the entries of other writers alone. */
  lemma InspectLeavesOthers(s: Session, p: Path, q: Path, e: Entry)
    requires Distinct(s.view.byPath) && Find(s.view.byPath, q) == Some(e) && e.writer != s.writer
    ensures var t := Inspected(s.disk, s.view.byPath, p, s.writer); Distinct(t) && Find(t, q) == Some(e)
    ensures p == q ==> !MayWrite(s, p)
  {
    var state := Inspect(s.disk, s.view.byPath, p, s.writer);
    if state.entry.Some? {
      DistinctWith(s.view.byPath, p, state.entry.value);
      FindWith(s.view.byPath, p, state.entry.value, q);
    }
  }

  /** The tables a write can end with. */
  lemma PutTableIs(s: Session, op: Op)
    requires op.PutAt?
    ensures var o := PutSpec(s.disk, s.view.byPath, s.writer, op.p, op.content, op.meta, op.reread, op.linkRefused, op.cut);
            var t0 := Inspected(s.disk, s.view.byPath, op.p, s.writer);
            var t1 := PendingTable(Inspect(s.disk, s.view.byPath, op.p, s.writer), t0, s.writer, op.p, T.IdentityOf(op.content), op.meta);
            || o.table == t0
            || (MayWrite(s, op.p) && (o.table == t1 || o.table == Without(t1, op.p)
                || o.table == With(t1, op.p, NewEntry(t1, op.p, s.writer, op.meta, T.IdentityOf(op.content), None))))
  {
  }

  lemma WithLeaves(t: Table, p: Path, entry: Entry, q: Path, e: Entry)
    requires Distinct(t) && Find(t, q) == Some(e) && p != q
    ensures Distinct(With(t, p, entry)) && Find(With(t, p, entry), q) == Some(e)
    ensures Distinct(Without(t, p)) && Find(Without(t, p), q) == Some(e)
  {
    DistinctWith(t, p, entry);
    FindWith(t, p, entry, q);
    DistinctWithout(t, p);
    FindWithout(t, p, q);
  }

  lemma PutLeavesOthers(s: Session, op: Op, q: Path, e: Entry)
    requires op.PutAt? && Distinct(s.view.byPath) && Find(s.view.byPath, q) == Some(e) && e.writer != s.writer
    ensures var o := PutSpec(s.disk, s.view.byPath, s.writer, op.p, op.content, op.meta, op.reread, op.linkRefused, op.cut);
            Distinct(o.table) && Find(o.table, q) == Some(e)
  {
    var p := op.p;
    InspectLeavesOthers(s, p, q, e);
    PutTableIs(s, op);
    if MayWrite(s, p) {
      var t0 := Inspected(s.disk, s.view.byPath, p, s.writer);
      var pending := PendingEntry(Inspect(s.disk, s.view.byPath, p, s.writer), t0, s.writer, p, T.IdentityOf(op.content), op.meta);
      var t1 := With(t0, p, pending);
      WithLeaves(t0, p, pending, q, e);
      WithLeaves(t1, p, NewEntry(t1, p, s.writer, op.meta, T.IdentityOf(op.content), None), q, e);
    }
  }

  predicate InPass(op: Op) {
    !op.NewPass?
  }

  lemma DoCarries(s: Session, op: Op, view: View, q: Path, e: Entry)
    requires InPass(op) && Carries(s, view, q, e) && e.writer != s.writer
    ensures var s' := Do(s, op);
            && s'.writer == s.writer && OnDisk(s', view, q, e) && (s'.running ==> Carries(s', view, q, e))
  {
    match op
    case PutAt(p, content, meta, reread, refused, cut) =>
      PutLeavesOthers(s, op, q, e);
      var o := PutSpec(s.disk, s.view.byPath, s.writer, p, content, meta, reread, refused, cut);
      if o.saved {
        SaveCarries(WithTable(s, o.table), view, q, e);
      }
    case SaveNow => SaveCarries(s, view, q, e);
    case NewPass(_) =>
    case _ => UnsavedCarries(s, op, view, q, e);
  }

  lemma UnsavedCarries(s: Session, op: Op, view: View, q: Path, e: Entry)
    requires op.RemoveAt? || op.ForgetAt? || op.RecordAt? || op.AgentEdits?
    requires Carries(s, view, q, e) && e.writer != s.writer
    ensures Do(s, op).writer == s.writer && Carries(Do(s, op), view, q, e)
  {
    if op.AgentEdits? {
    } else {
      InspectLeavesOthers(s, op.p, q, e);
      var t := Inspected(s.disk, s.view.byPath, op.p, s.writer);
      if op.p != q {
        WithLeaves(t, op.p, e, q, e);
        WithLeaves(s.view.byPath, op.p, if op.RecordAt? then NewEntry(s.view.byPath, op.p, s.writer, op.meta, T.IdentityOf(op.tree), None) else e, q, e);
      }
    }
  }

  lemma {:induction false} StoppedStays(s: Session, ops: seq<Op>)
    requires !s.running && forall n :: 0 <= n < |ops| ==> InPass(ops[n])
    ensures DoAll(s, ops).file == s.file && DoAll(s, ops).legacy == s.legacy
    decreases |ops|
  {
    if ops != [] {
      StoppedStays(Do(s, ops[0]), ops[1..]);
    }
  }

  lemma {:induction false} OpsCarry(s: Session, ops: seq<Op>, view: View, q: Path, e: Entry)
    requires Carries(s, view, q, e) && e.writer != s.writer
    requires forall n :: 0 <= n < |ops| ==> InPass(ops[n])
    ensures OnDisk(DoAll(s, ops), view, q, e)
    decreases |ops|
  {
    if ops != [] {
      var s' := Do(s, ops[0]);
      DoCarries(s, ops[0], view, q, e);
      if s'.running {
        OpsCarry(s', ops[1..], view, q, e);
      } else {
        StoppedStays(s', ops[1..]);
      }
    }
  }

  /**
   * A pass of one writer, wherever it ends, leaves on disk every entry of another writer that it
   * loaded, unchanged, and every field it does not know.
   */
  lemma PassKeepsOthers(s: Session, writer: string, ops: seq<Op>, q: Path, e: Entry)
    requires Load(s.file, s.legacy).Some? && Find(Load(s.file, s.legacy).value.byPath, q) == Some(e) && e.writer != writer
    requires forall n :: 0 <= n < |ops| ==> InPass(ops[n])
    ensures OnDisk(DoAll(Do(s, NewPass(writer)), ops), Load(s.file, s.legacy).value, q, e)
  {
    LoadedIsDistinct(s.file, s.legacy);
    OpsCarry(Do(s, NewPass(writer)), ops, Load(s.file, s.legacy).value, q, e);
  }

  // ---- the fields it does not know -------------------------------------------------------------

  /** The manifest, in memory and on disk, carries the unknown fields of `view`. */
  predicate KeepsFields(s: Session, view: View) {
    && (s.running ==> s.view.extra == view.extra && s.view.skillsExtra == view.skillsExtra)
    && Load(s.file, s.legacy).Some?
    && Load(s.file, s.legacy).value.extra == view.extra && Load(s.file, s.legacy).value.skillsExtra == view.skillsExtra
  }

  lemma SaveKeepsFields(s: Session, view: View)
    requires s.view.extra == view.extra && s.view.skillsExtra == view.skillsExtra
    ensures KeepsFields(Save(s), view)
  {
  }

  lemma DoKeepsFields(s: Session, op: Op, view: View)
    requires InPass(op) && KeepsFields(s, view)
    ensures KeepsFields(Do(s, op), view)
  {
    if op.PutAt? && s.running {
      var o := PutSpec(s.disk, s.view.byPath, s.writer, op.p, op.content, op.meta, op.reread, op.linkRefused, op.cut);
      SaveKeepsFields(WithTable(s, o.table), view);
    } else if op.SaveNow? && s.running {
      SaveKeepsFields(s, view);
    }
  }

  lemma {:induction false} OpsKeepFields(s: Session, ops: seq<Op>, view: View)
    requires KeepsFields(s, view) && forall n :: 0 <= n < |ops| ==> InPass(ops[n])
    ensures KeepsFields(DoAll(s, ops), view)
    decreases |ops|
  {
    if ops != [] {
      DoKeepsFields(s, ops[0], view);
      OpsKeepFields(Do(s, ops[0]), ops[1..], view);
    }
  }

  /** A pass, wherever it ends, leaves on disk every field that it loaded and does not know, whatever entries there are. */
  lemma PassKeepsUnknownFields(s: Session, writer: string, ops: seq<Op>)
    requires Load(s.file, s.legacy).Some? && forall n :: 0 <= n < |ops| ==> InPass(ops[n])
    ensures var end := DoAll(Do(s, NewPass(writer)), ops);
            && Load(end.file, end.legacy).Some?
            && Load(end.file, end.legacy).value.extra == Load(s.file, s.legacy).value.extra
            && Load(end.file, end.legacy).value.skillsExtra == Load(s.file, s.legacy).value.skillsExtra
  {
    OpsKeepFields(Do(s, NewPass(writer)), ops, Load(s.file, s.legacy).value);
  }

  // ---- which entries there are -----------------------------------------------------------------

  function EntriesOf(file: ManifestFile): seq<Raw> {
    if file.Doc? then file.entries else []
  }

  /** Which entry a pass loads for a path: the first valid one in the manifest, then in an older cezar's record. */
  lemma LoadedEntry(file: ManifestFile, legacy: Option<OldFile>, q: Path)
    requires Load(file, legacy).Some?
    ensures Find(Load(file, legacy).value.byPath, q) ==
            var listed := FirstValid(EntriesOf(file), q);
            if listed.Some? || legacy.None? then listed else FirstValid(AsSkills(legacy.value.entries), q)
  {
    AddAllFinds([], EntriesOf(file), q);
    if legacy.Some? {
      AddAllFinds(AddAll([], EntriesOf(file)), AsSkills(legacy.value.entries), q);
    }
  }

  lemma {:induction false} FoundIffListed(t: Table, q: Path, e: Entry)
    requires Distinct(t)
    ensures Find(t, q) == Some(e) <==> Valid(Item(q, e)) in Raws(t)
    decreases |t|
  {
    if t != [] {
      FoundIffListed(t[1..], q, e);
    }
  }

  /** An entry is in the file after a pass that only saves exactly when it is the one that was loaded for its path. */
  lemma SurvivesIffLoaded(s: Session, writer: string, q: Path, e: Entry)
    requires Load(s.file, s.legacy).Some?
    ensures Valid(Item(q, e)) in EntriesOf(Do(Do(s, NewPass(writer)), SaveNow).file) <==>
            Find(Load(s.file, s.legacy).value.byPath, q) == Some(e)
  {
    LoadedIsDistinct(s.file, s.legacy);
    FoundIffListed(Load(s.file, s.legacy).value.byPath, q, e);
  }

  /** A finished write keeps what a newer cezar had added to the writer's own entry. */
  lemma PutKeepsUnknownFields(d: Disk, t: Table, writer: string, p: Path, content: T.Tree, meta: Meta, reread: Disk, refused: bool)
    requires PutSpec(d, t, writer, p, content, meta, reread, refused, Whole).result.Placed?
    ensures var e := Find(PutSpec(d, t, writer, p, content, meta, reread, refused, Whole).table, p);
            e.Some? && e.value.extra == match Own(t, p, writer) { case Some(own) => own.extra case None => map[] }
  {
    var before, t0 := Inspect(d, t, p, writer), Inspected(d, t, p, writer);
    if before.entry.Some? {
      FindWith(t, p, before.entry.value, p);
    }
    var pending := PendingEntry(before, t0, writer, p, T.IdentityOf(content), meta);
    FindWith(t0, p, pending, p);
    var t1 := With(t0, p, pending);
    FindWith(t1, p, NewEntry(t1, p, writer, meta, T.IdentityOf(content), None), p);
  }
}
