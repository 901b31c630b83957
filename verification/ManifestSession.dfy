/** The runs over a worktree, carried out by the methods. */
module ManifestSession {
  import opened Options
  import opened ManifestTable
  import opened WorktreeManifest
  import opened ManifestRuns
  import T = TreeEncoding

  /** The objects are in the state `s` of a run. */
  ghost predicate Holds(files: WorktreeFiles, s: Session)
    reads files, files.worktree
  {
    && files.worktree.disk == s.disk && files.worktree.file == s.file && files.worktree.legacy == s.legacy
    && files.writer == s.writer && files.AsView() == s.view
  }

  /** A pass begins with what is on disk, and not at all over a manifest of a later cezar. */
  method Open(worktree: Worktree, writer: string, ghost s: Session) returns (files: WorktreeFiles?)
    requires worktree.disk == s.disk && worktree.file == s.file && worktree.legacy == s.legacy
    ensures files == null <==> !Do(s, NewPass(writer)).running
    ensures files != null ==> fresh(files) && files.worktree == worktree && Holds(files, Do(s, NewPass(writer)))
  {
    var loaded := Load(worktree.file, worktree.legacy);
    if loaded.None? {
      return null;
    }
    files := new WorktreeFiles(worktree, writer, loaded.value);
  }

  /** Each method leads from state to state as its operation does; `goesOn` says that it was not cut. */
  method Perform(files: WorktreeFiles, op: Op, ghost s: Session) returns (goesOn: bool)
    requires Holds(files, s) && s.running && !op.NewPass?
    requires op.RecordAt? ==> Inspect(s.disk, s.view.byPath, op.p, s.writer).owner.Ours?
    modifies files, files.worktree
    ensures Holds(files, Do(s, op)) && goesOn == Do(s, op).running
  {
    goesOn := true;
    match op {
      case PutAt(p, content, meta, reread, linkRefused, cut) =>
        var result := files.Put(p, content, meta, reread, linkRefused, cut);
        goesOn := !result.Stopped?;
      case RemoveAt(p) =>
        var _ := files.Remove(p);
      case ForgetAt(p) => files.Forget(p);
      case RecordAt(p, meta, tree) => files.Record(p, meta, T.IdentityOf(tree));
      case SaveNow => files.Save();
      case AgentEdits(disk) => files.worktree.disk := disk;
    }
  }

  /** At `q` the worktree is as it was, or as the agent left it when a write read it again. */
  predicate AsLeft(s: Session, op: Op, q: Path) {
    TreeAt(Do(s, op).disk, q) == TreeAt(s.disk, q) || (op.PutAt? && TreeAt(Do(s, op).disk, q) == TreeAt(op.reread, q))
  }

  lemma PlaceChangesOwnPath(before: Option<T.Identity>, t: Table, writer: string, p: Path, content: T.Tree, meta: Meta,
                            d: Disk, linkRefused: bool, cut: Cut, q: Path)
    ensures var o := PlaceSpec(before, t, writer, p, content, meta, d, linkRefused, cut);
            TreeAt(o.disk, q) == TreeAt(d, q) || (q == p && o.lost == TreeAt(d, q))
  {
  }

  lemma PutChangesOwnPath(s: Session, op: Op, q: Path)
    requires op.PutAt? && !AsLeft(s, op, q)
    ensures q == op.p && s.running && (q in op.reread.trees ==> Fact(s.writer, q, op.reread.trees[q]) in Do(s, op).lost)
  {
    var before, t0 := Inspect(s.disk, s.view.byPath, op.p, s.writer), Inspected(s.disk, s.view.byPath, op.p, s.writer);
    var t1 := PendingTable(before, t0, s.writer, op.p, T.IdentityOf(op.content), op.meta);
    PlaceChangesOwnPath(before.current, t1, s.writer, op.p, op.content, op.meta, op.reread, op.linkRefused, op.cut, q);
  }

  /** Whatever cezar changes is its operation's own path, and the tree that was there, if any, is among the lost. */
  lemma NothingElseChanges(s: Session, op: Op, q: Path)
    requires !op.AgentEdits? && !AsLeft(s, op, q)
    ensures (op.PutAt? || op.RemoveAt?) && q == op.p && s.running
    ensures var d := if op.PutAt? then op.reread else s.disk; q in d.trees ==> Fact(s.writer, q, d.trees[q]) in Do(s, op).lost
  {
    if op.PutAt? {
      PutChangesOwnPath(s, op, q);
    }
  }

  /** Nothing that was lost is forgotten. */
  lemma LossesStay(s: Session, op: Op)
    ensures s.lost <= Do(s, op).lost
  {
  }
}
