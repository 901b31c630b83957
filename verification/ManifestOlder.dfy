/** What an entry in the older encoding proves, exactly. */
module ManifestOlder {
  // Which trees at its path pass for what was recorded, and so which edits of the agent are destroyed with it.

  import opened Options
  import opened ManifestTable
  import opened WorktreeManifest
  import opened ManifestRuns
  import T = TreeEncoding

  /** A tree that was recorded, in the encoding of today or in the older one. */
  datatype Recorded = Newer(tree: T.Tree) | Older(tree: T.Tree)

  function IdOf(r: Recorded): T.Identity {
    match r
    case Newer(t) => T.IdentityOf(t)
    case Older(t) => T.OldIdentityOf(t)
  }

  /** The writer's entry for `p` was recorded for one tree or, when `other` is there, for either of two. */
  predicate Lists(d: Disk, t: Table, p: Path, writer: string, e: Entry, r: Recorded, other: Option<Recorded>) {
    && p !in d.outside && p in d.trees && T.Valid(d.trees[p]) && Find(t, p) == Some(e)
    && e.writer == writer && e.kind in KINDS && e.identity == IdOf(r)
    && (if other.Some? then e.alternate == Some(IdOf(other.value)) else e.alternate.None?)
    && T.Valid(r.tree) && (other.Some? ==> T.Valid(other.value.tree))
  }

  predicate SameBytes(r: T.Tree, t: T.Tree) {
    r.File? && t.File? && r.bytes == t.bytes
  }

  predicate SameSkill(r: T.Tree, t: T.Tree) {
    OneSkill(r) && OneSkill(t) && SameBytes(r.entries[0].tree, t.entries[0].tree)
  }

  /** What is there passes for what was recorded. In the older encoding that takes a link, a file or a directory of one skill. */
  predicate Passes(r: Recorded, e: Entry, now: T.Tree) {
    match r
    case Newer(t) => now == t
    case Older(Link(target)) => now == T.Link(target)
    case Older(File(bytes, executable)) => SameBytes(T.File(bytes, executable), now)
    case Older(Dir(_)) => OneSkillEntry(e) && OnlySkill(now) && T.OldStream(r.tree) == T.OldStream(now)
    case Older(Special(_)) => false
  }

  /** One of the entry's two identities lets `now` pass. */
  predicate Matches(r: Recorded, e: Entry, now: T.Tree) {
    IdOf(r) == T.IdentityOf(now) || (IdOf(r) == T.OldIdentityOf(now) && (now.File? || (OneSkillEntry(e) && OnlySkill(now))))
  }

  lemma MatchesIff(r: Recorded, e: Entry, now: T.Tree)
    requires T.Valid(r.tree) && T.Valid(now)
    ensures Matches(r, e, now) <==> Passes(r, e, now)
  {
    if r.Newer? {
      T.IdentityNamesOneTree(r.tree, now);
    } else {
      T.OldStreamLetter(r.tree);
      T.OldStreamLetter(now);
      if r.tree.File? && now.File? {
        T.OldStreamOfOne(r.tree);
        T.OldStreamOfOne(now);
        if T.OldStream(r.tree) == T.OldStream(now) {
          T.OldStreamOfFile(r.tree, now);
        }
      }
    }
  }

  /** What is at a path inspects as the writer's exactly when it passes for a tree that its entry was recorded for. */
  lemma OursIff(d: Disk, t: Table, p: Path, writer: string, e: Entry, r: Recorded, other: Option<Recorded>)
    requires Lists(d, t, p, writer, e, r, other)
    ensures Inspect(d, t, p, writer).owner.Ours? <==>
            Passes(r, e, d.trees[p]) || (other.Some? && Passes(other.value, e, d.trees[p]))
  {
    var now := d.trees[p];
    MatchesIff(r, e, now);
    if other.Some? {
      MatchesIff(other.value, e, now);
    }
    InspectMatches(d, t, p, writer, e, r, other);
  }

  lemma InspectMatches(d: Disk, t: Table, p: Path, writer: string, e: Entry, r: Recorded, other: Option<Recorded>)
    requires Lists(d, t, p, writer, e, r, other)
    ensures Inspect(d, t, p, writer).owner.Ours? <==>
            Matches(r, e, d.trees[p]) || (other.Some? && Matches(other.value, e, d.trees[p]))
  {
    var now := d.trees[p];
    assert now.Link? ==> T.OldIdentityOf(now) == T.IdentityOf(now);
  }

  /** A recorded directory of one skill passes exactly for such a directory whose file has the same bytes. */
  lemma OneSkillPassesIff(r: T.Tree, e: Entry, now: T.Tree)
    requires OneSkill(r) && OneSkillEntry(e)
    ensures Passes(Older(r), e, now) <==> SameSkill(r, now)
  {
    var skill := r.entries[0].tree;
    assert r == T.SkillDir(skill);
    if OnlySkill(now) {
      var other := now.entries[0].tree;
      assert now == T.SkillDir(other);
      if T.OldStream(now) == T.OldStream(r) {
        T.OldStreamOfOneSkill(skill, other);
      }
      T.OldStreamOfSkillDir(skill);
      T.OldStreamOfSkillDir(other);
      T.OldFileRecord("SKILL.md", skill);
      T.OldFileRecord("SKILL.md", other);
    }
  }

  // ---- what is destroyed -----------------------------------------------------------------------

  predicate WholeWrite(op: Op) {
    op.PutAt? && op.cut.Whole? && !(op.content.Link? && op.linkRefused)
  }

  /** Removing the path, or writing it while nobody else does, destroys what is there exactly when it is the writer's. */
  lemma LosesIffOurs(s: Session, op: Op)
    requires s.running && (op.RemoveAt? || (WholeWrite(op) && op.reread == s.disk)) && op.p in s.disk.trees
    requires Fact(s.writer, op.p, s.disk.trees[op.p]) !in s.lost
    ensures Fact(s.writer, op.p, s.disk.trees[op.p]) in Do(s, op).lost <==> OursAt(s, op.p)
  {
  }

  /** The same file or skill, but for the executable bit. */
  predicate OtherMode(r: T.Tree, now: T.Tree) {
    || (r.File? && now == T.File(r.bytes, !r.executable))
    || (OneSkill(r) && now == T.SkillDir(T.File(r.entries[0].tree.bytes, !r.entries[0].tree.executable)))
  }

  /** What the older encoding does not tell from what was recorded. */
  predicate Unseen(r: Recorded, e: Entry, now: T.Tree) {
    r.Older? && OtherMode(r.tree, now) && (r.tree.File? || OneSkillEntry(e))
  }

  /** Where a directory was recorded in the older encoding for an entry of one skill, it was one. */
  predicate Shaped(r: Recorded, e: Entry) {
    r.Older? && r.tree.Dir? && OneSkillEntry(e) ==> OneSkill(r.tree)
  }

  lemma EditPassesIff(r: Recorded, e: Entry, now: T.Tree)
    requires Shaped(r, e) && now != r.tree
    ensures Passes(r, e, now) <==> Unseen(r, e, now)
  {
    if r.Older? && r.tree.Dir? && OneSkillEntry(e) {
      OneSkillPassesIff(r.tree, e, now);
      assert r.tree == T.SkillDir(r.tree.entries[0].tree);
      assert OnlySkill(now) ==> now == T.SkillDir(now.entries[0].tree);
    }
  }

  /**
   * An edit, away from every tree the entry was recorded for, is destroyed exactly when one of them is a file or a
   * directory of one skill, recorded in the older encoding, and the edit changed its executable bit and nothing else.
   */
  lemma EditIsLostIff(s: Session, op: Op, e: Entry, r: Recorded, other: Option<Recorded>)
    requires s.running && (op.RemoveAt? || (WholeWrite(op) && op.reread == s.disk))
    requires Lists(s.disk, s.view.byPath, op.p, s.writer, e, r, other)
    requires Shaped(r, e) && s.disk.trees[op.p] != r.tree
    requires other.Some? ==> Shaped(other.value, e) && s.disk.trees[op.p] != other.value.tree
    requires Fact(s.writer, op.p, s.disk.trees[op.p]) !in s.lost
    ensures Fact(s.writer, op.p, s.disk.trees[op.p]) in Do(s, op).lost <==>
            Unseen(r, e, s.disk.trees[op.p]) || (other.Some? && Unseen(other.value, e, s.disk.trees[op.p]))
  {
    LosesIffOurs(s, op);
    OursIff(s.disk, s.view.byPath, op.p, s.writer, e, r, other);
    EditPassesIff(r, e, s.disk.trees[op.p]);
    if other.Some? {
      EditPassesIff(other.value, e, s.disk.trees[op.p]);
    }
  }
}
