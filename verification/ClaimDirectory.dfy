/** The claim directory as one keeper works on it between the steps of the others. */
module ClaimDirectory {
  // The file checks and the loops of `readMutationClaim`, `selectTicket` and one pass of `waitForTurn`. The
  // loops are those on POSIX.

  import opened Options
  import opened LockRuns
  import opened WorktreeLock

  /** What a file holds: a JSON object with the three fields, or something that does not parse. */
  datatype File = Json(pid: int, ticket: int, gitRunning: bool) | Garbage

  datatype Read = Absent | Present(claim: Claim) | Invalid

  datatype Pass = Free | Blocked | Broken

  const MAX_SAFE_INTEGER: int := 9007199254740991

  predicate ValidFile(f: File) {
    f.Json? && 0 < f.pid <= MAX_SAFE_INTEGER && 0 <= f.ticket <= MAX_SAFE_INTEGER
  }

  predicate IsClaimName(entry: Name) {
    |entry| >= 5 && entry[|entry| - 5..] == ".json"
  }

  /** The entries a scan by `name` reads. */
  predicate Peer(entry: Name, name: Name) {
    IsClaimName(entry) && entry != name
  }

  /** `entry` is a well-formed claim of a group with no member left. */
  predicate Dead(files: map<Name, File>, entry: Name, answers: set<int>) {
    entry in files && ValidFile(files[entry]) && files[entry].pid !in answers
  }

  predicate Live(files: map<Name, File>, entry: Name, answers: set<int>) {
    entry in files && ValidFile(files[entry]) && files[entry].pid in answers
  }

  function ClaimIn(files: map<Name, File>, entry: Name): Claim
    requires entry in files && ValidFile(files[entry])
  {
    Claim(files[entry].pid, files[entry].ticket, files[entry].gitRunning)
  }

  /** `entry` says for good that no Git ran under it when its keeper `pid` died. */
  predicate DiedIdle(files: map<Name, File>, entry: Name, pid: int) {
    entry in files && files[entry].Json? && files[entry].pid == pid && 0 <= files[entry].ticket <= MAX_SAFE_INTEGER && !files[entry].gitRunning
  }

  /** `entry` is there and is not a claim of `pid` that says that no Git ran. */
  predicate RefusedFor(files: map<Name, File>, entry: Name, pid: int) {
    entry in files && match files[entry]
                      case Garbage => true
                      case Json(p, ticket, gitRunning) => p != pid || gitRunning || ticket < 0 || ticket > 9007199254740991
  }

  predicate MayGo(files: map<Name, File>, entry: Name, pid: int) {
    entry !in files || DiedIdle(files, entry, pid)
  }

  predicate Unreadable(files: map<Name, File>, entry: Name) {
    entry in files && !ValidFile(files[entry])
  }

  // ---- a directory that moves ------------------------------------------------------------------

  /**
   * What goes on around a keeper that reads a listing: what the others make of the directory before read
   * `n`, the numbers `kill(-pid, 0)` finds a group for by then, and whether an unlink succeeds. A probe that
   * may not signal (`EPERM`) counts as an answer.
   */
  datatype World = World(others: (nat, map<Name, File>) -> map<Name, File>, answers: nat -> set<int>, unlinks: nat -> bool)

  /** A reading leaves everything as it was but a dead claim, which goes if it can be unlinked. */
  function AfterRead(files: map<Name, File>, entry: Name, answers: set<int>, unlinks: bool): map<Name, File> {
    if Dead(files, entry, answers) && unlinks then files - {entry} else files
  }

  /** The directory after the first `n` entries of the listing. */
  function Remaining(w: World, files: map<Name, File>, listing: seq<Name>, name: Name, n: nat): map<Name, File>
    requires n <= |listing|
    decreases n, 0
  {
    if n == 0 then files
    else
      var seen := Seen(w, files, listing, name, n - 1);
      if Peer(listing[n - 1], name) then AfterRead(seen, listing[n - 1], w.answers(n - 1), w.unlinks(n - 1)) else seen
  }

  /** The directory when entry `n` is read. */
  function Seen(w: World, files: map<Name, File>, listing: seq<Name>, name: Name, n: nat): map<Name, File>
    requires n < |listing|
    decreases n, 1
  {
    w.others(n, Remaining(w, files, listing, name, n))
  }

  /** Entry `n` is a peer's, and cannot be read as a claim. */
  predicate Breaks(w: World, files: map<Name, File>, listing: seq<Name>, name: Name, n: nat)
    requires n < |listing|
  {
    Peer(listing[n], name) && Unreadable(Seen(w, files, listing, name, n), listing[n])
  }

  /** Entry `n` is the first that cannot be read; `left` is the directory then. */
  ghost predicate BreaksFirst(w: World, files: map<Name, File>, listing: seq<Name>, name: Name, n: nat, left: map<Name, File>)
    requires n < |listing|
  {
    Breaks(w, files, listing, name, n) && left == Remaining(w, files, listing, name, n + 1) && forall k: nat :: k < n ==> !Breaks(w, files, listing, name, k)
  }

  /** Entry `n` is a peer's live claim when it is read. */
  predicate Claims(w: World, files: map<Name, File>, listing: seq<Name>, name: Name, n: nat)
    requires n < |listing|
  {
    Peer(listing[n], name) && Live(Seen(w, files, listing, name, n), listing[n], w.answers(n))
  }

  function ClaimAt(w: World, files: map<Name, File>, listing: seq<Name>, name: Name, n: nat): Claim
    requires n < |listing| && Claims(w, files, listing, name, n)
  {
    ClaimIn(Seen(w, files, listing, name, n), listing[n])
  }

  /** Some claim live at one of the first `n` reads carries the ticket just below `ticket`. */
  ghost predicate JustAbove(w: World, files: map<Name, File>, listing: seq<Name>, name: Name, n: nat, ticket: nat)
    requires n <= |listing|
  {
    exists k: nat :: k < n && Claims(w, files, listing, name, k) && ClaimAt(w, files, listing, name, k).ticket + 1 == ticket
  }

  /** Entry `n` stops a pass. */
  predicate BlocksAt(w: World, files: map<Name, File>, listing: seq<Name>, name: Name, ticket: nat, n: nat)
    requires n < |listing|
  {
    Claims(w, files, listing, name, n) && HasPriority(ClaimAt(w, files, listing, name, n), ticket, listing[n], name)
  }

  /** Entry `n` is the first that stops a pass or, if it is `broken`, cannot be read; `left` is the directory then. */
  ghost predicate EndsAt(w: World, files: map<Name, File>, listing: seq<Name>, name: Name, ticket: nat, n: nat,
                         broken: bool, left: map<Name, File>)
    requires n < |listing|
  {
    && (if broken then Breaks(w, files, listing, name, n) else BlocksAt(w, files, listing, name, ticket, n))
    && left == Remaining(w, files, listing, name, n + 1)
    && forall k: nat :: k < n ==> !Breaks(w, files, listing, name, k) && !BlocksAt(w, files, listing, name, ticket, k)
  }

  // ---- the same directory in the protocol ------------------------------------------------------

  /** The files are the claims of a state of the protocol, and `answers` is what its kernel answers. */
  ghost predicate Stores(s: State, files: map<Name, File>, answers: set<int>) {
    && files.Keys == s.claims.Keys
    && (forall n :: n in s.claims ==>
          IsClaimName(n) && ValidFile(files[n]) && ClaimIn(files, n) == s.claims[n]
          && (s.claims[n].pid in answers <==> GroupAnswers(s, s.claims[n].pid)))
  }

  /** A keeper of the protocol reads `entry` next. */
  predicate AboutToRead(s: State, k: Name, entry: Name) {
    AtScan(s, k) && s.keepers[k].phase.scan.Reading? && entry in s.keepers[k].phase.scan.todo
  }

  /** The keeper's reading in the protocol: the file, then the probe of its group, then perhaps the unlink. */
  function Reading(s: State, k: Name, entry: Name, unlinks: bool): State
    requires AboutToRead(s, k, entry)
  {
    var s1 := Step(s, ReadFile(k, entry));
    if entry !in s.claims then s1
    else
      var s2 := Step(s1, WorktreeLock.Probe(k));
      if s2.keepers[k].phase.scan.Removing? then Step(s2, Unlink(k, unlinks)) else s2
  }

  /** A keeper's own scan changes nobody's group. */
  lemma ScanKeepsAnswers(s: State, s': State, k: Name)
    requires k in s.keepers && s'.others == s.others && s'.keepers.Keys == s.keepers.Keys
    requires forall q :: q in s.keepers ==> s'.keepers[q].pid == s.keepers[q].pid && s'.keepers[q].reaped == s.keepers[q].reaped
    ensures forall pid :: GroupAnswers(s', pid) == GroupAnswers(s, pid)
  {
  }

  lemma StoresOnly(s: State, s': State, files: map<Name, File>, files': map<Name, File>, answers: set<int>, k: Name)
    requires Stores(s, files, answers) && k in s.keepers && s'.others == s.others && s'.keepers.Keys == s.keepers.Keys
    requires forall q :: q in s.keepers ==> s'.keepers[q].pid == s.keepers[q].pid && s'.keepers[q].reaped == s.keepers[q].reaped
    requires files'.Keys == s'.claims.Keys && s'.claims.Keys <= s.claims.Keys
    requires forall n :: n in s'.claims ==> s'.claims[n] == s.claims[n] && files'[n] == files[n]
    ensures Stores(s', files', answers)
  {
    ScanKeepsAnswers(s, s', k);
    forall n | n in s'.claims
      ensures IsClaimName(n) && ValidFile(files'[n]) && ClaimIn(files', n) == s'.claims[n]
    {
      assert n in s.claims;
    }
  }

  /** Which claims the steps leave: all but a dead one that can be unlinked. */
  lemma ReadingLeaves(s: State, k: Name, entry: Name, unlinks: bool)
    requires AboutToRead(s, k, entry)
    ensures var s' := Reading(s, k, entry, unlinks);
            && s'.others == s.others && s'.keepers.Keys == s.keepers.Keys
            && (forall q :: q in s.keepers ==> s'.keepers[q].pid == s.keepers[q].pid && s'.keepers[q].reaped == s.keepers[q].reaped)
            && s'.claims == if entry in s.claims && !GroupAnswers(s, s.claims[entry].pid) && unlinks then s.claims - {entry} else s.claims
  {
    var s1 := Step(s, ReadFile(k, entry));
    ScanKeepsAnswers(s, s1, k);
  }

  /** Reading a file does to the directory what those steps do to the claims. */
  lemma ReadingIsSteps(s: State, files: map<Name, File>, answers: set<int>, k: Name, entry: Name, unlinks: bool)
    requires Stores(s, files, answers) && AboutToRead(s, k, entry)
    ensures Stores(Reading(s, k, entry, unlinks), AfterRead(files, entry, answers, unlinks), answers)
  {
    ReadingLeaves(s, k, entry, unlinks);
    if entry in s.claims {
      assert ClaimIn(files, entry) == s.claims[entry];
    }
    StoresOnly(s, Reading(s, k, entry, unlinks), files, AfterRead(files, entry, answers, unlinks), answers, k);
  }

  /** Read by read, what stops a pass is what blocks the keeper in the protocol's state at that read. */
  lemma StopsIffBlocks(w: World, files: map<Name, File>, listing: seq<Name>, name: Name, ticket: nat, n: nat, s: State)
    requires n < |listing| && Stores(s, Seen(w, files, listing, name, n), w.answers(n))
    ensures !Breaks(w, files, listing, name, n)
    ensures BlocksAt(w, files, listing, name, ticket, n) <==> Blocks(s, listing[n], ticket, name)
  {
    var e := listing[n];
    if e in s.claims {
      assert IsClaimName(e) && ClaimIn(Seen(w, files, listing, name, n), e) == s.claims[e];
    }
  }

  /** In a directory that stands still, a pass over a whole listing is free exactly when nothing blocks. */
  lemma FreeIffNothingBlocks(s: State, w: World, files: map<Name, File>, listing: seq<Name>, name: Name, ticket: nat)
    requires forall n: nat :: n < |listing| ==> Stores(s, Seen(w, files, listing, name, n), w.answers(n))
    requires forall e :: e in s.claims ==> e in listing
    ensures (forall n: nat :: n < |listing| ==> !Breaks(w, files, listing, name, n) && !BlocksAt(w, files, listing, name, ticket, n))
       <==> NothingBlocks(s, ticket, name)
  {
    forall n: nat | n < |listing|
      ensures !Breaks(w, files, listing, name, n)
      ensures BlocksAt(w, files, listing, name, ticket, n) <==> Blocks(s, listing[n], ticket, name)
    {
      StopsIffBlocks(w, files, listing, name, ticket, n, s);
    }
    forall e | e in s.claims && Blocks(s, e, ticket, name)
      ensures exists n: nat :: n < |listing| && BlocksAt(w, files, listing, name, ticket, n)
    {
      var n: nat :| n < |listing| && listing[n] == e;
      assert BlocksAt(w, files, listing, name, ticket, n);
    }
  }

  // ---- what a keeper's readings leave ----------------------------------------------------------

  /** Nobody else works on the directory. */
  ghost predicate OthersRest(w: World) {
    forall n: nat, files :: w.others(n, files) == files
  }

  /** Read `n` removes the claim `e`. */
  predicate RemovedAt(w: World, files: map<Name, File>, listing: seq<Name>, name: Name, n: nat, e: Name)
    requires n < |listing| && e in files
  {
    && listing[n] == e && e != name && |e| >= 5 && e[|e| - 5..] == ".json"
    && files[e].Json? && 0 < files[e].pid <= 9007199254740991 && 0 <= files[e].ticket <= 9007199254740991
    && files[e].pid !in w.answers(n) && w.unlinks(n)
  }

  lemma OneReading(files: map<Name, File>, entry: Name, answers: set<int>, unlinks: bool, e: Name)
    ensures var left := AfterRead(files, entry, answers, unlinks);
            && (e in left ==> e in files && left[e] == files[e])
            && (e in files ==> (e !in left <==> e == entry && unlinks && files[e].Json? && 0 < files[e].pid <= 9007199254740991
                                                && 0 <= files[e].ticket <= 9007199254740991 && files[e].pid !in answers))
  {
  }

  /** If the others rest, then of the first `n` reads exactly the claims are gone that one of them removed. */
  lemma {:induction false} OnlyDeadClaimsGo(w: World, files: map<Name, File>, listing: seq<Name>, name: Name, n: nat, e: Name)
    requires OthersRest(w) && n <= |listing|
    ensures var left := Remaining(w, files, listing, name, n);
            && (e in left ==> e in files && left[e] == files[e])
            && (e in files ==> (e !in left <==> exists k: nat :: k < n && RemovedAt(w, files, listing, name, k, e)))
  {
    if n > 0 {
      OnlyDeadClaimsGo(w, files, listing, name, n - 1, e);
      var left := Remaining(w, files, listing, name, n - 1);
      assert Seen(w, files, listing, name, n - 1) == left;
      OneReading(left, listing[n - 1], w.answers(n - 1), w.unlinks(n - 1), e);
      if e in files {
        assert e in left && e !in Remaining(w, files, listing, name, n) ==> RemovedAt(w, files, listing, name, n - 1, e);
        assert e in left && RemovedAt(w, files, listing, name, n - 1, e) ==> e !in Remaining(w, files, listing, name, n);
      }
    }
  }

  /** Other files, and the keeper's own claim, neither stop a pass nor count for a ticket, and stay. */
  lemma OthersDoNotCount(w: World, files: map<Name, File>, listing: seq<Name>, name: Name, ticket: nat, n: nat)
    requires n < |listing| && (listing[n] == name || |listing[n]| < 5 || listing[n][|listing[n]| - 5..] != ".json")
    ensures !Breaks(w, files, listing, name, n) && !Claims(w, files, listing, name, n) && !BlocksAt(w, files, listing, name, ticket, n)
    ensures Remaining(w, files, listing, name, n + 1) == Seen(w, files, listing, name, n)
  {
  }

  /** So a claim whose group answers at every read is still there, as it was. */
  lemma LiveClaimIsLeft(w: World, files: map<Name, File>, listing: seq<Name>, name: Name, n: nat, e: Name)
    requires OthersRest(w) && n <= |listing|
    requires e in files && files[e].Json? && forall k: nat :: files[e].pid in w.answers(k)
    ensures var left := Remaining(w, files, listing, name, n); e in left && left[e] == files[e]
  {
    OnlyDeadClaimsGo(w, files, listing, name, n, e);
  }

  /** Only files named like a claim are claims; the one a claim is written to first is not. */
  lemma ClaimNames(stem: string)
    ensures IsClaimName(stem + ".json") && !IsClaimName(stem + ".json.tmp")
  {
    assert (stem + ".json")[|stem|..] == ".json";
    assert (stem + ".json.tmp")[|stem| + 4..] == "n.tmp";
  }

  class Directory {
    var files: map<Name, File>

    constructor ()
      ensures files == map[]
    {
      files := map[];
    }

    method ReadMutationClaim(entry: Name, answers: set<int>, unlinks: bool) returns (r: Read)
      modifies this
      ensures r.Absent? <==> entry !in old(files) || Dead(old(files), entry, answers)
      ensures r.Present? <==> Live(old(files), entry, answers)
      ensures r.Present? ==> r.claim == ClaimIn(old(files), entry)
      ensures files == AfterRead(old(files), entry, answers, unlinks)
      // No other file changes, and this one goes exactly if it is the well-formed claim of a group without a member.
      ensures forall e :: e != entry ==> (e in files <==> e in old(files)) && (e in files ==> files[e] == old(files)[e])
      ensures entry in files ==> entry in old(files) && files[entry] == old(files)[entry]
      ensures entry in old(files) ==> var f := old(files)[entry];
                (entry !in files <==>
                  f.Json? && 0 < f.pid <= 9007199254740991 && 0 <= f.ticket <= 9007199254740991 && f.pid !in answers && unlinks)
      // What is read is what the file says, of a group that answers.
      ensures r.Present? ==> entry in files && var f := files[entry];
                f.Json? && f.pid in answers && r.claim == Claim(f.pid, f.ticket, f.gitRunning)
    {
      if entry !in files {
        return Absent;
      }
      var value := files[entry];
      if value.Garbage? || !(0 < value.pid <= MAX_SAFE_INTEGER) || !(0 <= value.ticket <= MAX_SAFE_INTEGER) {
        return Invalid;
      }
      if value.pid !in answers {
        if unlinks {
          files := files - {entry};
        }
        return Absent;
      }
      return Present(Claim(value.pid, value.ticket, value.gitRunning));
    }

    /** On Windows `answers` holds processes, not groups, and the claim of a dead one is read again: `later` is the
        directory by then. It goes only if it says that no Git ran, and is an error otherwise. */
    method ReadMutationClaimOnWindows(entry: Name, answers: set<int>, later: map<Name, File>, unlinks: bool) returns (r: Read)
      modifies this
      ensures r.Absent? <==> entry !in old(files) || (Dead(old(files), entry, answers) && MayGo(later, entry, old(files)[entry].pid))
      ensures r.Present? <==> Live(old(files), entry, answers)
      ensures r.Present? ==> r.claim == ClaimIn(old(files), entry)
      ensures !Dead(old(files), entry, answers) ==> files == old(files)
      ensures Dead(old(files), entry, answers) ==>
                files == if unlinks && DiedIdle(later, entry, old(files)[entry].pid) then later - {entry} else later
      // What is read first is what the file says, of a process that answers.
      ensures r.Present? ==> files == old(files) && var f := files[entry];
                f.Json? && f.pid in answers && r.claim == Claim(f.pid, f.ticket, f.gitRunning)
      // Once the process is gone, the claim is passed over only if it is gone too or says that no Git ran, and is removed then.
      ensures r.Absent? && entry in old(files) ==> old(files)[entry].Json? && old(files)[entry].pid !in answers
      ensures r.Absent? && entry in old(files) && entry in later ==> var f := later[entry];
                f.Json? && !f.gitRunning && f.pid == old(files)[entry].pid && 0 <= f.ticket <= 9007199254740991
      ensures r.Absent? && entry in old(files) ==> files == if unlinks then later - {entry} else later
      ensures r.Invalid? ==> entry in old(files) && (Unreadable(old(files), entry) || (RefusedFor(later, entry, old(files)[entry].pid) && files == later))
    {
      if entry !in files {
        return Absent;
      }
      var value := files[entry];
      if value.Garbage? || !(0 < value.pid <= MAX_SAFE_INTEGER) || !(0 <= value.ticket <= MAX_SAFE_INTEGER) {
        return Invalid;
      }
      if value.pid in answers {
        return Present(Claim(value.pid, value.ticket, value.gitRunning));
      }
      files := later;
      if entry !in files {
        return Absent;
      }
      var final := files[entry];
      if final.Json? && final.pid == value.pid && 0 <= final.ticket <= MAX_SAFE_INTEGER && !final.gitRunning {
        if unlinks {
          files := files - {entry};
        }
        return Absent;
      }
      return Invalid;
    }

    /** Nothing is chosen when a claim cannot be read; otherwise the ticket is the least one that is
        positive and above every claim that was live when it was read. */
    method SelectTicket(listing: seq<Name>, name: Name, w: World) returns (ticket: Option<nat>)
      modifies this
      ensures ticket.None? <==> exists n: nat :: n < |listing| && Breaks(w, old(files), listing, name, n)
      ensures ticket.Some? ==> ticket.value >= 1
      ensures ticket.Some? ==> forall n: nat :: n < |listing| && Claims(w, old(files), listing, name, n) ==>
                ClaimAt(w, old(files), listing, name, n).ticket < ticket.value
      ensures ticket.Some? && ticket.value > 1 ==> JustAbove(w, old(files), listing, name, |listing|, ticket.value)
      ensures ticket.Some? ==> files == Remaining(w, old(files), listing, name, |listing|)
      ensures ticket.None? ==> exists n: nat :: n < |listing| && BreaksFirst(w, old(files), listing, name, n, files)
    {
      var best: nat := 1;
      for n := 0 to |listing|
        invariant best >= 1 && files == Remaining(w, old(files), listing, name, n)
        invariant forall k: nat :: k < n ==> !Breaks(w, old(files), listing, name, k)
        invariant forall k: nat :: k < n && Claims(w, old(files), listing, name, k) ==>
                    ClaimAt(w, old(files), listing, name, k).ticket < best
        invariant best > 1 ==> JustAbove(w, old(files), listing, name, n, best)
      {
        files := w.others(n, files);
        assert files == Seen(w, old(files), listing, name, n);
        var entry := listing[n];
        if !IsClaimName(entry) || entry == name {
          continue;
        }
        var r := ReadMutationClaim(entry, w.answers(n), w.unlinks(n));
        if r.Invalid? {
          assert BreaksFirst(w, old(files), listing, name, n, files);
          return None;
        }
        if r.Present? && r.claim.ticket + 1 > best {
          best := r.claim.ticket + 1;
          assert Claims(w, old(files), listing, name, n) && ClaimAt(w, old(files), listing, name, n).ticket + 1 == best;
        }
      }
      return Some(best);
    }

    /** One pass of `waitForTurn`: it ends at the first entry that stops it or cannot be read. */
    method TurnPass(listing: seq<Name>, name: Name, ticket: nat, w: World) returns (pass: Pass)
      modifies this
      ensures pass.Free? <==> forall n: nat :: n < |listing| ==>
                !Breaks(w, old(files), listing, name, n) && !BlocksAt(w, old(files), listing, name, ticket, n)
      ensures pass.Blocked? ==> exists n: nat :: n < |listing| && EndsAt(w, old(files), listing, name, ticket, n, false, files)
      ensures pass.Broken? ==> exists n: nat :: n < |listing| && EndsAt(w, old(files), listing, name, ticket, n, true, files)
      ensures pass.Free? ==> files == Remaining(w, old(files), listing, name, |listing|)
    {
      for n := 0 to |listing|
        invariant files == Remaining(w, old(files), listing, name, n)
        invariant forall k: nat :: k < n ==>
                    !Breaks(w, old(files), listing, name, k) && !BlocksAt(w, old(files), listing, name, ticket, k)
      {
        files := w.others(n, files);
        assert files == Seen(w, old(files), listing, name, n);
        var entry := listing[n];
        if !IsClaimName(entry) || entry == name {
          continue;
        }
        var r := ReadMutationClaim(entry, w.answers(n), w.unlinks(n));
        assert files == Remaining(w, old(files), listing, name, n + 1);
        if r.Invalid? {
          assert EndsAt(w, old(files), listing, name, ticket, n, true, files);
          return Broken;
        }
        if r.Present? && HasPriority(r.claim, ticket, entry, name) {
          assert EndsAt(w, old(files), listing, name, ticket, n, false, files);
          return Blocked;
        }
      }
      return Free;
    }
  }
}
