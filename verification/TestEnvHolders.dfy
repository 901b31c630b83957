/**
 * When a recorded process group may be given up: the proof by two listings that nothing runs in it, read
 * one process at a time while the table changes, and the holders of a test environment whose rows may be
 * deleted on that proof.
 */
module TestEnvHolders {
  import opened Options
  import opened ProcessTable
  import opened ProcessGroups

  /** A listing that is one instant's table. */
  ghost predicate Instant(env: Env, k: nat) {
    forall pid :: pid in env.listing(k) <==> pid in Now(env, k).procs
  }

  /** A process there at both instants was there all along, the same one. */
  ghost predicate SameThroughout(env: Env, pid: nat, t: nat, v: nat) {
    pid in env.tr(t).procs && pid in env.tr(v).procs ==>
      forall u :: t <= u <= v ==> pid in env.tr(u).procs && env.tr(u).procs[pid].start == env.tr(v).procs[pid].start
  }

  /** Listings are one instant's table, and between the two calls no pid was taken over. */
  ghost predicate Calm(env: Env, i: nat, j: nat) {
    && (forall k: nat :: Instant(env, k))
    && forall pid, t, v :: env.at(i) <= t <= v <= env.at(j) ==> SameThroughout(env, pid, t, v)
  }

  /** Nothing runs in any group that had this number at call `i`. */
  ghost predicate EndedSince(env: Env, number: nat, i: nat, j: nat) {
    forall g :: Known(Now(env, i), g, number) ==> NoRunner(Now(env, j), g)
  }

  /** The two listings name the same pids. */
  predicate SameListing(a: seq<nat>, b: seq<nat>) {
    (forall pid | pid in a :: pid in b) && (forall pid | pid in b :: pid in a)
  }

  /** The stat of entry `k` of the listing begun with call `first` is read, and is a member's. */
  predicate ReadsMember(env: Env, number: nat, first: nat, k: nat)
    requires k < |env.listing(first)|
  {
    var os, pid := Now(env, first + 1 + k), env.listing(first)[k];
    pid !in env.hidden && pid in os.procs && Numbered(os, os.procs[pid], number)
  }

  predicate ReadsRunner(env: Env, number: nat, first: nat, k: nat)
    requires k < |env.listing(first)|
  {
    ReadsMember(env, number, first, k) && RunsIn(Now(env, first + 1 + k), env.listing(first)[k], number)
  }

  /** Entry `k` is there, and its stat cannot be read. */
  predicate ReadFails(env: Env, first: nat, k: nat)
    requires k < |env.listing(first)|
  {
    env.listing(first)[k] in env.hidden && env.listing(first)[k] in Now(env, first + 1 + k).procs
  }

  ghost predicate FindsRunner(env: Env, number: nat, first: nat) {
    exists k: nat :: k < |env.listing(first)| && ReadsRunner(env, number, first, k)
  }

  ghost predicate FindsMember(env: Env, number: nat, first: nat) {
    exists k: nat :: k < |env.listing(first)| && ReadsMember(env, number, first, k)
  }

  ghost predicate FailsOnce(env: Env, first: nat) {
    exists k: nat :: k < |env.listing(first)| && ReadFails(env, first, k)
  }

  /** Two listings of the same processes, with members read between them but no runner and nothing unreadable. */
  ghost predicate OnlyZombies(env: Env, number: nat, first: nat) {
    var n := |env.listing(first)|;
    && SameListing(env.listing(first), env.listing(first + 1 + n))
    && FindsMember(env, number, first) && !FindsRunner(env, number, first) && !FailsOnce(env, first)
  }

  /** The call `i` and those after it prove that nothing runs under the number. */
  ghost predicate ProvedDead(env: Env, number: nat, i: nat) {
    !Answers(Now(env, i), number) || OnlyZombies(env, number, i + 1)
  }

  /** Read the stat of each listed process, until one is found to run in the group. */
  method ReadEach(env: Env, number: nat, first: nat) returns (found: bool, sawMember: bool, unknown: bool, j: nat)
    ensures first < j && (found <==> FindsRunner(env, number, first))
    ensures found ==> exists k, pid :: first <= k < j && RunsIn(Now(env, k), pid, number)
    ensures !found ==> j == first + 1 + |env.listing(first)|
    ensures !found ==> (sawMember <==> FindsMember(env, number, first)) && (unknown <==> FailsOnce(env, first))
  {
    var snapshot := env.listing(first);
    j := first + 1;
    unknown, sawMember := false, false;
    for n := 0 to |snapshot|
      invariant j == first + 1 + n
      invariant unknown <==> exists k: nat :: k < n && ReadFails(env, first, k)
      invariant sawMember <==> exists k: nat :: k < n && ReadsMember(env, number, first, k)
      invariant forall k: nat :: k < n ==> !ReadsRunner(env, number, first, k)
    {
      var os, pid := Now(env, j), snapshot[n];
      j := j + 1;
      if pid !in os.procs {
        continue;
      }
      if pid in env.hidden {
        assert ReadFails(env, first, n);
        unknown := true;
      } else if Numbered(os, os.procs[pid], number) {
        assert ReadsMember(env, number, first, n);
        sawMember := true;
        if os.procs[pid].running {
          assert ReadsRunner(env, number, first, n);
          return true, true, unknown, j;
        }
      }
    }
    found := false;
  }

  /** What the processes listed show of the group. */
  method ReadGroup(env: Env, number: nat, first: nat) returns (live: Option<bool>, j: nat)
    ensures first < j && (live == Some(true) <==> FindsRunner(env, number, first))
    ensures live == Some(false) <==> OnlyZombies(env, number, first)
    ensures live == Some(true) ==> exists k, pid :: first <= k < j && RunsIn(Now(env, k), pid, number)
    ensures live == Some(false) ==> j == first + 2 + |env.listing(first)|
  {
    var snapshot := env.listing(first);
    var found, sawMember, unknown;
    found, sawMember, unknown, j := ReadEach(env, number, first);
    if found {
      return Some(true), j;
    }
    var after := env.listing(j);
    j := j + 1;
    if !SameListing(snapshot, after) || !sawMember {
      return None, j;
    }
    live := if unknown then None else Some(false);
  }

  /** Some(true): live; Some(false): dead; None: unknown. */
  method LeaseGroupLive(env: Env, number: nat, i: nat) returns (live: Option<bool>, j: nat)
    requires Observes(env)
    ensures i < j
    ensures live == Some(true) <==> Answers(Now(env, i), number) && FindsRunner(env, number, i + 1)
    ensures live == Some(false) <==> ProvedDead(env, number, i)
    ensures live == Some(true) ==> exists k, pid :: i <= k < j && RunsIn(Now(env, k), pid, number)
    ensures live == Some(false) && Calm(env, i, j) ==> EndedSince(env, number, i, j)
  {
    if !Answers(Now(env, i), number) {
      live, j := Some(false), i + 1;
    } else {
      live, j := ReadGroup(env, number, i + 1);
    }
    if live == Some(false) {
      ProvedDeadEnded(env, number, i, j);
    }
  }

  /** When the calls prove a group dead, and no pid was taken over meanwhile, nothing runs under the number. */
  lemma ProvedDeadEnded(env: Env, number: nat, i: nat, j: nat)
    requires Observes(env) && ProvedDead(env, number, i) && i < j
    requires Answers(Now(env, i), number) ==> j == i + 3 + |env.listing(i + 1)|
    ensures Calm(env, i, j) ==> EndedSince(env, number, i, j)
  {
    if !Answers(Now(env, i), number) {
      SilentNumberEnded(env, number, i, j);
    } else if Calm(env, i, j) {
      OnlyZombiesEnded(env, number, i, i + 1, j - 1);
    }
  }

  lemma RunnerWasFound(env: Env, number: nat, g: nat, pid: nat, i: nat, first: nat, last: nat)
    requires Observes(env) && Calm(env, i, last + 1) && i < first && last == first + 1 + |env.listing(first)|
    requires SameListing(env.listing(first), env.listing(last))
    requires Known(Now(env, i), g, number) && RunnerOf(Now(env, last), pid, g)
    ensures FailsOnce(env, first) || FindsRunner(env, number, first)
  {
    var snapshot := env.listing(first);
    RunnerWasRead(env, number, g, pid, snapshot, i, first, last, last + 1);
    var k: nat :| k < |snapshot| && snapshot[k] == pid && RunsIn(Now(env, first + 1 + k), pid, number);
    assert ReadFails(env, first, k) || ReadsRunner(env, number, first, k);
  }

  lemma OnlyZombiesEnded(env: Env, number: nat, i: nat, first: nat, last: nat)
    requires Observes(env) && Calm(env, i, last + 1) && i < first && last == first + 1 + |env.listing(first)|
    requires OnlyZombies(env, number, first)
    ensures EndedSince(env, number, i, last + 1)
  {
    forall g, pid | Known(Now(env, i), g, number)
      ensures !RunnerOf(Now(env, last), pid, g)
    {
      if RunnerOf(Now(env, last), pid, g) {
        RunnerWasFound(env, number, g, pid, i, first, last);
      }
    }
    EndedStays(env, number, i, last, last + 1);
  }

  lemma SilentNumberEnded(env: Env, number: nat, i: nat, j: nat)
    requires Observes(env) && i <= j && !Answers(Now(env, i), number)
    ensures EndedSince(env, number, i, j)
  {
    forall g | Known(Now(env, i), g, number)
      ensures NoRunner(Now(env, j), g)
    {
      forall pid
        ensures !RunnerOf(Now(env, i), pid, g)
      {
        assert pid in Now(env, i).procs ==> !Numbered(Now(env, i), Now(env, i).procs[pid], number);
      }
      StaysEnded(env, g, number, i, j);
    }
  }

  /** What has ended never runs again, so it can be given up for good. */
  lemma EndedStays(env: Env, number: nat, i: nat, k: nat, j: nat)
    requires Observes(env) && i <= k <= j && EndedSince(env, number, i, k)
    ensures EndedSince(env, number, i, j)
  {
    forall g | Known(Now(env, i), g, number)
      ensures NoRunner(Now(env, j), g)
    {
      StaysEnded(env, g, number, i, k);
      StaysEnded(env, g, number, k, j);
    }
  }

  /** A process that runs in the group at the second listing was in the first and ran when it was read. */
  lemma RunnerWasRead(env: Env, number: nat, g: nat, pid: nat, snapshot: seq<nat>, i: nat, first: nat, last: nat, j: nat)
    requires Observes(env) && Calm(env, i, j)
    requires i < first && last == first + 1 + |snapshot| && j == last + 1
    requires snapshot == env.listing(first) && SameListing(snapshot, env.listing(last))
    requires Known(Now(env, i), g, number) && RunnerOf(Now(env, last), pid, g)
    ensures exists k :: 0 <= k < |snapshot| && snapshot[k] == pid && RunsIn(Now(env, first + 1 + k), pid, number)
  {
    assert Instant(env, first) && Instant(env, last);
    assert pid in env.listing(last);
    var k :| 0 <= k < |snapshot| && snapshot[k] == pid;
    RanSinceListing(env, number, g, pid, i, first, first + 1 + k, last, j);
  }

  lemma RanSinceListing(env: Env, number: nat, g: nat, pid: nat, i: nat, first: nat, k: nat, last: nat, j: nat)
    requires Observes(env) && Calm(env, i, j) && i < first <= k <= last <= j
    requires Known(Now(env, i), g, number) && pid in Now(env, first).procs && RunnerOf(Now(env, last), pid, g)
    ensures RunsIn(Now(env, k), pid, number)
  {
    assert env.at(i) <= env.at(first) <= env.at(k) <= env.at(last) <= env.at(j);
    assert SameThroughout(env, pid, env.at(first), env.at(last));
    RanBackTo(env, number, g, pid, i, env.at(k), env.at(last));
    Keeps(env.tr, env.at(i), env.at(k), g, number);
  }

  lemma {:induction false} RanBackTo(env: Env, number: nat, g: nat, pid: nat, i: nat, t: nat, u: nat)
    requires Observes(env) && env.at(i) <= t <= u
    requires Known(Now(env, i), g, number) && RunnerOf(env.tr(u), pid, g)
    requires forall v :: t <= v <= u ==> pid in env.tr(v).procs && env.tr(v).procs[pid].start == env.tr(u).procs[pid].start
    ensures RunnerOf(env.tr(t), pid, g)
    decreases u
  {
    if t < u {
      assert Ticks(env.tr, u - 1);
      Keeps(env.tr, env.at(i), u - 1, g, number);
      WasRunner(env.tr(u - 1), env.tr(u), g, pid);
      RanBackTo(env, number, g, pid, i, t, u - 1);
    }
  }

  // ---- the holders -----------------------------------------------------------------------------

  datatype Identity = Identity(start: Option<nat>, dead: bool)

  datatype Holder = Holder(id: nat, pid: nat, start: Option<nat>, group: Option<nat>)

  datatype Retained = Retained(holder: Holder, diagnosticVerified: bool)

  /** Both starts are known and they differ. */
  predicate DifferentStart(recorded: Option<nat>, current: Option<nat>) {
    match (recorded, current)
    case (Some(a), Some(b)) => a != b
    case _ => false
  }

  /** The recorded process is gone: dead, or its pid names another incarnation. */
  predicate LeaderGone(h: Holder, current: Identity) {
    current.dead || (h.start.Some? && current.start.Some? && h.start != current.start)
  }

  predicate Verified(h: Holder, current: Identity) {
    h.start.Some? && !current.dead && current.start == h.start
  }

  /** A row that has gone was a gone process's, and such a row stays only if its group could not be proved dead. */
  ghost predicate Judged(env: Env, h: Holder, current: Identity, gone: bool, i: nat, j: nat) {
    && (gone ==> current.dead || DifferentStart(h.start, current.start))
    && (!gone && (current.dead || DifferentStart(h.start, current.start)) ==> Unproved(env, h.group, i, j))
  }

  /** No row that has gone names a group that still runs. */
  ghost predicate GroupsEnded(env: Env, rows: seq<Holder>, gone: seq<bool>, i: nat, j: nat)
    requires |gone| <= |rows|
  {
    forall m :: 0 <= m < |gone| && gone[m] && rows[m].group.Some? ==> EndedSince(env, rows[m].group.value, i, j)
  }

  ghost predicate AllJudged(env: Env, rows: seq<Holder>, identity: nat -> Identity, gone: seq<bool>, i: nat, j: nat)
    requires |gone| <= |rows|
  {
    forall n :: 0 <= n < |gone| ==> Judged(env, rows[n], identity(n), gone[n], i, j)
  }

  lemma JudgedOneMore(env: Env, rows: seq<Holder>, identity: nat -> Identity, gone: seq<bool>, dead: bool, i: nat, k: nat, j: nat)
    requires |gone| < |rows| && i <= k <= j && AllJudged(env, rows, identity, gone, i, k)
    requires Judged(env, rows[|gone|], identity(|gone|), dead, k, j)
    ensures AllJudged(env, rows, identity, gone + [dead], i, j)
  {
    forall n | 0 <= n <= |gone|
      ensures Judged(env, rows[n], identity(n), (gone + [dead])[n], i, j)
    {
      assert n < |gone| ==> Judged(env, rows[n], identity(n), gone[n], i, k);
    }
  }

  /** Whether a holder whose process is gone may lose its row: its recorded group, if any, runs nothing. */
  method GroupDead(env: Env, group: Option<nat>, i: nat) returns (dead: bool, j: nat)
    requires Observes(env)
    ensures i <= j
    ensures dead <==> group.None? || ProvedDead(env, group.value, i)
    ensures Calm(env, i, j) && dead && group.Some? ==> EndedSince(env, group.value, i, j)
  {
    if group.None? {
      return true, i;
    }
    var live;
    live, j := LeaseGroupLive(env, group.value, i);
    dead := live == Some(false);
  }

  /** An inquiry begun between calls `i` and `j` did not prove the group dead. */
  ghost predicate Unproved(env: Env, group: Option<nat>, i: nat, j: nat) {
    group.Some? && exists k: nat :: i <= k <= j && !ProvedDead(env, group.value, k)
  }

  method Judge(env: Env, h: Holder, current: Identity, i: nat) returns (dead: bool, j: nat)
    requires Observes(env)
    ensures i <= j && Judged(env, h, current, dead, i, j)
    ensures Calm(env, i, j) && dead && h.group.Some? ==> EndedSince(env, h.group.value, i, j)
  {
    dead, j := LeaderGone(h, current), i;
    if dead {
      dead, j := GroupDead(env, h.group, i);
    }
  }

  /** The rows that stay, in their order. */
  function Rest(rows: seq<Holder>, identity: nat -> Identity, gone: seq<bool>): seq<Retained>
    requires |gone| <= |rows|
    decreases |gone|
  {
    if gone == [] then []
    else
      var n := |gone| - 1;
      Rest(rows, identity, gone[..n]) + if gone[n] then [] else [Retained(rows[n], Verified(rows[n], identity(n)))]
  }

  predicate StaysAs(h: Holder, current: Identity, r: Retained) {
    r.holder == h && (r.diagnosticVerified <==> !current.dead && h.start.Some? && !DifferentStart(h.start, current.start) && current.start.Some?)
  }

  /** A row that stays is verified exactly if its process lives under the recorded start. */
  lemma {:induction false} RestHolds(rows: seq<Holder>, identity: nat -> Identity, gone: seq<bool>, r: Retained)
    requires |gone| <= |rows|
    ensures r in Rest(rows, identity, gone) <==> exists n :: 0 <= n < |gone| && !gone[n] && StaysAs(rows[n], identity(n), r)
    decreases |gone|
  {
    if gone != [] {
      var n := |gone| - 1;
      RestHolds(rows, identity, gone[..n], r);
      var last := Retained(rows[n], Verified(rows[n], identity(n)));
      assert r in Rest(rows, identity, gone) <==> r in Rest(rows, identity, gone[..n]) || (!gone[n] && r == last);
      assert forall k :: 0 <= k < n ==> gone[..n][k] == gone[k];
    }
  }

  lemma RestOfOneMore(rows: seq<Holder>, identity: nat -> Identity, gone: seq<bool>, dead: bool)
    requires |gone| < |rows|
    ensures Rest(rows, identity, gone + [dead])
         == Rest(rows, identity, gone) + if dead then [] else [Retained(rows[|gone|], Verified(rows[|gone|], identity(|gone|)))]
  {
    assert (gone + [dead])[..|gone|] == gone;
  }

  /**
   * Delete the rows of holders that are gone. `identity(n)` is what the probe of row `n` answers, and
   * `gone[n]` says whether the row was deleted. A row goes only when its process is gone and its recorded
   * group, if any, is proved to run nothing.
   */
  method Reclaim(env: Env, rows: seq<Holder>, identity: nat -> Identity, i: nat)
    returns (kept: seq<Retained>, gone: seq<bool>, j: nat)
    requires Observes(env)
    ensures i <= j && |gone| == |rows|
    // A row goes only if its process is dead or its number names another incarnation, and then it stays only for a group not proved dead.
    ensures AllJudged(env, rows, identity, gone, i, j)
    ensures Calm(env, i, j) ==> GroupsEnded(env, rows, gone, i, j)
    ensures kept == Rest(rows, identity, gone)
  {
    j := i;
    kept, gone := [], [];
    for n := 0 to |rows|
      invariant i <= j && |gone| == n && AllJudged(env, rows, identity, gone, i, j)
      invariant Calm(env, i, j) ==> GroupsEnded(env, rows, gone, i, j)
      invariant kept == Rest(rows, identity, gone)
    {
      var dead;
      ghost var from := j;
      dead, j := Judge(env, rows[n], identity(n), j);
      OneMore(env, rows, gone, dead, i, from, j);
      JudgedOneMore(env, rows, identity, gone, dead, i, from, j);
      RestOfOneMore(rows, identity, gone, dead);
      gone := gone + [dead];
      if !dead {
        kept := kept + [Retained(rows[n], Verified(rows[n], identity(n)))];
      }
    }
  }

  lemma OneMore(env: Env, rows: seq<Holder>, gone: seq<bool>, dead: bool, i: nat, k: nat, j: nat)
    requires Observes(env) && i <= k <= j && |gone| < |rows|
    requires Calm(env, i, k) ==> GroupsEnded(env, rows, gone, i, k)
    requires Calm(env, k, j) && dead && rows[|gone|].group.Some? ==> EndedSince(env, rows[|gone|].group.value, k, j)
    ensures Calm(env, i, j) ==> GroupsEnded(env, rows, gone + [dead], i, j)
  {
    if Calm(env, i, j) {
      CalmWithin(env, i, k, j);
      GroupsStayEnded(env, rows, gone, i, k, j);
      if dead && rows[|gone|].group.Some? {
        SinceEarlier(env, rows[|gone|].group.value, i, k, j);
      }
    }
  }

  lemma CalmWithin(env: Env, i: nat, k: nat, j: nat)
    requires Observes(env) && i <= k <= j && Calm(env, i, j)
    ensures Calm(env, i, k) && Calm(env, k, j)
  {
    assert env.at(i) <= env.at(k) <= env.at(j);
  }

  lemma GroupsStayEnded(env: Env, rows: seq<Holder>, gone: seq<bool>, i: nat, k: nat, j: nat)
    requires Observes(env) && i <= k <= j && |gone| <= |rows| && GroupsEnded(env, rows, gone, i, k)
    ensures GroupsEnded(env, rows, gone, i, j)
  {
    forall m | 0 <= m < |gone| && gone[m] && rows[m].group.Some?
      ensures EndedSince(env, rows[m].group.value, i, j)
    {
      EndedStays(env, rows[m].group.value, i, k, j);
    }
  }

  lemma SinceEarlier(env: Env, number: nat, i: nat, k: nat, j: nat)
    requires Observes(env) && i <= k <= j && EndedSince(env, number, k, j)
    ensures EndedSince(env, number, i, j)
  {
    forall g | Known(Now(env, i), g, number)
      ensures NoRunner(Now(env, j), g)
    {
      StaysEnded(env, g, number, i, k);
    }
  }
}
