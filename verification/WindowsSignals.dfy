/** Whom a stop does reach on Windows: the leader and every descendant in its snapshot. */
module WindowsSignals {
  import opened Options
  import opened WindowsAutosave
  import opened WindowsProofs

  // ---- the leader ------------------------------------------------------------------------------

  /** Once a look meets the running leader with a known creation date, a stop signals it. */
  lemma LeaderIsTarget(w: Watch, baseline: map<nat, Option<nat>>, root: nat, look: Look)
    requires MeetsLeader(w, root, look) && ByPid(look.rows.value)[root].token.Some?
    ensures Target(Looked(w, baseline, root, look), ByPid(look.rows.value)[root])
  {
    ByPidHoldsRows(look.rows.value, root);
    AllGrows(WithLeader(w, root, look), look.rows.value, RoundOf(w, baseline, root, look));
  }

  // ---- how a row came to be owned --------------------------------------------------------------

  /** `mid` lies between `owned` and `all` in admission, and then the row at `k` was admitted. */
  predicate AdmittedFrom(owned: OwnedMap, mid: OwnedMap, all: OwnedMap, k: Key, entry: Process, r: Round) {
    && (forall j :: j in owned ==> j in mid && mid[j] == owned[j]) && (forall j :: j in mid ==> j in all && all[j] == mid[j])
    && KeyOf(entry) == k && Admissible(mid, entry, r) && k in all && all[k] == Owned(entry, MaySignal(mid, entry, r))
  }

  lemma {:induction false} PassAdmits(owned: OwnedMap, rows: seq<Process>, r: Round, k: Key) returns (mid: OwnedMap, entry: Process)
    requires k !in owned && k in AdmitPass(owned, rows, r)
    ensures entry in rows && AdmittedFrom(owned, mid, AdmitPass(owned, rows, r), k, entry, r)
  {
    var rest := rows[..|rows| - 1];
    PassGrows(owned, rest, r);
    if k in AdmitPass(owned, rest, r) {
      mid, entry := PassAdmits(owned, rest, r, k);
    } else {
      mid, entry := AdmitPass(owned, rest, r), rows[|rows| - 1];
    }
  }

  lemma {:induction false} AllAdmits(owned: OwnedMap, rows: seq<Process>, r: Round, k: Key) returns (mid: OwnedMap, entry: Process)
    requires k !in owned && k in AdmitAll(owned, rows, r)
    ensures entry in rows && AdmittedFrom(owned, mid, AdmitAll(owned, rows, r), k, entry, r)
    decreases Unowned(owned, rows)
  {
    var now := AdmitPass(owned, rows, r);
    PassGrows(owned, rows, r);
    PassShrinksUnowned(owned, rows, r);
    AllGrows(now, rows, r);
    if k in now {
      mid, entry := PassAdmits(owned, rows, r, k);
    } else {
      mid, entry := AllAdmits(now, rows, r, k);
    }
  }

  // ---- descendants -----------------------------------------------------------------------------

  /** `a` is the leader or descends from it through processes that are all alive at `t`, and so is `a`. */
  ghost predicate AliveLine(lives: set<Life>, leader: Life, a: Life, t: nat)
    decreases a.birth
  {
    a in lives && AliveAt(a, t) && (a == leader || exists p :: p in lives && IsParent(p, a) && AliveLine(lives, leader, p, t))
  }

  lemma {:induction false} LineHoldsLeader(lives: set<Life>, leader: Life, a: Life, t: nat)
    requires AliveLine(lives, leader, a, t)
    ensures leader in lives && AliveAt(leader, t) && leader.birth <= a.birth
    decreases a.birth
  {
    if a != leader {
      var p :| p in lives && IsParent(p, a) && AliveLine(lives, leader, p, t);
      LineHoldsLeader(lives, leader, p, t);
    }
  }

  /** Whoever of the line was born was alive before, and so were those it descends from. */
  lemma {:induction false} LineWasAlive(lives: set<Life>, leader: Life, a: Life, s: nat, t: nat)
    requires AliveLine(lives, leader, a, t) && a.birth <= s <= t
    ensures AliveLine(lives, leader, a, s)
    decreases a.birth
  {
    if a != leader {
      var p :| p in lives && IsParent(p, a) && AliveLine(lives, leader, p, t);
      LineWasAlive(lives, leader, p, s, t);
    }
  }

  /** The exit of the leader, once reported, stays so. */
  ghost predicate ExitLasts(looks: seq<Look>) {
    forall i, j :: 0 <= i <= j < |looks| && looks[i].exited ==> looks[j].exited
  }

  predicate Signalled(w: Watch, a: Life) {
    LifeKey(a) in w.owned && w.owned[LifeKey(a)].signalable
  }

  /** The watch after look `n` follows from the one before it. */
  lemma NextWatch(leader: Life, looks: seq<Look>, baseline: map<nat, Option<nat>>, n: nat)
    requires n < |looks|
    ensures Before(leader, looks, baseline, n + 1) == Looked(Before(leader, looks, baseline, n), baseline, leader.pid, looks[n])
  {
    assert looks[..n + 1][..n] == looks[..n];
  }

  lemma SignalledKept(w: Watch, baseline: map<nat, Option<nat>>, root: nat, look: Look, a: Life)
    requires Signalled(w, a)
    ensures Signalled(Looked(w, baseline, root, look), a)
  {
    if Processed(w, root, look) {
      AllGrows(WithLeader(w, root, look), look.rows.value, RoundOf(w, baseline, root, look));
    }
  }

  lemma {:induction false} SignalledStays(leader: Life, looks: seq<Look>, baseline: map<nat, Option<nat>>, m: nat, n: nat, a: Life)
    requires m <= n <= |looks| && Signalled(Before(leader, looks, baseline, m), a)
    ensures Signalled(Before(leader, looks, baseline, n), a)
  {
    if m < n {
      SignalledStays(leader, looks, baseline, m, n - 1, a);
      NextWatch(leader, looks, baseline, n - 1);
      SignalledKept(Before(leader, looks, baseline, n - 1), baseline, leader.pid, looks[n - 1], a);
    }
  }

  /** What is owned before look `n` was first owned after an earlier look. */
  lemma {:induction false} FirstOwned(leader: Life, looks: seq<Look>, baseline: map<nat, Option<nat>>, n: nat, k: Key) returns (m: nat)
    requires n <= |looks| && k in Before(leader, looks, baseline, n).owned
    ensures m < n && k !in Before(leader, looks, baseline, m).owned && k in Before(leader, looks, baseline, m + 1).owned
  {
    assert n > 0;
    if k in Before(leader, looks, baseline, n - 1).owned {
      m := FirstOwned(leader, looks, baseline, n - 1, k);
    } else {
      m := n - 1;
    }
  }

  /** What a look comes to own is in its snapshot. */
  lemma NewlyOwnedIsAlive(lives: set<Life>, leader: Life, times: seq<nat>, looks: seq<Look>, baseline: map<nat, Option<nat>>, m: nat, a: Life)
    requires FullLooks(lives, leader, times, looks, baseline) && m < |looks| && a in lives
    requires LifeKey(a) !in Before(leader, looks, baseline, m).owned && LifeKey(a) in Before(leader, looks, baseline, m + 1).owned
    ensures AliveAt(a, times[m])
  {
    var w, look := Before(leader, looks, baseline, m), looks[m];
    NextWatch(leader, looks, baseline, m);
    assert LookAt(lives, leader, times[m], look) && FullRows(lives, times[m], look.rows.value);
    var rows := look.rows.value;
    ByPidFinds(rows);
    AllGrows(WithLeader(w, leader.pid, look), rows, RoundOf(w, baseline, leader.pid, look));
    var p :| p in rows && KeyOf(p) == LifeKey(a);
    var b := RowIsLife(lives, times[m], rows, p);
    assert Separate(a, b);
  }

  lemma OwningLookHasRows(leader: Life, looks: seq<Look>, baseline: map<nat, Option<nat>>, m: nat, k: Key)
    requires m < |looks| && k !in Before(leader, looks, baseline, m).owned && k in Before(leader, looks, baseline, m + 1).owned
    ensures looks[m].rows.Some?
  {
    NextWatch(leader, looks, baseline, m);
  }

  /** The leader itself is owned as the leader, and not as somebody's child. */
  lemma LeaderIsMet(lives: set<Life>, leader: Life, times: seq<nat>, looks: seq<Look>, baseline: map<nat, Option<nat>>, n: nat)
    requires FullLooks(lives, leader, times, looks, baseline)
    requires n < |looks| && looks[n].rows.Some? && !looks[n].exited && AliveAt(leader, times[n])
    requires LifeKey(leader) !in Before(leader, looks, baseline, n).owned
    ensures Signalled(Before(leader, looks, baseline, n + 1), leader)
  {
    var w, look := Before(leader, looks, baseline, n), looks[n];
    NextWatch(leader, looks, baseline, n);
    WatchAlwaysFits(lives, leader, times, looks, baseline, n);
    assert LookAt(lives, leader, times[n], look) && FullRows(lives, times[n], look.rows.value);
    ByPidFinds(look.rows.value);
    var row := Process(leader.pid, leader.parentPid, Some(leader.birth));
    assert row in look.rows.value && ByPid(look.rows.value)[leader.pid] == row;
    LeaderIsTarget(w, baseline, leader.pid, look);
  }

  /** A child that this look admits is admitted after its parent, and through it. */
  lemma ChildIsSignalled(lives: set<Life>, leader: Life, times: seq<nat>, looks: seq<Look>,
                         baseline: map<nat, Option<nat>>, n: nat, p: Life, a: Life)
    requires FullLooks(lives, leader, times, looks, baseline)
    requires n < |looks| && looks[n].rows.Some? && !looks[n].exited && a in lives && AliveAt(a, times[n])
    requires p in lives && IsParent(p, a) && AliveAt(p, times[n]) && a != leader
    requires LifeKey(a) !in Before(leader, looks, baseline, n).owned && LifeKey(a) in Before(leader, looks, baseline, n + 1).owned
    requires Signalled(Before(leader, looks, baseline, n + 1), p) && Signalled(Before(leader, looks, baseline, n + 1), leader)
    requires AliveAt(leader, times[n])
    ensures Signalled(Before(leader, looks, baseline, n + 1), a)
  {
    var w, look := Before(leader, looks, baseline, n), looks[n];
    NextWatch(leader, looks, baseline, n);
    WatchAlwaysFits(lives, leader, times, looks, baseline, n);
    WatchAlwaysFits(lives, leader, times, looks, baseline, n + 1);
    assert LookAt(lives, leader, times[n], look) && FullRows(lives, times[n], look.rows.value);
    var rows := look.rows.value;
    ByPidFinds(rows);
    assert Process(leader.pid, leader.parentPid, Some(leader.birth)) in rows;
    ChildInRound(lives, leader, times[n], rows, RoundOf(w, baseline, leader.pid, look), WithLeader(w, leader.pid, look), p, a);
  }

  lemma ChildInRound(lives: set<Life>, leader: Life, t: nat, rows: seq<Process>, r: Round, start: OwnedMap, p: Life, a: Life)
    requires Machine(lives) && SnapshotAt(lives, t, rows) && FullRows(lives, t, rows) && r.current == ByPid(rows)
    requires (forall b :: b in lives && b.pid == leader.pid ==> b == leader) && leader in lives && r.root == leader.pid && !r.exited
    requires p in lives && a in lives && IsParent(p, a) && AliveAt(p, t)
    requires LifeKey(leader) in start && LifeKey(a) !in start
    requires var all := AdmitAll(start, rows, r);
             && (forall k :: k in all ==> KeyOf(all[k].process) == k && exists b :: b in lives && LifeKey(b) == k)
             && LifeKey(a) in all && LifeKey(p) in all && all[LifeKey(p)].signalable
    ensures AdmitAll(start, rows, r)[LifeKey(a)].signalable
  {
    var all := AdmitAll(start, rows, r);
    var mid, entry := AllAdmits(start, rows, r, LifeKey(a));
    var b := RowIsLife(lives, t, rows, entry);
    assert Separate(a, b);
    ParentIsOwnedFirst(lives, leader, t, rows, r, mid, all, p, a, entry);
    assert SignalsThrough(mid[LifeKey(p)], entry, r.current);
    assert MaySignal(mid, entry, r);
  }

  lemma ParentIsOwnedFirst(lives: set<Life>, leader: Life, t: nat, rows: seq<Process>, r: Round, mid: OwnedMap, all: OwnedMap,
                           p: Life, a: Life, entry: Process)
    requires Machine(lives) && SnapshotAt(lives, t, rows) && FullRows(lives, t, rows) && r.current == ByPid(rows)
    requires forall b :: b in lives && b.pid == leader.pid ==> b == leader
    requires leader in lives && p in lives && a in lives && IsParent(p, a) && AliveAt(p, t) && r.root == leader.pid
    requires entry == Process(a.pid, a.parentPid, Some(a.birth)) && Admissible(mid, entry, r) && LifeKey(leader) in mid
    requires forall k :: k in mid ==> k in all && mid[k] == all[k]
    requires forall k :: k in all ==> KeyOf(all[k].process) == k && exists b :: b in lives && LifeKey(b) == k
    ensures LifeKey(p) in mid && mid[LifeKey(p)].process == Process(p.pid, mid[LifeKey(p)].process.parent, Some(p.birth))
    ensures p.pid in r.current && r.current[p.pid].token == Some(p.birth)
  {
    ByPidFinds(rows);
    assert Process(p.pid, p.parentPid, Some(p.birth)) in rows;
    if p.pid != leader.pid {
      assert HasParent(mid, entry.parent);
      var k :| k in mid && mid[k].process.pid == entry.parent && Plausible(entry, mid[k].process, Row(r.current, entry.parent));
      var q :| q in lives && LifeKey(q) == k;
      assert Separate(p, q);
    }
  }

  /** What was owned before was in an earlier snapshot, and so was its living line. */
  lemma OwnedEarlier(lives: set<Life>, leader: Life, times: seq<nat>, looks: seq<Look>,
                     baseline: map<nat, Option<nat>>, n: nat, a: Life) returns (m: nat)
    requires FullLooks(lives, leader, times, looks, baseline) && ExitLasts(looks)
    requires n < |looks| && !looks[n].exited && AliveLine(lives, leader, a, times[n])
    requires LifeKey(a) in Before(leader, looks, baseline, n).owned
    ensures m < n && looks[m].rows.Some? && !looks[m].exited && AliveLine(lives, leader, a, times[m])
  {
    m := FirstOwned(leader, looks, baseline, n, LifeKey(a));
    NewlyOwnedIsAlive(lives, leader, times, looks, baseline, m, a);
    LineWasAlive(lives, leader, a, times[m], times[n]);
    OwningLookHasRows(leader, looks, baseline, m, LifeKey(a));
  }

  lemma ChildFollows(lives: set<Life>, leader: Life, times: seq<nat>, looks: seq<Look>,
                     baseline: map<nat, Option<nat>>, n: nat, p: Life, a: Life)
    requires FullLooks(lives, leader, times, looks, baseline)
    requires n < |looks| && looks[n].rows.Some? && !looks[n].exited && a in lives && AliveAt(a, times[n])
    requires p in lives && IsParent(p, a) && AliveLine(lives, leader, p, times[n]) && a != leader
    requires LifeKey(a) !in Before(leader, looks, baseline, n).owned
    requires Signalled(Before(leader, looks, baseline, n + 1), p) && Signalled(Before(leader, looks, baseline, n + 1), leader)
    ensures Signalled(Before(leader, looks, baseline, n + 1), a)
  {
    LineHoldsLeader(lives, leader, p, times[n]);
    ChildIsAdmitted(lives, leader, times, looks, baseline, n, p, a);
    ChildIsSignalled(lives, leader, times, looks, baseline, n, p, a);
  }

  lemma {:induction false} LeaderIsSignalled(lives: set<Life>, leader: Life, times: seq<nat>, looks: seq<Look>,
                                             baseline: map<nat, Option<nat>>, n: nat)
    requires FullLooks(lives, leader, times, looks, baseline) && ExitLasts(looks)
    requires n < |looks| && looks[n].rows.Some? && !looks[n].exited && AliveLine(lives, leader, leader, times[n])
    ensures Signalled(Before(leader, looks, baseline, n + 1), leader)
  {
    if LifeKey(leader) in Before(leader, looks, baseline, n).owned {
      var m := OwnedEarlier(lives, leader, times, looks, baseline, n, leader);
      LeaderIsSignalled(lives, leader, times, looks, baseline, m);
      SignalledStays(leader, looks, baseline, m + 1, n + 1, leader);
    } else {
      LeaderIsMet(lives, leader, times, looks, baseline, n);
    }
  }

  lemma ParentOnLine(lives: set<Life>, leader: Life, a: Life, t: nat) returns (p: Life)
    requires AliveLine(lives, leader, a, t) && a != leader
    ensures p in lives && IsParent(p, a) && p.birth < a.birth && AliveLine(lives, leader, p, t)
    ensures AliveLine(lives, leader, leader, t)
  {
    p :| p in lives && IsParent(p, a) && AliveLine(lives, leader, p, t);
    LineHoldsLeader(lives, leader, p, t);
  }

  /** While the leader has not exited, a look comes to own its living line, each with the right to signal it. */
  lemma {:induction false} LineIsSignalled(lives: set<Life>, leader: Life, times: seq<nat>, looks: seq<Look>,
                                           baseline: map<nat, Option<nat>>, n: nat, a: Life)
    requires FullLooks(lives, leader, times, looks, baseline) && ExitLasts(looks)
    requires n < |looks| && looks[n].rows.Some? && !looks[n].exited && AliveLine(lives, leader, a, times[n])
    ensures Signalled(Before(leader, looks, baseline, n + 1), a)
    decreases n, a.birth, 1
  {
    if a == leader {
      LeaderIsSignalled(lives, leader, times, looks, baseline, n);
    } else if LifeKey(a) in Before(leader, looks, baseline, n).owned {
      OldOnLine(lives, leader, times, looks, baseline, n, a);
    } else {
      NewOnLine(lives, leader, times, looks, baseline, n, a);
    }
  }

  lemma {:induction false} OldOnLine(lives: set<Life>, leader: Life, times: seq<nat>, looks: seq<Look>,
                                     baseline: map<nat, Option<nat>>, n: nat, a: Life)
    requires FullLooks(lives, leader, times, looks, baseline) && ExitLasts(looks)
    requires n < |looks| && !looks[n].exited && AliveLine(lives, leader, a, times[n])
    requires LifeKey(a) in Before(leader, looks, baseline, n).owned
    ensures Signalled(Before(leader, looks, baseline, n + 1), a)
    decreases n, a.birth, 0
  {
    var m := OwnedEarlier(lives, leader, times, looks, baseline, n, a);
    LineIsSignalled(lives, leader, times, looks, baseline, m, a);
    SignalledStays(leader, looks, baseline, m + 1, n + 1, a);
  }

  lemma {:induction false} NewOnLine(lives: set<Life>, leader: Life, times: seq<nat>, looks: seq<Look>,
                                     baseline: map<nat, Option<nat>>, n: nat, a: Life)
    requires FullLooks(lives, leader, times, looks, baseline) && ExitLasts(looks)
    requires n < |looks| && looks[n].rows.Some? && !looks[n].exited && AliveLine(lives, leader, a, times[n])
    requires a != leader && LifeKey(a) !in Before(leader, looks, baseline, n).owned
    ensures Signalled(Before(leader, looks, baseline, n + 1), a)
    decreases n, a.birth, 0
  {
    var p := ParentOnLine(lives, leader, a, times[n]);
    LineIsSignalled(lives, leader, times, looks, baseline, n, p);
    LeaderIsSignalled(lives, leader, times, looks, baseline, n);
    ChildFollows(lives, leader, times, looks, baseline, n, p, a);
  }

  /**
   * A stop reaches everything: whatever descends from the leader through processes alive in the same snapshot, while
   * the leader has not exited, is signalled from then on by every stop whose snapshot shows it.
   */
  lemma DescendantsAreSignalled(lives: set<Life>, leader: Life, times: seq<nat>, looks: seq<Look>,
                                baseline: map<nat, Option<nat>>, n: nat, m: nat, a: Life)
    requires FullLooks(lives, leader, times, looks, baseline) && ExitLasts(looks)
    requires n <= m < |looks| && looks[n].rows.Some? && !looks[n].exited && AliveLine(lives, leader, a, times[n])
    requires ProcessedAt(leader, looks, baseline, m) && AliveAt(a, times[m])
    ensures Target(Before(leader, looks, baseline, m + 1), Process(a.pid, a.parentPid, Some(a.birth)))
  {
    LineIsSignalled(lives, leader, times, looks, baseline, n, a);
    SignalledStays(leader, looks, baseline, n + 1, m + 1, a);
    NextWatch(leader, looks, baseline, m);
    assert FullRows(lives, times[m], looks[m].rows.value);
  }
}
