/** What the Windows watch proves about processes. */
module WindowsProofs {
  // A `Life` is one process from birth to exit; rows only show its pid, its parent's pid and, when the system
  // tells it, its birth.

  import opened Options
  import opened WindowsAutosave

  datatype Life = Life(pid: nat, birth: nat, exit: Option<nat>, parentPid: nat, parentBirth: nat)

  predicate AliveAt(a: Life, t: nat) {
    a.birth <= t && (a.exit.None? || t < a.exit.value)
  }

  predicate Ended(a: Life, t: nat) {
    a.exit.Some? && a.exit.value <= t
  }

  /** A pid is used again only after its process exited, and no two processes are born at once. */
  predicate Separate(a: Life, b: Life) {
    a != b ==> a.birth != b.birth && (a.pid == b.pid ==> Ended(a, b.birth) || Ended(b, a.birth))
  }

  predicate IsParent(p: Life, a: Life) {
    a.parentPid == p.pid && a.parentBirth == p.birth && p.birth < a.birth && AliveAt(p, a.birth)
  }

  /** The processes of the machine: every one but the first was forked by a process of it. */
  ghost predicate Machine(lives: set<Life>) {
    && (forall a, b :: a in lives && b in lives ==> Separate(a, b))
    && (forall a :: a in lives ==> a.pid > 0 && (a.parentPid > 0 ==> exists p :: p in lives && IsParent(p, a)))
  }

  /** `p` is a row of `a`; the creation date may be missing. */
  predicate RowOf(p: Process, a: Life) {
    p.pid == a.pid && p.parent == a.parentPid && (p.token.Some? ==> p.token.value == a.birth)
  }

  /** A snapshot at the instant `t`: each row is of a process alive then, one row a pid. */
  ghost predicate SnapshotAt(lives: set<Life>, t: nat, rows: seq<Process>) {
    && (forall p :: p in rows ==> exists a :: a in lives && AliveAt(a, t) && RowOf(p, a))
    && OneRowEach(rows)
  }

  /** `a` is the leader or was forked, directly or not, by it. */
  ghost predicate Descends(lives: set<Life>, leader: Life, a: Life)
    decreases a.birth
  {
    a == leader || exists p :: p in lives && IsParent(p, a) && Descends(lives, leader, p)
  }

  predicate OneRowEach(rows: seq<Process>) {
    forall i, j :: 0 <= i < j < |rows| ==> rows[i].pid != rows[j].pid
  }

  lemma {:induction false} ByPidFindsRow(rows: seq<Process>, i: nat)
    requires OneRowEach(rows) && i < |rows|
    ensures rows[i].pid in ByPid(rows) && ByPid(rows)[rows[i].pid] == rows[i]
  {
    if i < |rows| - 1 {
      ByPidFindsRow(rows[..|rows| - 1], i);
    }
  }

  lemma {:induction false} ByPidHoldsRows(rows: seq<Process>, pid: nat)
    requires pid in ByPid(rows)
    ensures ByPid(rows)[pid] in rows && ByPid(rows)[pid].pid == pid
  {
    var last := rows[|rows| - 1];
    assert last in rows;
    if pid != last.pid {
      ByPidHoldsRows(rows[..|rows| - 1], pid);
    }
  }

  lemma ByPidFinds(rows: seq<Process>)
    requires OneRowEach(rows)
    ensures forall p :: p in rows ==> p.pid in ByPid(rows) && ByPid(rows)[p.pid] == p
    ensures forall pid :: pid in ByPid(rows) ==> ByPid(rows)[pid] in rows && ByPid(rows)[pid].pid == pid
  {
    forall p | p in rows
      ensures p.pid in ByPid(rows) && ByPid(rows)[p.pid] == p
    {
      var i :| 0 <= i < |rows| && rows[i] == p;
      ByPidFindsRow(rows, i);
    }
    forall pid | pid in ByPid(rows)
      ensures ByPid(rows)[pid] in rows && ByPid(rows)[pid].pid == pid
    {
      ByPidHoldsRows(rows, pid);
    }
  }

  // ---- signals -----------------------------------------------------------------------------------

  ghost predicate IsDescendant(lives: set<Life>, leader: Life, pid: nat, birth: nat) {
    exists a :: a in lives && a.pid == pid && a.birth == birth && Descends(lives, leader, a)
  }

  /** Whatever may be signalled is the leader or a descendant of it. */
  ghost predicate OwnedSound(lives: set<Life>, leader: Life, owned: OwnedMap) {
    forall k :: k in owned ==>
      KeyOf(owned[k].process) == k && (owned[k].signalable && k.token.Some? ==> IsDescendant(lives, leader, k.pid, k.token.value))
  }

  /** A child whose signalable parent is in the same snapshot is the child of that very process. */
  lemma SignalsThroughParent(lives: set<Life>, leader: Life, t: nat, rows: seq<Process>, owned: OwnedMap, k: Key, entry: Process)
    requires Machine(lives) && SnapshotAt(lives, t, rows) && OwnedSound(lives, leader, owned)
    requires entry in rows && k in owned && owned[k].process.pid == entry.parent
    requires SignalsThrough(owned[k], entry, ByPid(rows))
    ensures IsDescendant(lives, leader, entry.pid, entry.token.value)
  {
    ByPidFinds(rows);
    var parent := ByPid(rows)[k.pid];
    var a :| a in lives && AliveAt(a, t) && RowOf(entry, a);
    var q :| q in lives && AliveAt(q, t) && RowOf(parent, q);
    var p :| p in lives && p.pid == k.pid && p.birth == k.token.value && Descends(lives, leader, p);
    assert Separate(p, q);
    assert p == q;
    assert a.parentPid > 0;
    var forker :| forker in lives && IsParent(forker, a);
    assert Separate(p, forker);
    assert p == forker;
  }

  lemma AdmitIsSound(lives: set<Life>, leader: Life, t: nat, rows: seq<Process>, owned: OwnedMap, entry: Process, r: Round)
    requires Machine(lives) && SnapshotAt(lives, t, rows) && OwnedSound(lives, leader, owned)
    requires entry in rows && r.current == ByPid(rows)
    ensures OwnedSound(lives, leader, Admit(owned, entry, r))
  {
    if Admissible(owned, entry, r) && MaySignal(owned, entry, r) {
      var k :| k in owned && owned[k].process.pid == entry.parent && SignalsThrough(owned[k], entry, r.current);
      SignalsThroughParent(lives, leader, t, rows, owned, k, entry);
    }
  }

  lemma {:induction false} PassIsSound(lives: set<Life>, leader: Life, t: nat, rows: seq<Process>, owned: OwnedMap, some: seq<Process>, r: Round)
    requires Machine(lives) && SnapshotAt(lives, t, rows) && OwnedSound(lives, leader, owned)
    requires (forall p :: p in some ==> p in rows) && r.current == ByPid(rows)
    ensures OwnedSound(lives, leader, AdmitPass(owned, some, r))
  {
    if some != [] {
      PassIsSound(lives, leader, t, rows, owned, some[..|some| - 1], r);
      AdmitIsSound(lives, leader, t, rows, AdmitPass(owned, some[..|some| - 1], r), some[|some| - 1], r);
    }
  }

  lemma {:induction false} AdmitAllIsSound(lives: set<Life>, leader: Life, t: nat, rows: seq<Process>, owned: OwnedMap, r: Round)
    requires Machine(lives) && SnapshotAt(lives, t, rows) && OwnedSound(lives, leader, owned)
    requires r.current == ByPid(rows)
    ensures OwnedSound(lives, leader, AdmitAll(owned, rows, r))
    decreases Unowned(owned, rows)
  {
    var now := AdmitPass(owned, rows, r);
    PassIsSound(lives, leader, t, rows, owned, rows, r);
    if now != owned {
      PassShrinksUnowned(owned, rows, r);
      AdmitAllIsSound(lives, leader, t, rows, now, r);
    }
  }

  /** A look at the instant `t`. Until its exit is reported, the leader's pid names the leader. */
  ghost predicate LookAt(lives: set<Life>, leader: Life, t: nat, look: Look) {
    && (look.rows.Some? ==> SnapshotAt(lives, t, look.rows.value))
    && (!look.exited ==> forall a :: a in lives && a.pid == leader.pid && AliveAt(a, t) ==> a == leader)
  }

  function LookAll(w: Watch, baseline: map<nat, Option<nat>>, root: nat, looks: seq<Look>): Watch {
    if looks == [] then w
    else Looked(LookAll(w, baseline, root, looks[..|looks| - 1]), baseline, root, looks[|looks| - 1])
  }

  ghost predicate Looks(lives: set<Life>, leader: Life, times: seq<nat>, looks: seq<Look>) {
    && Machine(lives) && leader in lives
    && |times| == |looks|
    && forall n :: 0 <= n < |looks| ==> LookAt(lives, leader, times[n], looks[n])
  }

  lemma LookIsSound(lives: set<Life>, leader: Life, t: nat, w: Watch, baseline: map<nat, Option<nat>>, look: Look)
    requires Machine(lives) && leader in lives && LookAt(lives, leader, t, look) && OwnedSound(lives, leader, w.owned)
    ensures OwnedSound(lives, leader, Looked(w, baseline, leader.pid, look).owned)
  {
    if Processed(w, leader.pid, look) {
      var rows := look.rows.value;
      ByPidFinds(rows);
      if MeetsLeader(w, leader.pid, look) {
        var row := ByPid(rows)[leader.pid];
        var a :| a in lives && AliveAt(a, t) && RowOf(row, a);
        assert a == leader;
        assert Descends(lives, leader, leader);
      }
      AdmitAllIsSound(lives, leader, t, rows, WithLeader(w, leader.pid, look), RoundOf(w, baseline, leader.pid, look));
    }
  }

  lemma {:induction false} LooksAreSound(lives: set<Life>, leader: Life, times: seq<nat>, looks: seq<Look>, baseline: map<nat, Option<nat>>)
    requires Looks(lives, leader, times, looks)
    ensures OwnedSound(lives, leader, LookAll(FRESH, baseline, leader.pid, looks).owned)
  {
    if looks != [] {
      var n := |looks| - 1;
      LooksAreSound(lives, leader, times[..n], looks[..n], baseline);
      LookIsSound(lives, leader, times[n], LookAll(FRESH, baseline, leader.pid, looks[..n]), baseline, looks[n]);
    }
  }

  /**
   * After any looks, every row a stop would signal names the leader or a true descendant of it, whatever
   * pids were used again in between; so no process that was there before the leader is ever signalled.
   */
  lemma OnlyDescendantsAreSignalled(lives: set<Life>, leader: Life, times: seq<nat>, looks: seq<Look>,
                                    baseline: map<nat, Option<nat>>, p: Process)
    requires Looks(lives, leader, times, looks)
    requires Target(LookAll(FRESH, baseline, leader.pid, looks), p)
    ensures IsDescendant(lives, leader, p.pid, p.token.value) && p.token.value >= leader.birth
  {
    LooksAreSound(lives, leader, times, looks, baseline);
    var a :| a in lives && a.pid == p.pid && a.birth == p.token.value && Descends(lives, leader, a);
    DescendantsAreYounger(lives, leader, a);
  }

  lemma {:induction false} DescendantsAreYounger(lives: set<Life>, leader: Life, a: Life)
    requires Descends(lives, leader, a)
    ensures a.birth >= leader.birth
    decreases a.birth
  {
    if a != leader {
      var p :| p in lives && IsParent(p, a) && Descends(lives, leader, p);
      DescendantsAreYounger(lives, leader, p);
    }
  }

  // ---- the guard ---------------------------------------------------------------------------------

  /** Complete listings at instants that never go back, every creation date known, the recorded exit
      time no earlier than the exit, and the leader's pid never used again. */
  ghost predicate FullLooks(lives: set<Life>, leader: Life, times: seq<nat>, looks: seq<Look>, baseline: map<nat, Option<nat>>) {
    && Looks(lives, leader, times, looks)
    && (forall i, j :: 0 <= i <= j < |times| ==> times[i] <= times[j])
    && (forall n :: 0 <= n < |looks| && looks[n].rows.Some? ==> FullRows(lives, times[n], looks[n].rows.value))
    && (forall n :: 0 <= n < |looks| ==> TicksFit(leader, looks[n]))
    && (forall a :: a in lives && a.pid == leader.pid ==> a == leader)
    && (forall pid :: pid in baseline && baseline[pid].Some? ==> baseline[pid].value < leader.birth)
  }

  ghost predicate FullRows(lives: set<Life>, t: nat, rows: seq<Process>) {
    && (forall p :: p in rows ==> p.token.Some?)
    && (forall a :: a in lives && AliveAt(a, t) ==> Process(a.pid, a.parentPid, Some(a.birth)) in rows)
  }

  predicate TicksFit(leader: Life, look: Look) {
    && (look.exitedBefore ==> Ended(leader, look.ticksBefore))
    && (look.exited ==> Ended(leader, look.ticks))
  }

  function LifeKey(a: Life): Key {
    Key(a.pid, Some(a.birth))
  }

  /** The watch before look `n`. */
  function Before(leader: Life, looks: seq<Look>, baseline: map<nat, Option<nat>>, n: nat): Watch
    requires n <= |looks|
  {
    LookAll(FRESH, baseline, leader.pid, looks[..n])
  }

  predicate ProcessedAt(leader: Life, looks: seq<Look>, baseline: map<nat, Option<nat>>, n: nat) {
    n < |looks| && Processed(Before(leader, looks, baseline, n), leader.pid, looks[n])
  }

  /** Some processed look found `a`. */
  ghost predicate Seen(leader: Life, times: seq<nat>, looks: seq<Look>, baseline: map<nat, Option<nat>>, a: Life) {
    exists n: nat :: n < |times| && ProcessedAt(leader, looks, baseline, n) && AliveAt(a, times[n])
  }

  /** `a` descends from the leader through processes each found by some processed look. */
  ghost predicate Traced(lives: set<Life>, leader: Life, times: seq<nat>, looks: seq<Look>, baseline: map<nat, Option<nat>>, a: Life)
    decreases a.birth
  {
    exists p :: p in lives && IsParent(p, a) && (p == leader
      || (Seen(leader, times, looks, baseline, p) && Traced(lives, leader, times, looks, baseline, p)))
  }

  /** What is owned is real, the leader once it was met, and the exit time is a true one. */
  ghost predicate WatchFits(lives: set<Life>, leader: Life, w: Watch) {
    && (forall k :: k in w.owned ==> KeyOf(w.owned[k].process) == k && exists a :: a in lives && LifeKey(a) == k)
    && (w.leaderObserved ==> LifeKey(leader) in w.owned)
    && (w.exitTicks.Some? ==> Ended(leader, w.exitTicks.value))
  }

  lemma {:induction false} AllGrows(owned: OwnedMap, rows: seq<Process>, r: Round)
    ensures forall k :: k in owned ==> k in AdmitAll(owned, rows, r) && AdmitAll(owned, rows, r)[k] == owned[k]
    ensures forall k :: k in AdmitAll(owned, rows, r) && k !in owned ==> exists p :: p in rows && KeyOf(p) == k
    decreases Unowned(owned, rows)
  {
    var now := AdmitPass(owned, rows, r);
    PassGrows(owned, rows, r);
    if now != owned {
      PassShrinksUnowned(owned, rows, r);
      AllGrows(now, rows, r);
    }
  }

  lemma {:induction false} IdlePassAdmitsNone(owned: OwnedMap, rows: seq<Process>, r: Round)
    requires AdmitPass(owned, rows, r) == owned
    ensures forall p :: p in rows ==> !Admissible(owned, p, r)
  {
    if rows != [] {
      var rest := rows[..|rows| - 1];
      PassGrows(owned, rest, r);
      assert AdmitPass(owned, rest, r).Keys == owned.Keys;
      assert AdmitPass(owned, rest, r) == owned;
      IdlePassAdmitsNone(owned, rest, r);
      assert rows == rest + [rows[|rows| - 1]];
    }
  }

  /** Admission stops at a fixed point. */
  lemma {:induction false} NothingLeftToAdmit(owned: OwnedMap, rows: seq<Process>, r: Round)
    ensures forall p :: p in rows ==> !Admissible(AdmitAll(owned, rows, r), p, r)
    decreases Unowned(owned, rows)
  {
    var now := AdmitPass(owned, rows, r);
    if now == owned {
      IdlePassAdmitsNone(owned, rows, r);
    } else {
      PassShrinksUnowned(owned, rows, r);
      NothingLeftToAdmit(now, rows, r);
    }
  }

  lemma {:induction false} KeysStay(owned: OwnedMap, rows: seq<Process>, r: Round)
    requires forall k :: k in owned ==> KeyOf(owned[k].process) == k
    ensures forall k :: k in AdmitAll(owned, rows, r) ==> KeyOf(AdmitAll(owned, rows, r)[k].process) == k
    decreases Unowned(owned, rows)
  {
    var now := AdmitPass(owned, rows, r);
    PassKeys(owned, rows, r);
    if now != owned {
      PassShrinksUnowned(owned, rows, r);
      KeysStay(now, rows, r);
    }
  }

  lemma {:induction false} PassKeys(owned: OwnedMap, rows: seq<Process>, r: Round)
    requires forall k :: k in owned ==> KeyOf(owned[k].process) == k
    ensures forall k :: k in AdmitPass(owned, rows, r) ==> KeyOf(AdmitPass(owned, rows, r)[k].process) == k
  {
    if rows != [] {
      PassKeys(owned, rows[..|rows| - 1], r);
    }
  }

  lemma RowIsLife(lives: set<Life>, t: nat, rows: seq<Process>, p: Process) returns (a: Life)
    requires SnapshotAt(lives, t, rows) && FullRows(lives, t, rows) && p in rows
    ensures a in lives && AliveAt(a, t) && RowOf(p, a) && LifeKey(a) == KeyOf(p)
  {
    a :| a in lives && AliveAt(a, t) && RowOf(p, a);
  }

  lemma LookFits(lives: set<Life>, leader: Life, times: seq<nat>, looks: seq<Look>, baseline: map<nat, Option<nat>>, n: nat, w: Watch)
    requires FullLooks(lives, leader, times, looks, baseline) && n < |looks| && WatchFits(lives, leader, w)
    ensures WatchFits(lives, leader, Looked(w, baseline, leader.pid, looks[n]))
    ensures w.owned.Keys <= Looked(w, baseline, leader.pid, looks[n]).owned.Keys
  {
    var look := looks[n];
    assert LookAt(lives, leader, times[n], look) && TicksFit(leader, look);
    if Processed(w, leader.pid, look) {
      var rows, r := look.rows.value, RoundOf(w, baseline, leader.pid, look);
      var owned := WithLeader(w, leader.pid, look);
      assert FullRows(lives, times[n], rows);
      ByPidFinds(rows);
      if MeetsLeader(w, leader.pid, look) {
        var a := RowIsLife(lives, times[n], rows, ByPid(rows)[leader.pid]);
      }
      AllGrows(owned, rows, r);
      KeysStay(owned, rows, r);
      forall k | k in AdmitAll(owned, rows, r)
        ensures exists a :: a in lives && LifeKey(a) == k
      {
        if k !in owned {
          var p :| p in rows && KeyOf(p) == k;
          var a := RowIsLife(lives, times[n], rows, p);
        }
      }
    }
  }

  lemma {:induction false} WatchAlwaysFits(lives: set<Life>, leader: Life, times: seq<nat>, looks: seq<Look>, baseline: map<nat, Option<nat>>, n: nat)
    requires FullLooks(lives, leader, times, looks, baseline) && n <= |looks|
    ensures WatchFits(lives, leader, Before(leader, looks, baseline, n))
  {
    if n > 0 {
      WatchAlwaysFits(lives, leader, times, looks, baseline, n - 1);
      assert looks[..n][..n - 1] == looks[..n - 1];
      LookFits(lives, leader, times, looks, baseline, n - 1, Before(leader, looks, baseline, n - 1));
    }
  }

  lemma {:induction false} OwnedStays(lives: set<Life>, leader: Life, times: seq<nat>, looks: seq<Look>, baseline: map<nat, Option<nat>>, m: nat, n: nat)
    requires FullLooks(lives, leader, times, looks, baseline) && m <= n <= |looks|
    ensures Before(leader, looks, baseline, m).owned.Keys <= Before(leader, looks, baseline, n).owned.Keys
  {
    if m < n {
      OwnedStays(lives, leader, times, looks, baseline, m, n - 1);
      WatchAlwaysFits(lives, leader, times, looks, baseline, n - 1);
      assert looks[..n][..n - 1] == looks[..n - 1];
      LookFits(lives, leader, times, looks, baseline, n - 1, Before(leader, looks, baseline, n - 1));
    }
  }

  /** The owned row of the parent makes a child plausible, whoever uses the parent's pid by then. */
  lemma ChildIsPlausible(lives: set<Life>, t: nat, rows: seq<Process>, p: Life, a: Life, owned: OwnedMap)
    requires Machine(lives) && p in lives && a in lives && IsParent(p, a) && AliveAt(a, t)
    requires SnapshotAt(lives, t, rows) && FullRows(lives, t, rows)
    requires LifeKey(p) in owned && KeyOf(owned[LifeKey(p)].process) == LifeKey(p)
    ensures PlausibleAncestor(owned, Process(a.pid, a.parentPid, Some(a.birth)), Row(ByPid(rows), a.parentPid))
  {
    ByPidFinds(rows);
    var entry, k, replacement := Process(a.pid, a.parentPid, Some(a.birth)), LifeKey(p), Row(ByPid(rows), a.parentPid);
    if replacement.Some? {
      var q := RowIsLife(lives, t, rows, replacement.value);
      assert Separate(p, q) && Separate(a, q);
    }
    assert Plausible(entry, owned[k].process, replacement);
  }

  /** A parent that was found at some time was found, or is still there, when its child is. */
  lemma ParentFoundInTime(p: Life, a: Life, now: nat, late: nat)
    requires IsParent(p, a) && AliveAt(a, now) && AliveAt(p, late) && now <= late
    ensures AliveAt(p, now)
  {
  }

  /** Every traced process a processed look finds is owned after that look. */
  lemma {:induction false} TracedIsOwned(lives: set<Life>, leader: Life, times: seq<nat>, looks: seq<Look>,
                                         baseline: map<nat, Option<nat>>, n: nat, a: Life)
    requires FullLooks(lives, leader, times, looks, baseline) && ProcessedAt(leader, looks, baseline, n)
    requires a in lives && AliveAt(a, times[n]) && Traced(lives, leader, times, looks, baseline, a)
    ensures LifeKey(a) in Before(leader, looks, baseline, n + 1).owned
    decreases a.birth
  {
    var p :| p in lives && IsParent(p, a) && (p == leader
      || (Seen(leader, times, looks, baseline, p) && Traced(lives, leader, times, looks, baseline, p)));
    if p != leader {
      var m: nat :| m < |times| && ProcessedAt(leader, looks, baseline, m) && AliveAt(p, times[m]);
      if m <= n {
        TracedIsOwned(lives, leader, times, looks, baseline, m, p);
        OwnedStays(lives, leader, times, looks, baseline, m + 1, n + 1);
      } else {
        ParentFoundInTime(p, a, times[n], times[m]);
        TracedIsOwned(lives, leader, times, looks, baseline, n, p);
      }
    }
    TracedIsYounger(lives, leader, times, looks, baseline, a);
    ChildIsAdmitted(lives, leader, times, looks, baseline, n, p, a);
  }

  lemma {:induction false} TracedIsYounger(lives: set<Life>, leader: Life, times: seq<nat>, looks: seq<Look>,
                                           baseline: map<nat, Option<nat>>, a: Life)
    requires Traced(lives, leader, times, looks, baseline, a)
    ensures a.birth > leader.birth
    decreases a.birth
  {
    var p :| p in lives && IsParent(p, a) && (p == leader
      || (Seen(leader, times, looks, baseline, p) && Traced(lives, leader, times, looks, baseline, p)));
    if p != leader {
      TracedIsYounger(lives, leader, times, looks, baseline, p);
    }
  }

  lemma ChildIsAdmitted(lives: set<Life>, leader: Life, times: seq<nat>, looks: seq<Look>,
                        baseline: map<nat, Option<nat>>, n: nat, p: Life, a: Life)
    requires FullLooks(lives, leader, times, looks, baseline) && ProcessedAt(leader, looks, baseline, n)
    requires a in lives && AliveAt(a, times[n]) && p in lives && IsParent(p, a) && a.birth > leader.birth
    requires p != leader ==> LifeKey(p) in Before(leader, looks, baseline, n + 1).owned
    ensures LifeKey(a) in Before(leader, looks, baseline, n + 1).owned
  {
    var w, look, t := Before(leader, looks, baseline, n), looks[n], times[n];
    var rows, r, entry := look.rows.value, RoundOf(w, baseline, leader.pid, look), Process(a.pid, a.parentPid, Some(a.birth));
    assert looks[..n + 1][..n] == looks[..n];
    WatchAlwaysFits(lives, leader, times, looks, baseline, n);
    WatchAlwaysFits(lives, leader, times, looks, baseline, n + 1);
    var owned := Before(leader, looks, baseline, n + 1).owned;
    assert LookAt(lives, leader, t, look) && FullRows(lives, t, rows) && TicksFit(leader, look);
    NothingLeftToAdmit(WithLeader(w, leader.pid, look), rows, r);
    assert !Admissible(owned, entry, r);
    if HasParent(owned, entry.parent) {
      var k :| k in owned && owned[k].process.pid == entry.parent;
      var q :| q in lives && LifeKey(q) == k;
      ChildIsPlausible(lives, t, rows, p, a, owned) by {
        if p == leader {
          assert q == leader;
        }
      }
    }
    assert entry.parent == leader.pid ==> p == leader;
    if LifeKey(a) !in owned {
      assert !(a.pid in baseline && baseline[a.pid] == Some(a.birth));
      if p != leader {
        assert HasParent(owned, entry.parent);
      }
    }
  }

  /**
   * The guard is let go only after the leader exited, and then the snapshot holds neither the leader
   * nor any process descending from it through processes that some processed snapshot showed.
   */
  lemma GuardOutlivesTracedProcesses(lives: set<Life>, leader: Life, times: seq<nat>, looks: seq<Look>,
                                     baseline: map<nat, Option<nat>>, n: nat, a: Life)
    requires FullLooks(lives, leader, times, looks, baseline) && n < |looks|
    requires !KeepsGuard(Before(leader, looks, baseline, n), baseline, leader.pid, looks[n])
    ensures leader.exit.Some?
    ensures a in lives && AliveAt(a, times[n]) ==> a != leader && !Traced(lives, leader, times, looks, baseline, a)
  {
    var w, look := Before(leader, looks, baseline, n), looks[n];
    assert LookAt(lives, leader, times[n], look) && TicksFit(leader, look);
    assert ProcessedAt(leader, looks, baseline, n);
    var rows := look.rows.value;
    assert looks[..n + 1][..n] == looks[..n];
    if a in lives && AliveAt(a, times[n]) && (a == leader || Traced(lives, leader, times, looks, baseline, a)) {
      var row := Process(a.pid, a.parentPid, Some(a.birth));
      assert FullRows(lives, times[n], rows) && row in rows;
      if a == leader {
        ByPidFinds(rows);
        WatchAlwaysFits(lives, leader, times, looks, baseline, n);
        OwnedStays(lives, leader, times, looks, baseline, n, n + 1);
      } else {
        TracedIsOwned(lives, leader, times, looks, baseline, n, a);
      }
    }
  }
}
