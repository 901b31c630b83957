/** What the Windows watch leaves alone, and when it lets go of the guard. */
module WindowsBounds {
  import opened Options
  import opened WindowsAutosave
  import opened WindowsProofs
  import opened WindowsSignals

  type Tokens = map<nat, Option<nat>>

  // ---- what a look does not come to own --------------------------------------------------------

  /** A process that ran before the command did. */
  predicate RanBefore(baseline: Tokens, k: Key) {
    k.token.Some? && k.pid in baseline && baseline[k.pid] == k.token
  }

  /** Born before the process at `j`, as far as both dates are known. */
  predicate OlderThan(k: Key, j: Key) {
    k.token.Some? && j.token.Some? && k.token.value < j.token.value
  }

  predicate Keyed(owned: OwnedMap) {
    forall k :: k in owned ==> KeyOf(owned[k].process) == k
  }

  /** Some owned process of the parent's pid is no younger than this one. */
  predicate Linked(owned: OwnedMap, root: nat, k: Key)
    requires k in owned
  {
    owned[k].process.parent == root || exists j :: j in owned && j.pid == owned[k].process.parent && !OlderThan(k, j)
  }

  /** Nothing owned but the leader's pid ran before the command, and each row has its parent there, or is a child of the leader's pid. */
  predicate Bounded(owned: OwnedMap, baseline: Tokens, root: nat) {
    Keyed(owned) && forall k :: k in owned && k.pid != root ==> !RanBefore(baseline, k) && Linked(owned, root, k)
  }

  lemma AdmitIsBounded(owned: OwnedMap, entry: Process, r: Round)
    requires Bounded(owned, r.baseline, r.root)
    ensures Bounded(Admit(owned, entry, r), r.baseline, r.root)
  {
    var now, key := Admit(owned, entry, r), KeyOf(entry);
    forall k | k in now && k.pid != r.root
      ensures !RanBefore(r.baseline, k) && Linked(now, r.root, k)
    {
      if k in owned {
        assert Linked(owned, r.root, k);
      } else if entry.parent != r.root {
        var j :| j in owned && owned[j].process.pid == entry.parent && Plausible(entry, owned[j].process, Row(r.current, entry.parent));
        assert j in now && j.pid == now[k].process.parent && !OlderThan(k, j);
      }
    }
  }

  lemma {:induction false} PassIsBounded(owned: OwnedMap, rows: seq<Process>, r: Round)
    requires Bounded(owned, r.baseline, r.root)
    ensures Bounded(AdmitPass(owned, rows, r), r.baseline, r.root)
  {
    if rows != [] {
      PassIsBounded(owned, rows[..|rows| - 1], r);
      AdmitIsBounded(AdmitPass(owned, rows[..|rows| - 1], r), rows[|rows| - 1], r);
    }
  }

  lemma {:induction false} AllIsBounded(owned: OwnedMap, rows: seq<Process>, r: Round)
    requires Bounded(owned, r.baseline, r.root)
    ensures Bounded(AdmitAll(owned, rows, r), r.baseline, r.root)
    decreases Unowned(owned, rows)
  {
    var now := AdmitPass(owned, rows, r);
    PassIsBounded(owned, rows, r);
    if now != owned {
      PassShrinksUnowned(owned, rows, r);
      AllIsBounded(now, rows, r);
    }
  }

  lemma LeaderIsBounded(w: Watch, baseline: Tokens, root: nat, look: Look)
    requires Bounded(w.owned, baseline, root)
    ensures Bounded(WithLeader(w, root, look), baseline, root)
  {
    if MeetsLeader(w, root, look) {
      ByPidHoldsRows(look.rows.value, root);
      var now := WithLeader(w, root, look);
      forall k | k in now && k.pid != root
        ensures !RanBefore(baseline, k) && Linked(now, root, k)
      {
        assert Linked(w.owned, root, k);
      }
    }
  }

  lemma LookIsBounded(w: Watch, baseline: Tokens, root: nat, look: Look)
    requires Bounded(w.owned, baseline, root)
    ensures Bounded(Looked(w, baseline, root, look).owned, baseline, root)
  {
    if Processed(w, root, look) {
      LeaderIsBounded(w, baseline, root, look);
      AllIsBounded(WithLeader(w, root, look), look.rows.value, RoundOf(w, baseline, root, look));
    }
  }

  /** After any looks at any rows whatever, no process of before the command is owned, nor one that is older than all its owned parents. */
  lemma {:induction false} NothingOldIsOwned(baseline: Tokens, root: nat, looks: seq<Look>)
    ensures Bounded(LookAll(FRESH, baseline, root, looks).owned, baseline, root)
  {
    if looks != [] {
      NothingOldIsOwned(baseline, root, looks[..|looks| - 1]);
      LookIsBounded(LookAll(FRESH, baseline, root, looks[..|looks| - 1]), baseline, root, looks[|looks| - 1]);
    }
  }

  /** What a look comes to own, other than the leader it meets. */
  predicate New(w: Watch, baseline: Tokens, root: nat, look: Look, k: Key) {
    k !in WithLeader(w, root, look) && k in Looked(w, baseline, root, look).owned
  }

  /** Once the exit is reported, a new child of the leader's pid was born by then, and no stop signals it. */
  lemma LateChildIsNotOwned(w: Watch, baseline: Tokens, root: nat, look: Look, k: Key)
    requires New(w, baseline, root, look, k) && look.exited && Looked(w, baseline, root, look).owned[k].process.parent == root
    ensures var after := Looked(w, baseline, root, look);
            after.exitTicks.Some? && (k.token.Some? ==> k.token.value <= after.exitTicks.value) && !after.owned[k].signalable
  {
    var mid, entry := AllAdmits(WithLeader(w, root, look), look.rows.value, RoundOf(w, baseline, root, look), k);
  }

  /** A child of a process that took the pid of an owned one, and is in the snapshot, is not owned. */
  lemma NewPidIsNoParent(w: Watch, baseline: Tokens, root: nat, look: Look, k: Key, pid: nat)
    requires New(w, baseline, root, look, k) && look.rows.Some? && pid in ByPid(look.rows.value) && Keyed(w.owned)
    requires Looked(w, baseline, root, look).owned[k].process.parent == pid != root
    requires forall j :: j in Looked(w, baseline, root, look).owned && j.pid == pid ==> j.token != ByPid(look.rows.value)[pid].token
    ensures OlderThan(k, Key(pid, ByPid(look.rows.value)[pid].token))
  {
    var start, r := WithLeader(w, root, look), RoundOf(w, baseline, root, look);
    var mid, entry := AllAdmits(start, look.rows.value, r, k);
    KeysStay(start, look.rows.value, r);
    var j :| j in mid && mid[j].process.pid == entry.parent && Plausible(entry, mid[j].process, Row(r.current, entry.parent));
    assert KeyOf(mid[j].process) == j;
  }

  // ---- what a look does come to own ------------------------------------------------------------

  /** `j` is owned, is no younger than `entry`, and is the process that has the parent's pid now, if any has. */
  predicate ParentNow(owned: OwnedMap, j: Key, entry: Process, current: map<nat, Process>) {
    && j in owned && owned[j].process.pid == entry.parent && !OlderThan(KeyOf(entry), KeyOf(owned[j].process))
    && (entry.parent in current ==> current[entry.parent].token == owned[j].process.token)
  }

  /** A child of an owned process is owned, be it born in the same tick; before the leader's exit, or below it, at any time. */
  lemma ChildIsOwned(owned: OwnedMap, entry: Process, r: Round, j: Key)
    requires ParentNow(owned, j, entry, r.current) && !RanBefore(r.baseline, KeyOf(entry))
    requires entry.parent == r.root && r.exited && entry.token.Some? ==> entry.token.value <= r.exitTicks
    ensures KeyOf(entry) in Admit(owned, entry, r)
  {
    assert HasParent(owned, entry.parent) && PlausibleAncestor(owned, entry, Row(r.current, entry.parent));
  }

  /** It may be signalled if its parent may, with both dates known and the parent in the snapshot, unless the parent is the ended leader. */
  lemma ChildMayBeSignalled(owned: OwnedMap, entry: Process, r: Round, j: Key)
    requires ParentNow(owned, j, entry, r.current) && entry.parent in r.current && KeyOf(entry) !in owned
    requires owned[j].signalable && owned[j].process.token.Some? && entry.token.Some? && !RanBefore(r.baseline, KeyOf(entry))
    requires !(entry.parent == r.root && r.exited)
    ensures KeyOf(entry) in Admit(owned, entry, r) && Admit(owned, entry, r)[KeyOf(entry)].signalable
  {
    ChildIsOwned(owned, entry, r, j);
    assert SignalsThrough(owned[j], entry, r.current);
  }

  // ---- the leader and the guard ----------------------------------------------------------------

  predicate ShowsLeader(root: nat, look: Look) {
    look.rows.Some? && !look.exited && exists p :: p in look.rows.value && p.pid == root
  }

  lemma {:induction false} InRows(rows: seq<Process>, pid: nat)
    ensures pid in ByPid(rows) <==> exists p :: p in rows && p.pid == pid
  {
    if rows != [] {
      var last := rows[|rows| - 1];
      InRows(rows[..|rows| - 1], pid);
      assert rows == rows[..|rows| - 1] + [last];
    }
  }

  /** The leader counts as met from the first look on that shows a row at its pid before its exit was reported. */
  lemma {:induction false} LeaderIsMetIff(baseline: Tokens, root: nat, looks: seq<Look>)
    ensures LookAll(FRESH, baseline, root, looks).leaderObserved <==> exists look :: look in looks && ShowsLeader(root, look)
  {
    if looks != [] {
      var rest, look := looks[..|looks| - 1], looks[|looks| - 1];
      LeaderIsMetIff(baseline, root, rest);
      if look.rows.Some? {
        InRows(look.rows.value, root);
      }
      var w := LookAll(FRESH, baseline, root, rest);
      assert LookAll(FRESH, baseline, root, looks).leaderObserved <==> w.leaderObserved || ShowsLeader(root, look);
      assert looks == rest + [look] && look in looks;
      assert forall x :: x in looks ==> x in rest || x == look;
    }
  }

  predicate Learns(look: Look) {
    look.exitedBefore || (look.exited && look.rows.Some?)
  }

  /** Look `i` is the first to learn of the exit, and `ticks` the time it notes: that before its snapshot, or else after. */
  predicate FirstLearns(looks: seq<Look>, i: nat, ticks: nat) {
    && i < |looks| && Learns(looks[i]) && ticks == (if looks[i].exitedBefore then looks[i].ticksBefore else looks[i].ticks)
    && forall k :: 0 <= k < i ==> !Learns(looks[k])
  }

  /** The exit time is the one that the first look to learn of the exit noted. */
  lemma {:induction false} ExitTimeIs(baseline: Tokens, root: nat, looks: seq<Look>)
    ensures var noted := LookAll(FRESH, baseline, root, looks).exitTicks;
            match noted
            case None => forall k :: 0 <= k < |looks| ==> !Learns(looks[k])
            case Some(ticks) => exists i :: FirstLearns(looks, i, ticks)
  {
    if looks != [] {
      var n := |looks| - 1;
      var rest := looks[..n];
      ExitTimeIs(baseline, root, rest);
      var before, noted := LookAll(FRESH, baseline, root, rest).exitTicks, LookAll(FRESH, baseline, root, looks).exitTicks;
      assert forall k :: 0 <= k < n ==> rest[k] == looks[k];
      if before.Some? {
        var i :| FirstLearns(rest, i, before.value);
        assert FirstLearns(looks, i, noted.value);
      } else if Learns(looks[n]) {
        assert FirstLearns(looks, n, noted.value);
      }
    }
  }

  /** What a stop may signal is in the last snapshot that was read; where the leader's row is in doubt, it signals nobody. */
  lemma OnlyShownAreSignalled(w: Watch, baseline: Tokens, root: nat, look: Look, p: Process)
    requires Target(Looked(w, baseline, root, look), p)
    ensures if look.rows.Some? then p in look.rows.value && (look.exited ==> LeaderIsKnown(w, root, look.rows.value)) else Target(w, p)
  {
  }

  /** The dates tell the two apart. */
  predicate Apart(k: Key, p: Process) {
    k.pid != p.pid || (k.token.Some? && p.token.Some? && k.token != p.token)
  }

  ghost predicate AllGone(w: Watch, rows: seq<Process>) {
    forall k, p :: k in w.owned && p in rows ==> Apart(k, p)
  }

  /** The leader's pid is free, or the leader was met while it ran. */
  predicate LeaderIsKnown(w: Watch, root: nat, rows: seq<Process>) {
    root in ByPid(rows) ==> w.leaderObserved
  }

  /** The exit was reported and, of the processes owned `after` the look, none is in its snapshot. */
  ghost predicate Over(w: Watch, root: nat, look: Look, after: Watch) {
    look.exited && look.rows.Some? && LeaderIsKnown(w, root, look.rows.value) && AllGone(after, look.rows.value)
  }

  /** The guard goes exactly if the exit was reported, a snapshot was read and none of its rows can be an owned process. */
  lemma GuardGoesIff(w: Watch, baseline: Tokens, root: nat, look: Look)
    requires Keyed(w.owned)
    ensures KeepsGuard(w, baseline, root, look) <==> !Over(w, root, look, Looked(w, baseline, root, look))
  {
    if Processed(w, root, look) && look.exited {
      var rows, after := look.rows.value, Looked(w, baseline, root, look);
      KeysStay(WithLeader(w, root, look), rows, RoundOf(w, baseline, root, look));
      assert Keyed(after.owned);
      if Retains(after.owned, rows) {
        RetainedIsNotApart(after, rows);
      } else {
        forall k, p | k in after.owned && p in rows
          ensures Apart(k, p)
        {
          assert KeyOf(p) !in after.owned;
        }
      }
    }
  }

  lemma RetainedIsNotApart(w: Watch, rows: seq<Process>)
    requires Keyed(w.owned) && Retains(w.owned, rows)
    ensures !AllGone(w, rows)
  {
    if p :| p in rows && KeyOf(p) in w.owned {
      assert !Apart(KeyOf(p), p);
    } else {
      var p, k :| p in rows && k in w.owned && w.owned[k].process.pid == p.pid && (w.owned[k].process.token.None? || p.token.None?);
      assert !Apart(k, p);
    }
  }
}
