/**
 * The Linux process table over time: what its events never do to a group. The events are forks, exits, reaping, new
 * groups and SIGKILL. A group has an id of its own here, next to the number processes know it by, since the number
 * is used again once the group has ended.
 */
module ProcessTable {
  /** `start` tells incarnations of one pid apart. A `doomed` process was sent SIGKILL: it runs no code. */
  datatype Proc = Proc(group: nat, running: bool, start: nat, doomed: bool)

  datatype Os = Os(procs: map<nat, Proc>, number: map<nat, nat>, clock: nat)

  datatype Event =
    | Fork(parent: nat, child: nat)
    | Lead(pid: nat, group: nat)
    | Exit(pid: nat)
    | Reap(pid: nat)
    | Kill(number: nat)
    | Idle

  predicate Numbered(os: Os, p: Proc, number: nat) {
    p.group in os.number && os.number[p.group] == number
  }

  /** `kill(-number, 0)` finds a process, zombies included. */
  predicate Answers(os: Os, number: nat) {
    exists pid :: pid in os.procs && Numbered(os, os.procs[pid], number)
  }

  predicate Possible(os: Os, e: Event) {
    match e
    // The kernel hands out no pid that names a process or a group with a member.
    case Fork(parent, child) =>
      parent in os.procs && os.procs[parent].running && !os.procs[parent].doomed
      && child !in os.procs && !Answers(os, child)
    // A process becomes the leader of a new group, unless a group by its pid exists.
    case Lead(pid, group) =>
      pid in os.procs && os.procs[pid].running && !os.procs[pid].doomed && group !in os.number && !Answers(os, pid)
    case Exit(pid) => pid in os.procs && os.procs[pid].running
    case Reap(pid) => pid in os.procs && !os.procs[pid].running
    case Kill(_) => true
    case Idle => true
  }

  function Doom(os: Os, p: Proc, number: nat): Proc {
    if Numbered(os, p, number) && p.running then p.(doomed := true) else p
  }

  function After(os: Os, e: Event): Os
    requires Possible(os, e)
  {
    match e
    case Fork(parent, child) =>
      os.(procs := os.procs[child := Proc(os.procs[parent].group, true, os.clock, false)], clock := os.clock + 1)
    case Lead(pid, group) =>
      os.(procs := os.procs[pid := os.procs[pid].(group := group)], number := os.number[group := pid])
    case Exit(pid) => os.(procs := os.procs[pid := os.procs[pid].(running := false)])
    case Reap(pid) => os.(procs := os.procs - {pid})
    case Kill(number) => os.(procs := map pid | pid in os.procs :: Doom(os, os.procs[pid], number))
    case Idle => os
  }

  ghost predicate Next(os: Os, os': Os) {
    exists e :: Possible(os, e) && os' == After(os, e)
  }

  /** Every process has a group with a number and a start of its own. */
  ghost predicate Sane(os: Os) {
    && (forall pid :: pid in os.procs ==> os.procs[pid].group in os.number && os.procs[pid].start < os.clock)
    && (forall p, q :: p in os.procs && q in os.procs && os.number[os.procs[p].group] == os.number[os.procs[q].group] ==>
          os.procs[p].group == os.procs[q].group)
  }

  ghost predicate Ticks(tr: nat -> Os, t: nat) {
    Next(tr(t), tr(t + 1))
  }

  ghost predicate Trace(tr: nat -> Os) {
    Sane(tr(0)) && forall t: nat :: Ticks(tr, t)
  }

  lemma NextIsSane(os: Os, os': Os)
    requires Sane(os) && Next(os, os')
    ensures Sane(os')
  {
    var e :| Possible(os, e) && os' == After(os, e);
  }

  lemma {:induction false} AlwaysSane(tr: nat -> Os, t: nat)
    requires Trace(tr)
    ensures Sane(tr(t))
  {
    if t > 0 {
      AlwaysSane(tr, t - 1);
      assert Ticks(tr, t - 1);
      NextIsSane(tr(t - 1), tr(t));
    }
  }

  // ---- what a group never does -----------------------------------------------------------------

  predicate MemberOf(os: Os, pid: nat, g: nat) {
    pid in os.procs && os.procs[pid].group == g
  }

  predicate RunnerOf(os: Os, pid: nat, g: nat) {
    MemberOf(os, pid, g) && os.procs[pid].running
  }

  ghost predicate NoMember(os: Os, g: nat) {
    forall pid :: !MemberOf(os, pid, g)
  }

  ghost predicate NoRunner(os: Os, g: nat) {
    forall pid :: !RunnerOf(os, pid, g)
  }

  /** A group that was sent SIGKILL: its members neither fork nor leave. */
  ghost predicate Doomed(os: Os, g: nat) {
    forall pid :: RunnerOf(os, pid, g) ==> os.procs[pid].doomed
  }

  /** `g` exists and has kept its number. */
  predicate Known(os: Os, g: nat, number: nat) {
    g in os.number && os.number[g] == number
  }

  /** While `g` has a member, a process by its number is the one that led it. */
  ghost predicate Reserved(os: Os, g: nat, number: nat, born: nat) {
    Known(os, g, number) && born < os.clock
    && (NoMember(os, g) || (number in os.procs ==> os.procs[number].start == born))
  }

  /** What time does not change about a group. */
  ghost predicate Kept(os: Os, os': Os, g: nat, number: nat) {
    && Known(os', g, number)
    && (NoMember(os, g) ==> NoMember(os', g))
    && (NoRunner(os, g) ==> NoRunner(os', g))
    && (Doomed(os, g) ==> Doomed(os', g))
  }

  /** A member of a group is forked by a running member, never joins. */
  lemma NextKeeps(os: Os, os': Os, g: nat, number: nat)
    requires Next(os, os') && Known(os, g, number)
    ensures Kept(os, os', g, number)
  {
    var e :| Possible(os, e) && os' == After(os, e);
    if e.Fork? && Doomed(os, g) {
      assert !RunnerOf(os, e.parent, g);
    }
    forall pid | MemberOf(os', pid, g)
      ensures exists q :: MemberOf(os, q, g)
      ensures RunnerOf(os', pid, g) ==> exists q :: RunnerOf(os, q, g)
      ensures RunnerOf(os', pid, g) && Doomed(os, g) ==> os'.procs[pid].doomed
    {
      var q := if e.Fork? && pid == e.child then e.parent else pid;
      assert MemberOf(os, q, g) && (RunnerOf(os', pid, g) ==> RunnerOf(os, q, g));
    }
  }

  lemma NextKeepsReserved(os: Os, os': Os, g: nat, number: nat, born: nat)
    requires Sane(os) && Next(os, os') && Reserved(os, g, number, born)
    ensures Reserved(os', g, number, born)
  {
    NextKeeps(os, os', g, number);
    var e :| Possible(os, e) && os' == After(os, e);
    if !NoMember(os, g) {
      var q :| MemberOf(os, q, g);
      assert Numbered(os, os.procs[q], number);
      assert Answers(os, number);
    }
  }

  lemma {:induction false} Keeps(tr: nat -> Os, t: nat, u: nat, g: nat, number: nat)
    requires Trace(tr) && t <= u && Known(tr(t), g, number)
    ensures Kept(tr(t), tr(u), g, number)
    decreases u
  {
    if t < u {
      Keeps(tr, t, u - 1, g, number);
      assert Ticks(tr, u - 1);
      NextKeeps(tr(u - 1), tr(u), g, number);
    }
  }

  lemma {:induction false} KeepsReserved(tr: nat -> Os, t: nat, u: nat, g: nat, number: nat, born: nat)
    requires Trace(tr) && t <= u && Reserved(tr(t), g, number, born)
    ensures Reserved(tr(u), g, number, born)
    decreases u
  {
    if t < u {
      KeepsReserved(tr, t, u - 1, g, number, born);
      AlwaysSane(tr, u - 1);
      assert Ticks(tr, u - 1);
      NextKeepsReserved(tr(u - 1), tr(u), g, number, born);
    }
  }

  /** Once a group is doomed, a process that runs in it now ran in it all along. */
  lemma RanBefore(os: Os, os': Os, g: nat, pid: nat)
    requires Next(os, os') && Doomed(os, g) && RunnerOf(os', pid, g) && g in os.number
    ensures RunnerOf(os, pid, g)
  {
    var e :| Possible(os, e) && os' == After(os, e);
    assert e.Fork? ==> !RunnerOf(os, e.parent, g);
  }

  lemma {:induction false} RanAllAlong(tr: nat -> Os, t: nat, u: nat, g: nat, number: nat, pid: nat)
    requires Trace(tr) && t <= u && Known(tr(t), g, number) && Doomed(tr(t), g) && RunnerOf(tr(u), pid, g)
    ensures RunnerOf(tr(t), pid, g)
    decreases u
  {
    if t < u {
      Keeps(tr, t, u - 1, g, number);
      assert Ticks(tr, u - 1);
      RanBefore(tr(u - 1), tr(u), g, pid);
      RanAllAlong(tr, t, u - 1, g, number, pid);
    }
  }

  lemma KillDooms(os: Os, g: nat, number: nat)
    requires Known(os, g, number)
    ensures Doomed(After(os, Kill(number)), g)
  {
  }

  /** No process at `pid` is the incarnation born at `born`. */
  predicate Absent(os: Os, pid: nat, born: nat) {
    pid in os.procs ==> os.procs[pid].start != born
  }

  /** An incarnation that is gone never comes back. */
  lemma {:induction false} AbsentForGood(tr: nat -> Os, t: nat, u: nat, pid: nat, born: nat)
    requires Trace(tr) && t <= u && Absent(tr(t), pid, born) && born < tr(t).clock
    ensures Absent(tr(u), pid, born) && born < tr(u).clock
    decreases u
  {
    if t < u {
      AbsentForGood(tr, t, u - 1, pid, born);
      assert Ticks(tr, u - 1);
    }
  }

  /** One incarnation that runs in an old group now ran in it before. */
  lemma WasRunner(os: Os, os': Os, g: nat, pid: nat)
    requires Next(os, os') && RunnerOf(os', pid, g) && g in os.number
    requires pid in os.procs && os.procs[pid].start == os'.procs[pid].start
    ensures RunnerOf(os, pid, g)
  {
  }

  lemma {:induction false} ClockRuns(tr: nat -> Os, t: nat, u: nat)
    requires Trace(tr) && t <= u
    ensures tr(t).clock <= tr(u).clock
    decreases u
  {
    if t < u {
      ClockRuns(tr, t, u - 1);
      assert Ticks(tr, u - 1);
    }
  }

  /** A process that was forked before `t` and is there at `u` was there, the same one, all the time between. */
  lemma WasThere(tr: nat -> Os, t: nat, v: nat, u: nat, pid: nat)
    requires Trace(tr) && t <= v <= u && pid in tr(u).procs && tr(u).procs[pid].start < tr(t).clock
    ensures pid in tr(v).procs && tr(v).procs[pid].start == tr(u).procs[pid].start
  {
    ClockRuns(tr, t, v);
    if Absent(tr(v), pid, tr(u).procs[pid].start) {
      AbsentForGood(tr, v, u, pid, tr(u).procs[pid].start);
    }
  }

  /** If it runs in a group that is as old, it ran in it all that time. */
  lemma {:induction false} RanSince(tr: nat -> Os, t: nat, v: nat, u: nat, g: nat, number: nat, pid: nat)
    requires Trace(tr) && t <= v <= u && Known(tr(t), g, number)
    requires RunnerOf(tr(u), pid, g) && tr(u).procs[pid].start < tr(t).clock
    ensures RunnerOf(tr(v), pid, g)
    decreases u - v
  {
    if v < u {
      RanSince(tr, t, v + 1, u, g, number, pid);
      WasThere(tr, t, v, u, pid);
      WasThere(tr, t, v + 1, u, pid);
      Keeps(tr, t, v, g, number);
      assert Ticks(tr, v);
      WasRunner(tr(v), tr(v + 1), g, pid);
    }
  }
}
