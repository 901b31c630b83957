/** What a stop can miss: a leader that forks and exits while its group is scanned. */
module StopMisses {
  import opened Options
  import opened ProcessTable
  import opened ProcessGroups

  function Alone(pid: nat, g: nat): Os {
    Os(map[pid := Proc(g, true, 0, false)], map[g := pid], 1)
  }

  function Forked(pid: nat, child: nat, g: nat): Os {
    Os(map[pid := Proc(g, true, 0, false), child := Proc(g, true, 1, false)], map[g := pid], 2)
  }

  function Orphaned(pid: nat, child: nat, g: nat): Os {
    Os(map[pid := Proc(g, false, 0, false), child := Proc(g, true, 1, false)], map[g := pid], 2)
  }

  /** The leader is alone when `/proc` is listed, with call 2, and by the next call it has forked and is a zombie. */
  function ForkWhileListed(pid: nat, child: nat, g: nat): Env {
    Env(t => if t == 0 then Alone(pid, g) else if t == 1 then Forked(pid, child, g) else Orphaned(pid, child, g),
        n => if n <= 2 then 0 else 2, n => if n == 2 then [pid] else [pid, child], {}, n => false)
  }

  lemma ForkIsPossible(pid: nat, child: nat, g: nat)
    requires pid != child
    ensures Next(Alone(pid, g), Forked(pid, child, g)) && Next(Forked(pid, child, g), Orphaned(pid, child, g))
    ensures Next(Orphaned(pid, child, g), Orphaned(pid, child, g))
  {
    assert Possible(Alone(pid, g), Fork(pid, child)) && After(Alone(pid, g), Fork(pid, child)) == Forked(pid, child, g);
    assert After(Forked(pid, child, g), Exit(pid)) == Orphaned(pid, child, g);
    assert After(Orphaned(pid, child, g), Idle) == Orphaned(pid, child, g);
  }

  lemma ForkIsObserved(pid: nat, child: nat, g: nat)
    requires pid != child
    ensures Observes(ForkWhileListed(pid, child, g))
  {
    var env := ForkWhileListed(pid, child, g);
    ForkIsPossible(pid, child, g);
    forall t: nat
      ensures Ticks(env.tr, t)
    {
    }
    forall i: nat, p: nat | PresentAll(env, p, env.at(i), env.at(i + 1))
      ensures p in env.listing(i)
    {
      assert p in env.tr(env.at(i)).procs;
    }
  }

  lemma WhatIsSeen(pid: nat, child: nat, g: nat)
    requires pid != child
    ensures var env := ForkWhileListed(pid, child, g);
            && Now(env, 0) == Now(env, 1) == Alone(pid, g) && Now(env, 4) == Orphaned(pid, child, g)
            && Answers(Now(env, 0), pid) && !ScanFinds(env, pid, 2) && |env.listing(2)| == 1
  {
    var env := ForkWhileListed(pid, child, g);
    assert env.at(0) == 0 && env.at(1) == 0 && env.at(3) == 2 && env.at(4) == 2 && env.listing(2) == [pid];
    assert Numbered(Alone(pid, g), Alone(pid, g).procs[pid], pid);
    assert Now(env, 3) == Orphaned(pid, child, g);
  }

  /** A leader without a recorded start is reported stopped while its child runs. */
  method StopMissesAFork(pid: nat, child: nat, g: nat, grace: nat, wait: nat) returns (env: Env, stopped: bool, j: nat)
    requires pid != child
    ensures Observes(env) && Led(Now(env, 0), Leader(pid, g, 0, Unrecorded))
    ensures stopped && RunnerOf(Now(env, j), child, g)
  {
    env := ForkWhileListed(pid, child, g);
    ForkIsObserved(pid, child, g);
    WhatIsSeen(pid, child, g);
    var doubted, termed, killed;
    ghost var begun;
    stopped, doubted, termed, killed, j, begun := StopGroup(env, Leader(pid, g, 0, Unrecorded), grace, wait, 0);
  }
}
