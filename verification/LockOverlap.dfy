/** How far the lock keeps Git processes apart. */
module LockOverlap {
  // Exactly until a keeper whose Git left a process behind takes its command for done.

  import opened Options
  import opened WorktreeLock
  import opened LockRuns
  import opened LockNumbers
  import opened LockProgress

  /** Every action but the start of a Git process of `k`. */
  function NoNewGit(k: Name): Action -> bool {
    a => a != SpawnGit(k)
  }

  // ---- clearing the field ----------------------------------------------------------------------

  function Gone(keeper: Keeper): Keeper {
    keeper.(running := false, gitMember := false, reaped := true)
  }

  /** A keeper and its group come to their end. */
  lemma OneEnds(s: State, q: Name, k: Name)
    requires q in s.keepers && q != k && (s.keepers[q].reaped ==> s.keepers[q] == Gone(s.keepers[q]))
    ensures Leads(s, s.(keepers := s.keepers[q := Gone(s.keepers[q])]), NoNewGit(k))
  {
    var p := s.keepers[q];
    var s1 := s.(keepers := s.keepers[q := p.(running := false)]);
    var s3 := s.(keepers := s.keepers[q := Gone(p)]);
    LeadsNowhere(s, NoNewGit(k));
    if p.running {
      assert Step(s, KeeperDies(q)) == s1;
      LeadsByOne(s, KeeperDies(q), NoNewGit(k));
    } else {
      assert s1.keepers == s.keepers;
    }
    OneEndsOn(s, s1, q, k, p);
    assert s1.keepers[q := Gone(p)] == s3.keepers;
  }

  lemma OneEndsOn(s: State, s1: State, q: Name, k: Name, p: Keeper)
    requires Leads(s, s1, NoNewGit(k)) && q in s1.keepers && q != k && s1.keepers[q] == p.(running := false)
    requires p.reaped ==> p == Gone(p)
    ensures Leads(s, s1.(keepers := s1.keepers[q := Gone(p)]), NoNewGit(k))
  {
    var s2 := s1.(keepers := s1.keepers[q := p.(running := false, gitMember := false)]);
    if p.gitMember {
      assert Step(s1, GitExits(q)) == s2;
      LeadsThen(s, s1, GitExits(q), NoNewGit(k));
    } else {
      assert s2.keepers == s1.keepers;
    }
    var s3 := s1.(keepers := s1.keepers[q := Gone(p)]);
    if p.reaped {
      assert s3.keepers == s2.keepers;
    } else {
      assert Step(s2, Reap(q)).keepers == s3.keepers;
      LeadsThen(s, s2, Reap(q), NoNewGit(k));
    }
  }

  ghost predicate EndsFit(s: State) {
    forall q :: q in s.keepers && s.keepers[q].reaped ==> s.keepers[q] == Gone(s.keepers[q])
  }

  function OthersLeft(s: State, k: Name): set<Name> {
    set q | q in s.keepers && q != k && !s.keepers[q].reaped
  }

  /** Every keeper but `k` is gone, and nothing else has changed. */
  ghost predicate Emptied(s: State, s': State, k: Name) {
    && s'.claims == s.claims && s'.keepers.Keys == s.keepers.Keys
    && (forall q :: q in s'.keepers ==> s'.keepers[q] == if q == k then s.keepers[q] else Gone(s.keepers[q]))
  }

  lemma {:induction false} KeepersEnd(s: State, k: Name) returns (s': State)
    requires EndsFit(s)
    ensures Leads(s, s', NoNewGit(k)) && Emptied(s, s', k) && s'.others == s.others
    decreases |OthersLeft(s, k)|
  {
    if OthersLeft(s, k) == {} {
      LeadsNowhere(s, NoNewGit(k));
      assert forall q :: q in s.keepers && q != k ==> q !in OthersLeft(s, k);
      s' := s;
    } else {
      var q :| q in OthersLeft(s, k);
      OneEnds(s, q, k);
      var s1 := s.(keepers := s.keepers[q := Gone(s.keepers[q])]);
      assert OthersLeft(s1, k) == OthersLeft(s, k) - {q};
      s' := KeepersEnd(s1, k);
      LeadsOn(s, s1, s', NoNewGit(k));
    }
  }

  lemma {:induction false} OtherGroupsEnd(s: State, k: Name)
    ensures Leads(s, s.(others := {}), NoNewGit(k))
    decreases |s.others|
  {
    if s.others == {} {
      LeadsNowhere(s, NoNewGit(k));
    } else {
      var pid :| pid in s.others;
      var s1 := Step(s, OtherGroupEnds(pid));
      LeadsByOne(s, OtherGroupEnds(pid), NoNewGit(k));
      OtherGroupsEnd(s1, k);
      LeadsOn(s, s1, s.(others := {}), NoNewGit(k));
    }
  }

  /** Then only the group of `k` answers. */
  lemma FieldIsCleared(s: State, k: Name) returns (s': State)
    requires EndsFit(s) && k in s.keepers && !s.keepers[k].reaped
    ensures Leads(s, s', NoNewGit(k)) && Emptied(s, s', k)
    ensures forall pid :: GroupAnswers(s', pid) <==> pid == s.keepers[k].pid
  {
    var s1 := KeepersEnd(s, k);
    OtherGroupsEnd(s1, k);
    s' := s1.(others := {});
    LeadsOn(s, s1, s', NoNewGit(k));
  }

  // ---- a newcomer ------------------------------------------------------------------------------

  /** `j` runs Git in its turn. */
  predicate RunsGit(s: State, j: Name) {
    Runs(s, j) && s.keepers[j].phase.Busy? && s.keepers[j].gitMember
  }

  ghost predicate Unanswered(s: State, pid: nat) {
    !GroupAnswers(s, pid) && forall n :: n in s.claims ==> s.claims[n].pid != pid && !GroupAnswers(s, s.claims[n].pid)
  }

  /** Where no claim answers, a new keeper is admitted and runs Git. */
  lemma NewcomerRunsGit(s: State, k: Name, j: Name, pid: nat) returns (s': State)
    requires j !in s.keepers && j != k && Unanswered(s, pid)
    ensures Leads(s, s', NoNewGit(k)) && RunsGit(s', j)
    ensures forall q :: q in s.keepers ==> q in s'.keepers && s'.keepers[q] == s.keepers[q]
  {
    var s1 := Step(s, Spawn(j, pid));
    LeadsByOne(s, Spawn(j, pid), NoNewGit(k));
    var ticket := GetsATicket(s1, j, NoNewGit(k));
    var s2, s3 := Queued(s1, j, ticket), WithPhase(Queued(s1, j, ticket), j, Ready(ticket));
    NothingBlocksNewcomer(s, j, pid, ticket);
    ComesIn(s2, j, k, ticket);
    LeadsFarther(s, s1, s2, s3, NoNewGit(k));
    s' := Begins(s, s3, j, k);
  }

  lemma ComesIn(s: State, j: Name, k: Name, ticket: nat)
    requires Runs(s, j) && j != k && s.keepers[j].phase == Scanning(Wait(ticket), Opening) && NothingBlocks(s, ticket, j)
    ensures Leads(s, WithPhase(s, j, Ready(ticket)), NoNewGit(k))
  {
    assert s.keepers == AtScanOf(s, j, Wait(ticket), Opening).keepers;
    FinishesWaiting(s, j, ticket, Opening, {j});
    LeadsWeaker(s, WithPhase(s, j, Ready(ticket)), StepsOf({j}), NoNewGit(k));
  }

  lemma Begins(s: State, s3: State, j: Name, k: Name) returns (s': State)
    requires Leads(s, s3, NoNewGit(k)) && j != k && Runs(s3, j) && s3.keepers[j].phase.Ready?
    ensures Leads(s, s', NoNewGit(k)) && RunsGit(s', j)
    ensures forall q :: q in s3.keepers && q != j ==> q in s'.keepers && s'.keepers[q] == s3.keepers[q]
  {
    var s4 := Step(s3, PublishBusy(j));
    LeadsThen(s, s3, PublishBusy(j), NoNewGit(k));
    s' := Step(s4, SpawnGit(j));
    LeadsThen(s, s4, SpawnGit(j), NoNewGit(k));
  }

  lemma NothingBlocksNewcomer(s: State, j: Name, pid: nat, ticket: nat)
    requires j !in s.keepers && Unanswered(s, pid)
    ensures NothingBlocks(Queued(Step(s, Spawn(j, pid)), j, ticket), ticket, j)
  {
    var s1 := Step(s, Spawn(j, pid));
    var s2 := Queued(s1, j, ticket);
    forall n | n in s2.claims
      ensures !Blocks(s2, n, ticket, j)
    {
      if n != j {
        AnswersStay(WithClaim(s1, j, ticket, false), j, Scanning(Wait(ticket), Opening), s2.claims[n].pid);
        assert !GroupAnswers(s, s.claims[n].pid) && s.claims[n].pid != pid;
      }
    }
  }

  // ---- fresh names -----------------------------------------------------------------------------

  lemma {:induction false} FreshNumber(taken: set<nat>) returns (pid: nat)
    ensures forall n :: n in taken ==> n < pid
    decreases |taken|
  {
    if taken == {} {
      pid := 0;
    } else {
      var n :| n in taken;
      var above := FreshNumber(taken - {n});
      pid := if above > n then above else n + 1;
      assert taken == (taken - {n}) + {n};
    }
  }

  lemma FreshName(taken: set<Name>) returns (name: Name)
    ensures name !in taken
  {
    var lengths := set n | n in taken :: |n|;
    var long := FreshNumber(lengths);
    name := seq(long, i => 'x');
    assert name in taken ==> |name| in lengths;
  }

  // ---- the boundary ----------------------------------------------------------------------------

  /** Git processes of two keepers run together. */
  predicate RunBeside(s: State, k: Name, j: Name) {
    k != j && k in s.keepers && j in s.keepers && s.keepers[k].gitMember && s.keepers[j].gitMember
  }

  /** The ways a keeper takes its command for done. */
  predicate EndsCommand(a: Action, k: Name) {
    a == PublishIdle(k) || a == CommandFails(k)
  }

  lemma {:induction false} NoGitStays(s: State, actions: seq<Action>, k: Name)
    requires k in s.keepers && !s.keepers[k].gitMember && AllOk(actions, NoNewGit(k)) && Exec(s, actions).Some?
    ensures k in Exec(s, actions).value.keepers && !Exec(s, actions).value.keepers[k].gitMember
    decreases |actions|
  {
    if actions != [] {
      assert NoNewGit(k)(actions[0]);
      NoGitStays(Step(s, actions[0]), actions[1..], k);
    }
  }

  /** An admitted keeper that stops withdraws its claim; nothing else of it changes. */
  lemma Leaves(s: State, k: Name) returns (s': State)
    requires Runs(s, k) && s.keepers[k].phase.Ready?
    ensures Leads(s, s', NoNewGit(k)) && s'.claims == s.claims - {k}
    ensures s'.keepers == s.keepers[k := s.keepers[k].(phase := Left)]
  {
    var s1 := Step(s, GiveUp(k));
    LeadsByOne(s, GiveUp(k), NoNewGit(k));
    s' := Step(s1, Withdraw(k, true));
    assert s'.keepers == s.keepers[k := s.keepers[k].(phase := Left)];
    LeadsThen(s, s1, Withdraw(k, true), NoNewGit(k));
  }

  /** After its command a keeper can stop and withdraw at once, whatever its Git left behind. */
  lemma CanWithdraw(s: State, k: Name, a: Action) returns (s': State)
    requires Runs(s, k) && s.keepers[k].phase.Busy? && EndsCommand(a, k)
    ensures Leads(Step(s, a), s', NoNewGit(k)) && k in s'.keepers && s'.claims == s.claims - {k}
    ensures s'.keepers.Keys == s.keepers.Keys && forall q :: q in s.keepers && q != k ==> s'.keepers[q] == s.keepers[q]
    ensures s'.keepers[k].gitMember == s.keepers[k].gitMember && s'.keepers[k].reaped == s.keepers[k].reaped && s'.keepers[k].pid == s.keepers[k].pid
  {
    s' := Leaves(Step(s, a), k);
  }

  /** With a process of its Git left behind, another keeper's Git can come to run beside it. */
  lemma LeftBehindOverlaps(s: State, k: Name, a: Action) returns (s': State, j: Name)
    requires Reachable(s) && Runs(s, k) && s.keepers[k].phase.Busy? && s.keepers[k].gitMember && EndsCommand(a, k)
    ensures Leads(Step(s, a), s', NoNewGit(k)) && RunBeside(s', k, j)
  {
    ReachableNumbers(s);
    assert forall q :: q in s.keepers ==> KeeperFits(s.keepers[q]);
    var s1 := CanWithdraw(s, k, a);
    var s2 := FieldIsCleared(s1, k);
    LeadsOn(Step(s, a), s1, s2, NoNewGit(k));
    var numbers := set n | n in s2.claims :: s2.claims[n].pid;
    var pid := FreshNumber(numbers + {s.keepers[k].pid});
    j := FreshName(s2.keepers.Keys + {k});
    forall n | n in s2.claims
      ensures s2.claims[n].pid != pid && s2.claims[n].pid != s.keepers[k].pid
    {
      assert s2.claims[n].pid in numbers;
      NoTwinOfAdmitted(s, k, n);
    }
    s' := NewcomerRunsGit(s2, k, j, pid);
    LeadsOn(Step(s, a), s2, s', NoNewGit(k));
  }

  /**
   * When a keeper takes its command for done, another keeper's Git can come to run beside a process of that
   * command exactly if such a process is still there.
   */
  lemma OverlapIffLeftBehind(s: State, k: Name, a: Action)
    requires Reachable(s) && Runs(s, k) && s.keepers[k].phase.Busy? && EndsCommand(a, k)
    ensures s.keepers[k].gitMember <==> exists s', j :: Leads(Step(s, a), s', NoNewGit(k)) && RunBeside(s', k, j)
  {
    if s.keepers[k].gitMember {
      var s', j := LeftBehindOverlaps(s, k, a);
    } else {
      forall s', j | Leads(Step(s, a), s', NoNewGit(k))
        ensures !RunBeside(s', k, j)
      {
        var actions :| AllOk(actions, NoNewGit(k)) && Exec(Step(s, a), actions) == Some(s');
        NoGitStays(Step(s, a), actions, k);
      }
    }
  }

  /** And it does happen: two keepers, started from nothing, whose Git processes run together. */
  lemma TwoGitsRunTogether(k: Name, pid: nat) returns (s: State, j: Name)
    ensures Reachable(s) && RunBeside(s, k, j)
  {
    var other := FreshName({k});
    assert Exec(EMPTY, []) == Some(EMPTY);
    var busy := NewcomerRunsGit(EMPTY, other, k, pid);
    LeadsReaches(EMPTY, busy, NoNewGit(other));
    s, j := LeftBehindOverlaps(busy, k, PublishIdle(k));
    LeadsByOne(busy, PublishIdle(k), NoNewGit(k));
    LeadsOn(busy, Step(busy, PublishIdle(k)), s, NoNewGit(k));
    LeadsReaches(busy, s, NoNewGit(k));
  }
}
