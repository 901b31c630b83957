/** Process numbers that come again: a dead keeper's claim that carries the number of a live one. */
module LockNumbers {
  // Its group answers for as long as the live keeper is there, so nobody recovers it.

  import opened Options
  import opened WorktreeLock
  import opened LockRuns

  /** `n` left a claim under the number that `k` has now. */
  predicate Twin(s: State, k: Name, n: Name) {
    k in s.keepers && !s.keepers[k].reaped && n != k && n in s.claims && s.claims[n].pid == s.keepers[k].pid
  }

  /** Live groups have numbers of their own. */
  ghost predicate NumbersDiffer(s: State) {
    forall k, j :: k in s.keepers && j in s.keepers && k != j && !s.keepers[k].reaped && !s.keepers[j].reaped ==>
      s.keepers[k].pid != s.keepers[j].pid
  }

  /** What the scan has still to read, or has read, of the twin's claim. */
  predicate StillAhead(scan: Scan, n: Name, t: nat) {
    match scan
    case Opening => true
    case Listing(before) => n in before
    case Reading(todo) => n in todo
    case Probing(todo, entry, claim) => n in todo || (entry == n && claim.ticket == t)
    case Removing(todo, entry) => n in todo
  }

  /** Whatever phase a keeper is in, its twin's claim, with ticket `t`, is ahead of it. */
  predicate Faces(p: Phase, n: Name, t: nat) {
    match p
    case Scanning(Choose(best), scan) => WillChooseAbove(best, scan, t, n)
    case Scanning(Wait(ticket), scan) => t < ticket && StillAhead(scan, n, t)
    case Ready(_) => false
    case Busy(_) => false
    case _ => true
  }

  ghost predicate TwinsFaced(s: State) {
    forall k, n :: Twin(s, k, n) ==> Faces(s.keepers[k].phase, n, s.claims[n].ticket)
  }

  ghost predicate ScansSkip(s: State) {
    forall k :: k in s.keepers && s.keepers[k].phase.Scanning? ==> SkipsItself(s.keepers[k].phase.scan, k)
  }

  ghost predicate NumbersInv(s: State) {
    Inv(s) && NumbersDiffer(s) && TwinsFaced(s) && ScansSkip(s)
  }

  lemma NumbersDifferKept(s: State, a: Action)
    requires NumbersInv(s) && Enabled(s, a)
    ensures NumbersDiffer(Step(s, a))
  {
    var s' := Step(s, a);
    forall k, j | k in s'.keepers && j in s'.keepers && k != j && !s'.keepers[k].reaped && !s'.keepers[j].reaped
      ensures s'.keepers[k].pid != s'.keepers[j].pid
    {
      if k in s.keepers {
        KeepersEvolve(s, a, k);
      }
      if j in s.keepers {
        KeepersEvolve(s, a, j);
      }
    }
  }

  lemma ScansSkipKept(s: State, a: Action)
    requires ScansSkip(s) && Enabled(s, a)
    ensures ScansSkip(Step(s, a))
  {
    var s' := Step(s, a);
    forall k | k in s'.keepers && s'.keepers[k].phase.Scanning?
      ensures SkipsItself(s'.keepers[k].phase.scan, k)
    {
      if Actor(a) != Some(k) {
        OthersUnchanged(s, a, k);
      }
    }
  }

  /** A twin was there before, with the same claim: a claim is written by its own keeper, and a twin's is gone. */
  lemma TwinIsOld(s: State, a: Action, k: Name, n: Name)
    requires NumbersInv(s) && Enabled(s, a) && Twin(Step(s, a), k, n) && k in s.keepers
    ensures Twin(s, k, n) && Step(s, a).claims[n] == s.claims[n] && Actor(a) != Some(n)
  {
    var s' := Step(s, a);
    KeepersEvolve(s, a, k);
    ClaimsBelongKept(s, a);
    assert n in s'.keepers && ClaimFits(s'.keepers[n], s'.claims[n]);
    NumbersDifferKept(s, a);
    assert s'.keepers[n].reaped;
    if Actor(a) == Some(n) {
      TwinDoesNotAct(s, a, n);
    } else {
      OthersUnchanged(s, a, n);
    }
  }

  /** Only the end of a group leaves it reaped, and that writes no claim. */
  lemma TwinDoesNotAct(s: State, a: Action, n: Name)
    requires Enabled(s, a) && Actor(a) == Some(n) && n in Step(s, a).keepers && Step(s, a).keepers[n].reaped
    requires n in s.keepers ==> KeeperFits(s.keepers[n])
    ensures a == Reap(n)
  {
  }

  /** Its own steps keep the twin's claim ahead: it is listed, read, and answers when it is probed. */
  lemma OwnStepFaces(s: State, a: Action, k: Name, n: Name)
    requires NumbersInv(s) && Enabled(s, a) && Actor(a) == Some(k) && Twin(s, k, n) && Twin(Step(s, a), k, n)
    requires Step(s, a).claims[n] == s.claims[n]
    ensures Faces(Step(s, a).keepers[k].phase, n, s.claims[n].ticket)
  {
    var p, t := s.keepers[k].phase, s.claims[n].ticket;
    assert Faces(p, n, t);
    if a.Probe? {
      assert ScanFits(s, k, p.scan);
      assert ClaimFits(s.keepers[n], s.claims[n]);
      ProbeFaces(s, k, n);
    }
  }

  lemma ProbeFaces(s: State, k: Name, n: Name)
    requires Enabled(s, Probe(k)) && Twin(s, k, n) && Faces(s.keepers[k].phase, n, s.claims[n].ticket)
    requires ScanFits(s, k, s.keepers[k].phase.scan) && n in s.keepers && s.keepers[n].pid == s.keepers[k].pid
    ensures Faces(Step(s, Probe(k)).keepers[k].phase, n, s.claims[n].ticket)
  {
    var scan := s.keepers[k].phase.scan;
    if scan.entry == n {
      assert scan.claim.pid == s.keepers[k].pid && GroupAnswers(s, scan.claim.pid);
    }
  }

  lemma TwinsFacedKept(s: State, a: Action)
    requires NumbersInv(s) && Enabled(s, a)
    ensures TwinsFaced(Step(s, a))
  {
    var s' := Step(s, a);
    forall k, n | Twin(s', k, n)
      ensures Faces(s'.keepers[k].phase, n, s'.claims[n].ticket)
    {
      if k in s.keepers {
        TwinIsOld(s, a, k, n);
        if Actor(a) == Some(k) {
          OwnStepFaces(s, a, k, n);
        } else {
          OthersUnchanged(s, a, k);
          assert Faces(s.keepers[k].phase, n, s.claims[n].ticket);
        }
      }
    }
  }

  lemma {:induction false} RunKeepsNumbers(s: State, actions: seq<Action>)
    requires NumbersInv(s) && Exec(s, actions).Some?
    ensures NumbersInv(Exec(s, actions).value)
    decreases |actions|
  {
    if actions != [] {
      var a := actions[0];
      StepKeepsInv(s, a);
      NumbersDifferKept(s, a);
      ScansSkipKept(s, a);
      TwinsFacedKept(s, a);
      RunKeepsNumbers(Step(s, a), actions[1..]);
    }
  }

  lemma ReachableNumbers(s: State)
    requires Reachable(s)
    ensures NumbersInv(s)
  {
    var actions :| Exec(EMPTY, actions) == Some(s);
    RunKeepsNumbers(EMPTY, actions);
  }

  // ---- what it comes to ------------------------------------------------------------------------

  /** A stale claim under a waiting keeper's own number blocks it, whatever ticket the claim has. */
  lemma StaleTwinBlocks(s: State, k: Name, n: Name)
    requires Reachable(s) && Twin(s, k, n)
    requires s.keepers[k].phase.Scanning? && s.keepers[k].phase.goal.Wait?
    ensures Blocks(s, n, s.keepers[k].phase.goal.ticket, k)
  {
    ReachableNumbers(s);
  }

  /** So no keeper is ever admitted beside such a claim. */
  lemma NoTwinOfAdmitted(s: State, k: Name, n: Name)
    requires Reachable(s) && Admitted(s, k)
    ensures !Twin(s, k, n)
  {
    ReachableNumbers(s);
  }

  /** `n` dies while it chooses, and the kernel gives its number to `k`. */
  function Reborn(n: Name, k: Name, pid: nat): State {
    State(map[n := Claim(pid, 0, false)],
          map[n := Keeper(pid, Scanning(Choose(1), Opening), false, false, true, false), k := Keeper(pid, Start, true, false, false, false)], {})
  }

  function OnlyKeeper(n: Name, keeper: Keeper, claims: map<Name, Claim>): State {
    State(claims, map[n := keeper], {})
  }

  lemma Chose(n: Name, pid: nat, any: Action -> bool)
    requires forall a :: any(a)
    ensures Leads(EMPTY, OnlyKeeper(n, Keeper(pid, Scanning(Choose(1), Opening), true, false, false, false), map[n := Claim(pid, 0, false)]), any)
  {
    var s1 := OnlyKeeper(n, Keeper(pid, Start, true, false, false, false), map[]);
    assert Step(EMPTY, Spawn(n, pid)) == s1;
    LeadsByOne(EMPTY, Spawn(n, pid), any);
    var s2 := OnlyKeeper(n, Keeper(pid, Scanning(Choose(1), Opening), true, false, false, false), map[n := Claim(pid, 0, false)]);
    assert Step(s1, PublishChoosing(n)).keepers == s2.keepers && Step(s1, PublishChoosing(n)).claims == s2.claims;
    LeadsThen(EMPTY, s1, PublishChoosing(n), any);
  }

  lemma Died(n: Name, pid: nat, claims: map<Name, Claim>, phase: Phase, any: Action -> bool)
    requires forall a :: any(a)
    ensures Leads(OnlyKeeper(n, Keeper(pid, phase, true, false, false, false), claims),
                  OnlyKeeper(n, Keeper(pid, phase, false, false, true, false), claims), any)
  {
    var s2 := OnlyKeeper(n, Keeper(pid, phase, true, false, false, false), claims);
    var s3 := OnlyKeeper(n, Keeper(pid, phase, false, false, false, false), claims);
    var s4 := OnlyKeeper(n, Keeper(pid, phase, false, false, true, false), claims);
    assert Step(s2, KeeperDies(n)).keepers == s3.keepers;
    LeadsByOne(s2, KeeperDies(n), any);
    assert Step(s3, Reap(n)).keepers == s4.keepers;
    LeadsThen(s2, s3, Reap(n), any);
  }

  lemma NumberComesAgain(n: Name, k: Name, pid: nat, any: Action -> bool)
    requires n != k && forall a :: any(a)
    ensures Leads(EMPTY, Reborn(n, k, pid), any)
  {
    var phase, claims := Scanning(Choose(1), Opening), map[n := Claim(pid, 0, false)];
    var s2 := OnlyKeeper(n, Keeper(pid, phase, true, false, false, false), claims);
    var s4 := OnlyKeeper(n, Keeper(pid, phase, false, false, true, false), claims);
    Chose(n, pid, any);
    Died(n, pid, claims, phase, any);
    LeadsOn(EMPTY, s2, s4, any);
    assert Step(s4, Spawn(k, pid)) == Reborn(n, k, pid);
    LeadsThen(EMPTY, s4, Spawn(k, pid), any);
  }

  /** Such a state can be reached: a waiting keeper whose own number stands in a stale claim of a dead one. */
  lemma TwinIsReachable(n: Name, k: Name, pid: nat) returns (s: State)
    requires n != k
    ensures Reachable(s) && Twin(s, k, n) && n in s.keepers && s.keepers[n].reaped
    ensures Runs(s, k) && s.keepers[k].phase.Scanning? && s.keepers[k].phase.goal.Wait?
    ensures Blocks(s, n, s.keepers[k].phase.goal.ticket, k)
  {
    var any: Action -> bool := a => true;
    NumberComesAgain(n, k, pid, any);
    var ticket := GetsATicket(Reborn(n, k, pid), k, any);
    s := Queued(Reborn(n, k, pid), k, ticket);
    LeadsOn(EMPTY, Reborn(n, k, pid), s, any);
    assert Exec(EMPTY, []) == Some(EMPTY);
    LeadsReaches(EMPTY, s, any);
    StaleTwinBlocks(s, k, n);
  }
}
