/** What a waiting keeper needs to be admitted, and that keepers never all wait for each other. */
module LockProgress {
  import opened NameOrder
  import opened Options
  import opened WorktreeLock
  import opened LockRuns
  import opened LockNumbers

  // ---- one keeper ------------------------------------------------------------------------------

  predicate Waits(s: State, k: Name, ticket: nat) {
    Runs(s, k) && !s.keepers[k].reaped && s.keepers[k].phase == Scanning(Wait(ticket), Opening)
  }

  /** A blocking claim that is still ahead of the pass of `k`. */
  predicate Ahead(s: State, n: Name, ticket: nat, k: Name) {
    && Runs(s, k) && Blocks(s, n, ticket, k)
    && s.keepers[k].phase.Scanning? && s.keepers[k].phase.goal == Wait(ticket)
    && match s.keepers[k].phase.scan {
         case Opening => true
         case Listing(before) => n in before
         case Reading(todo) => n in todo
         case Probing(todo, entry, claim) => if entry == n then claim == s.claims[n] else n in todo
         case Removing(todo, entry) => n in todo
       }
    && (s.keepers[k].phase.scan.Removing? ==> s.keepers[k].phase.scan.entry != n)
  }

  lemma OwnStepsKeepAnswers(s: State, a: Action, k: Name, pid: nat)
    requires Enabled(s, a) && StepsOf({k})(a)
    ensures GroupAnswers(Step(s, a), pid) == GroupAnswers(s, pid)
  {
    var s' := Step(s, a);
    assert s'.keepers.Keys == s.keepers.Keys;
    assert forall q :: q in s.keepers ==> s'.keepers[q].pid == s.keepers[q].pid && s'.keepers[q].reaped == s.keepers[q].reaped;
  }

  lemma AheadKept(s: State, a: Action, n: Name, ticket: nat, k: Name)
    requires Enabled(s, a) && StepsOf({k})(a) && Ahead(s, n, ticket, k)
    ensures Ahead(Step(s, a), n, ticket, k)
  {
    OwnStepsKeepAnswers(s, a, k, s.claims[n].pid);
  }

  lemma {:induction false} AheadStays(s: State, actions: seq<Action>, n: Name, ticket: nat, k: Name)
    requires AllOk(actions, StepsOf({k})) && Ahead(s, n, ticket, k) && Exec(s, actions).Some?
    ensures Ahead(Exec(s, actions).value, n, ticket, k)
    decreases |actions|
  {
    if actions != [] {
      AheadKept(s, actions[0], n, ticket, k);
      AheadStays(Step(s, actions[0]), actions[1..], n, ticket, k);
    }
  }

  /** A waiting keeper can be admitted by its own steps alone exactly when no claim blocks it. */
  lemma AdmittedAloneIffNothingBlocks(s: State, ticket: nat, k: Name)
    requires Waits(s, k, ticket)
    ensures NothingBlocks(s, ticket, k) <==> exists s' :: Leads(s, s', StepsOf({k})) && Admitted(s', k)
  {
    if NothingBlocks(s, ticket, k) {
      assert s == AtScanOf(s, k, Wait(ticket), Opening);
      FinishesWaiting(s, k, ticket, Opening, {k});
    } else {
      var n :| n in s.claims && Blocks(s, n, ticket, k);
      forall s' | Leads(s, s', StepsOf({k}))
        ensures !Admitted(s', k)
      {
        var actions :| AllOk(actions, StepsOf({k})) && Exec(s, actions) == Some(s');
        AheadStays(s, actions, n, ticket, k);
      }
    }
  }

  /** With nobody choosing, the least (ticket, name) among the claims that answer is not blocked. */
  lemma LeastIsNotBlocked(s: State, ticket: nat, k: Name)
    requires forall n :: n in s.claims && n != k && GroupAnswers(s, s.claims[n].pid) ==>
               s.claims[n].ticket > 0 && Before(ticket, k, s.claims[n].ticket, n)
    ensures NothingBlocks(s, ticket, k)
  {
    forall n | n in s.claims
      ensures !Blocks(s, n, ticket, k)
    {
      LessIsAsymmetric(n, k);
    }
  }

  lemma BeforeIsTotal(t: nat, k: Name, u: nat, j: Name)
    ensures k != j ==> Before(t, k, u, j) || Before(u, j, t, k)
  {
    LessIsTotal(k, j);
  }

  lemma BeforeIsTransitive(t: nat, k: Name, u: nat, j: Name, v: nat, n: Name)
    requires Before(t, k, u, j) && Before(u, j, v, n)
    ensures Before(t, k, v, n)
  {
    if Less(k, j) && Less(j, n) {
      LessIsTransitive(k, j, n);
    }
  }

  lemma {:induction false} LeastOf(s: State, live: set<Name>) returns (k: Name)
    requires live != {} && live <= s.claims.Keys
    ensures k in live
    ensures forall n :: n in live && n != k ==> Before(s.claims[k].ticket, k, s.claims[n].ticket, n)
    decreases |live|
  {
    var first :| first in live;
    var rest := live - {first};
    assert live == rest + {first};
    if rest == {} {
      return first;
    }
    var j := LeastOf(s, rest);
    if Before(s.claims[j].ticket, j, s.claims[first].ticket, first) {
      k := j;
    } else {
      k := first;
      BeforeIsTotal(s.claims[first].ticket, first, s.claims[j].ticket, j);
      forall n | n in rest && n != j
        ensures Before(s.claims[k].ticket, k, s.claims[n].ticket, n)
      {
        BeforeIsTransitive(s.claims[k].ticket, k, s.claims[j].ticket, j, s.claims[n].ticket, n);
      }
    }
  }

  // ---- all of them -----------------------------------------------------------------------------

  /** A running keeper that chooses or waits, wherever its scan is. */
  predicate Willing(s: State, n: Name) {
    Runs(s, n) && s.keepers[n].phase.Scanning?
  }

  function WillingOnes(s: State): set<Name> {
    set n | n in s.keepers && Willing(s, n)
  }

  predicate Live(s: State, n: Name) {
    n in s.claims && GroupAnswers(s, s.claims[n].pid)
  }

  /** Every claim that answers is of a keeper that chooses or waits. */
  ghost predicate AllWilling(s: State) {
    forall n :: Live(s, n) ==> Willing(s, n)
  }

  function ChoosingOnes(s: State): set<Name> {
    set n | n in s.keepers && Willing(s, n) && s.keepers[n].phase.goal.Choose?
  }

  /** One that chooses gets its ticket, and nothing else changes. */
  lemma OneChooses(s: State, k: Name, own: set<Name>) returns (s': State)
    requires Reachable(s) && AllWilling(s) && k in ChoosingOnes(s) && k in own
    ensures Reachable(s') && Leads(s, s', StepsOf(own)) && AllWilling(s')
    ensures WillingOnes(s') == WillingOnes(s) && ChoosingOnes(s') == ChoosingOnes(s) - {k}
    ensures forall n :: Live(s, n) ==> Live(s', n)
  {
    ReachableNumbers(s);
    var p := s.keepers[k].phase;
    assert s == AtScanOf(s, k, p.goal, p.scan);
    var ticket := FinishesChoosing(s, k, p.goal.best, p.scan, own);
    PublishesTicket(s, k, ticket, StepsOf(own));
    s' := Queued(s, k, ticket);
    LeadsOn(s, AtScanOf(s, k, Choose(ticket), Reading({})), s', StepsOf(own));
    LeadsReaches(s, s', StepsOf(own));
    QueuedChangesLittle(s, k, ticket);
  }

  lemma QueuedChangesLittle(s: State, k: Name, ticket: nat)
    requires AllWilling(s) && k in ChoosingOnes(s) && k in s.claims && s.claims[k].pid == s.keepers[k].pid
    ensures var s' := Queued(s, k, ticket);
            && AllWilling(s') && WillingOnes(s') == WillingOnes(s) && ChoosingOnes(s') == ChoosingOnes(s) - {k}
            && (forall n :: Live(s, n) ==> Live(s', n))
  {
    var s' := Queued(s, k, ticket);
    forall pid
      ensures GroupAnswers(s', pid) == GroupAnswers(s, pid)
    {
      AnswersStay(WithClaim(s, k, ticket, false), k, Scanning(Wait(ticket), Opening), pid);
    }
    assert forall n :: n in s.claims ==> n in s'.claims && s'.claims[n].pid == s.claims[n].pid;
    assert forall n :: n in s'.claims ==> n in s.claims;
    assert forall n :: Willing(s', n) <==> Willing(s, n);
  }

  lemma {:induction false} AllChoose(s: State, own: set<Name>) returns (s': State)
    requires Reachable(s) && AllWilling(s) && WillingOnes(s) <= own
    ensures Reachable(s') && Leads(s, s', StepsOf(own)) && AllWilling(s')
    ensures WillingOnes(s') == WillingOnes(s) && ChoosingOnes(s') == {}
    ensures forall n :: Live(s, n) ==> Live(s', n)
    decreases |ChoosingOnes(s)|
  {
    if ChoosingOnes(s) == {} {
      LeadsNowhere(s, StepsOf(own));
      s' := s;
    } else {
      var k :| k in ChoosingOnes(s);
      var s1 := OneChooses(s, k, own);
      s' := AllChoose(s1, own);
      LeadsOn(s, s1, s', StepsOf(own));
    }
  }

  /** When nobody chooses, the least of those that wait gets through. */
  lemma LeastIsAdmitted(s: State, own: set<Name>, one: Name) returns (s': State, k: Name)
    requires Reachable(s) && AllWilling(s) && WillingOnes(s) <= own && ChoosingOnes(s) == {} && Live(s, one)
    ensures Leads(s, s', StepsOf(own)) && Admitted(s', k)
  {
    ReachableNumbers(s);
    var live := set n | n in s.claims && Live(s, n);
    assert one in live;
    k := LeastOf(s, live);
    assert Willing(s, k) && k in WillingOnes(s) && k !in ChoosingOnes(s);
    var p := s.keepers[k].phase;
    assert ClaimFits(s.keepers[k], s.claims[k]) && p.goal.ticket == s.claims[k].ticket;
    forall n | n in s.claims && n != k && GroupAnswers(s, s.claims[n].pid)
      ensures s.claims[n].ticket > 0 && Before(p.goal.ticket, k, s.claims[n].ticket, n)
    {
      assert n in live && Live(s, n) && Willing(s, n) && n !in ChoosingOnes(s);
      assert ClaimFits(s.keepers[n], s.claims[n]) && KeeperFits(s.keepers[n]);
    }
    LeastIsNotBlocked(s, p.goal.ticket, k);
    assert s == AtScanOf(s, k, p.goal, p.scan);
    FinishesWaiting(s, k, p.goal.ticket, p.scan, own);
    s' := WithPhase(s, k, Ready(p.goal.ticket));
    assert KeeperFits(s.keepers[k]);
  }

  /**
   * Keepers that choose or wait, wherever their scans are, never all stand in each other's way: their own
   * steps can bring one of them in, though no dead claim be removed.
   */
  lemma NoDeadlock(s: State, one: Name) returns (s': State, k: Name)
    requires Reachable(s) && AllWilling(s) && Live(s, one)
    ensures Leads(s, s', StepsOf(WillingOnes(s))) && Admitted(s', k)
  {
    var s1 := AllChoose(s, WillingOnes(s));
    s', k := LeastIsAdmitted(s1, WillingOnes(s), one);
    LeadsOn(s, s1, s', StepsOf(WillingOnes(s)));
  }
}
