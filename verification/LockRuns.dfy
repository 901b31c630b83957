/**
 * Runs of the lock's protocol, and how one keeper gets through a pass by its own steps: whatever point of
 * its scan it is at, it lists, reads, probes and, if it can, removes what is left, and either chooses its
 * ticket or finds that nothing blocks it.
 */
module LockRuns {
  import opened Options
  import opened WorktreeLock

  // ---- runs of chosen actions ------------------------------------------------------------------

  ghost predicate AllOk(actions: seq<Action>, ok: Action -> bool) {
    forall n :: 0 <= n < |actions| ==> ok(actions[n])
  }

  /** Some run of actions that are all `ok` leads from `s` to `s'`. */
  ghost predicate Leads(s: State, s': State, ok: Action -> bool) {
    exists actions :: AllOk(actions, ok) && Exec(s, actions) == Some(s')
  }

  lemma {:induction false} ExecJoins(s: State, first: seq<Action>, rest: seq<Action>)
    requires Exec(s, first).Some?
    ensures Exec(s, first + rest) == Exec(Exec(s, first).value, rest)
    decreases |first|
  {
    if first == [] {
      assert first + rest == rest;
    } else {
      assert (first + rest)[1..] == first[1..] + rest;
      ExecJoins(Step(s, first[0]), first[1..], rest);
    }
  }

  lemma LeadsNowhere(s: State, ok: Action -> bool)
    ensures Leads(s, s, ok)
  {
    assert AllOk([], ok) && Exec(s, []) == Some(s);
  }

  lemma LeadsByOne(s: State, a: Action, ok: Action -> bool)
    requires Enabled(s, a) && ok(a)
    ensures Leads(s, Step(s, a), ok)
  {
    assert [a][1..] == [];
    assert Exec(Step(s, a), []) == Some(Step(s, a));
    assert AllOk([a], ok) && Exec(s, [a]) == Some(Step(s, a));
  }

  lemma LeadsOn(s: State, s1: State, s2: State, ok: Action -> bool)
    requires Leads(s, s1, ok) && Leads(s1, s2, ok)
    ensures Leads(s, s2, ok)
  {
    var first :| AllOk(first, ok) && Exec(s, first) == Some(s1);
    var rest :| AllOk(rest, ok) && Exec(s1, rest) == Some(s2);
    ExecJoins(s, first, rest);
    assert AllOk(first + rest, ok);
  }

  lemma LeadsThen(s: State, s1: State, a: Action, ok: Action -> bool)
    requires Leads(s, s1, ok) && Enabled(s1, a) && ok(a)
    ensures Leads(s, Step(s1, a), ok)
  {
    LeadsByOne(s1, a, ok);
    LeadsOn(s, s1, Step(s1, a), ok);
  }

  lemma LeadsFarther(s: State, s1: State, s2: State, s3: State, ok: Action -> bool)
    requires Leads(s, s1, ok) && Leads(s1, s2, ok) && Leads(s2, s3, ok)
    ensures Leads(s, s3, ok)
  {
    LeadsOn(s, s1, s2, ok);
    LeadsOn(s, s2, s3, ok);
  }

  lemma LeadsReaches(s: State, s': State, ok: Action -> bool)
    requires Reachable(s) && Leads(s, s', ok)
    ensures Reachable(s')
  {
    var first :| Exec(EMPTY, first) == Some(s);
    var rest :| AllOk(rest, ok) && Exec(s, rest) == Some(s');
    ExecJoins(EMPTY, first, rest);
  }

  // ---- a pass by own steps ---------------------------------------------------------------------

  /** A step of a keeper's scan, or what follows it. */
  predicate ScanStep(a: Action) {
    a.BeginList? || a.EndList? || a.ReadFile? || a.Probe? || a.Unlink? || a.PublishTicket? || a.Admit?
  }

  /** Scan steps of keepers in `own`. */
  function StepsOf(own: set<Name>): Action -> bool {
    a => ScanStep(a) && a.k in own
  }

  /** The claim of `n` stops every pass of `k`: some group by its number answers, and it has priority. */
  predicate Blocks(s: State, n: Name, ticket: nat, k: Name) {
    && n in s.claims && n != k
    && GroupAnswers(s, s.claims[n].pid)
    && HasPriority(s.claims[n], ticket, n, k)
  }

  predicate NothingBlocks(s: State, ticket: nat, k: Name) {
    forall n :: n in s.claims ==> !Blocks(s, n, ticket, k)
  }

  function AtScanOf(s: State, k: Name, goal: Goal, scan: Scan): State
    requires k in s.keepers
  {
    WithPhase(s, k, Scanning(goal, scan))
  }

  /** What a phase is does not change what answers. */
  lemma AnswersStay(s: State, k: Name, phase: Phase, pid: nat)
    requires k in s.keepers
    ensures GroupAnswers(WithPhase(s, k, phase), pid) == GroupAnswers(s, pid)
  {
    var s' := WithPhase(s, k, phase);
    assert forall q :: q in s.keepers ==> s'.keepers[q].pid == s.keepers[q].pid && s'.keepers[q].reaped == s.keepers[q].reaped;
  }

  /** Goals a scan may come to hold: a waiting one stays, a choosing one only rises. */
  predicate Rises(goal: Goal, goal': Goal) {
    match goal
    case Wait(_) => goal' == goal
    case Choose(best) => goal'.Choose? && best <= goal'.best
  }

  predicate Passes(s: State, k: Name, goal: Goal, e: Name) {
    goal.Wait? ==> !Blocks(s, e, goal.ticket, k)
  }

  /** One entry is read and left behind, though no dead claim be removed. */
  lemma ReadsOne(s: State, k: Name, goal: Goal, todo: set<Name>, e: Name, ok: Action -> bool) returns (goal': Goal)
    requires Runs(s, k) && e in todo && e != k && Passes(s, k, goal, e)
    requires ok(ReadFile(k, e)) && ok(Probe(k)) && ok(Unlink(k, false))
    ensures Rises(goal, goal')
    ensures Leads(AtScanOf(s, k, goal, Reading(todo)), AtScanOf(s, k, goal', Reading(todo - {e})), ok)
  {
    var s0 := AtScanOf(s, k, goal, Reading(todo));
    var rest := todo - {e};
    LeadsByOne(s0, ReadFile(k, e), ok);
    var s1 := Step(s0, ReadFile(k, e));
    goal' := goal;
    if e !in s.claims {
      assert s1 == AtScanOf(s, k, goal, Reading(rest));
    } else {
      var claim := s.claims[e];
      assert s1 == AtScanOf(s, k, goal, Probing(rest, e, claim));
      goal' := ProbesOne(s, k, goal, rest, e, claim, ok);
      LeadsOn(s0, s1, AtScanOf(s, k, goal', Reading(rest)), ok);
    }
  }

  /** A claim that was read is probed; if its group answers it must not have priority. */
  lemma ProbesOne(s: State, k: Name, goal: Goal, todo: set<Name>, e: Name, claim: Claim, ok: Action -> bool) returns (goal': Goal)
    requires Runs(s, k) && ok(Probe(k)) && ok(Unlink(k, false))
    requires goal.Wait? && GroupAnswers(s, claim.pid) ==> !HasPriority(claim, goal.ticket, e, k)
    ensures Rises(goal, goal')
    ensures Leads(AtScanOf(s, k, goal, Probing(todo, e, claim)), AtScanOf(s, k, goal', Reading(todo)), ok)
  {
    var s0, s1 := AtScanOf(s, k, goal, Probing(todo, e, claim)), AtScanOf(s, k, goal, Removing(todo, e));
    AnswersStay(s, k, Scanning(goal, Probing(todo, e, claim)), claim.pid);
    LeadsByOne(s0, Probe(k), ok);
    goal' := goal;
    if GroupAnswers(s, claim.pid) {
      if goal.Choose? {
        goal' := Choose(if claim.ticket + 1 > goal.best then claim.ticket + 1 else goal.best);
      }
      assert Step(s0, Probe(k)) == AtScanOf(s, k, goal', Reading(todo));
    } else {
      assert Step(s0, Probe(k)) == s1;
      assert Step(s1, Unlink(k, false)) == AtScanOf(s, k, goal, Reading(todo));
      LeadsThen(s0, s1, Unlink(k, false), ok);
    }
  }

  lemma {:induction false} ReadsAll(s: State, k: Name, goal: Goal, todo: set<Name>, own: set<Name>) returns (goal': Goal)
    requires Runs(s, k) && k in own && k !in todo && forall e :: e in todo ==> Passes(s, k, goal, e)
    ensures Rises(goal, goal')
    ensures Leads(AtScanOf(s, k, goal, Reading(todo)), AtScanOf(s, k, goal', Reading({})), StepsOf(own))
    decreases |todo|
  {
    if todo == {} {
      goal' := goal;
      LeadsNowhere(AtScanOf(s, k, goal, Reading({})), StepsOf(own));
    } else {
      var e :| e in todo;
      var next := ReadsOne(s, k, goal, todo, e, StepsOf(own));
      goal' := ReadsAll(s, k, next, todo - {e}, own);
      LeadsOn(AtScanOf(s, k, goal, Reading(todo)), AtScanOf(s, k, next, Reading(todo - {e})), AtScanOf(s, k, goal', Reading({})), StepsOf(own));
    }
  }

  /** A whole pass that nothing stops. */
  lemma PassesThrough(s: State, k: Name, goal: Goal, own: set<Name>) returns (goal': Goal)
    requires Runs(s, k) && k in own && forall e :: e in s.claims ==> Passes(s, k, goal, e)
    ensures Rises(goal, goal')
    ensures Leads(AtScanOf(s, k, goal, Opening), AtScanOf(s, k, goal', Reading({})), StepsOf(own))
  {
    var s0, s1 := AtScanOf(s, k, goal, Opening), AtScanOf(s, k, goal, Listing(s.claims.Keys));
    assert Step(s0, BeginList(k)) == s1;
    LeadsByOne(s0, BeginList(k), StepsOf(own));
    goal' := ListsAndReads(s, k, goal, s.claims.Keys, own);
    LeadsOn(s0, s1, AtScanOf(s, k, goal', Reading({})), StepsOf(own));
  }

  lemma ListsAndReads(s: State, k: Name, goal: Goal, before: set<Name>, own: set<Name>) returns (goal': Goal)
    requires Runs(s, k) && k in own && forall e :: e in s.claims ==> Passes(s, k, goal, e)
    ensures Rises(goal, goal')
    ensures Leads(AtScanOf(s, k, goal, Listing(before)), AtScanOf(s, k, goal', Reading({})), StepsOf(own))
  {
    var s0, s1 := AtScanOf(s, k, goal, Listing(before)), AtScanOf(s, k, goal, Reading(s.claims.Keys - {k}));
    assert Step(s0, EndList(k, s.claims.Keys)) == s1;
    LeadsByOne(s0, EndList(k, s.claims.Keys), StepsOf(own));
    goal' := ReadsAll(s, k, goal, s.claims.Keys - {k}, own);
    LeadsOn(s0, s1, AtScanOf(s, k, goal', Reading({})), StepsOf(own));
  }

  /** A scan never reads its own claim. */
  predicate SkipsItself(scan: Scan, k: Name) {
    match scan
    case Reading(todo) => k !in todo
    case Probing(todo, entry, _) => k !in todo && entry != k
    case Removing(todo, entry) => k !in todo && entry != k
    case _ => true
  }

  /** From anywhere in a choosing scan, its end. */
  lemma FinishesChoosing(s: State, k: Name, best: nat, scan: Scan, own: set<Name>) returns (best': nat)
    requires Runs(s, k) && k in own && SkipsItself(scan, k)
    ensures best <= best'
    ensures Leads(AtScanOf(s, k, Choose(best), scan), AtScanOf(s, k, Choose(best'), Reading({})), StepsOf(own))
  {
    var goal, goal' := Choose(best), Choose(best);
    var s0 := AtScanOf(s, k, goal, scan);
    match scan {
    case Opening =>
      goal' := PassesThrough(s, k, goal, own);
    case Listing(before) =>
      goal' := ListsAndReads(s, k, goal, before, own);
    case Reading(todo) =>
      goal' := ReadsAll(s, k, goal, todo, own);
    case Probing(todo, entry, claim) =>
      var next := ProbesOne(s, k, goal, todo, entry, claim, StepsOf(own));
      goal' := ReadsAll(s, k, next, todo, own);
      LeadsOn(s0, AtScanOf(s, k, next, Reading(todo)), AtScanOf(s, k, goal', Reading({})), StepsOf(own));
    case Removing(todo, entry) =>
      assert Step(s0, Unlink(k, false)) == AtScanOf(s, k, goal, Reading(todo));
      LeadsByOne(s0, Unlink(k, false), StepsOf(own));
      goal' := ReadsAll(s, k, goal, todo, own);
      LeadsOn(s0, AtScanOf(s, k, goal, Reading(todo)), AtScanOf(s, k, goal', Reading({})), StepsOf(own));
    }
    best' := goal'.best;
  }

  /** From anywhere in a waiting scan that nothing blocks, admission. */
  lemma FinishesWaiting(s: State, k: Name, ticket: nat, scan: Scan, own: set<Name>)
    requires Runs(s, k) && k in own && SkipsItself(scan, k) && NothingBlocks(s, ticket, k)
    ensures Leads(AtScanOf(s, k, Wait(ticket), scan), WithPhase(s, k, Ready(ticket)), StepsOf(own))
  {
    var goal := Wait(ticket);
    var s0, s1 := AtScanOf(s, k, goal, scan), AtScanOf(s, k, goal, Reading({}));
    WaitsToTheEnd(s, k, ticket, scan, own);
    assert Step(s1, Admit(k)) == WithPhase(s, k, Ready(ticket));
    LeadsThen(s0, s1, Admit(k), StepsOf(own));
  }

  lemma WaitsToTheEnd(s: State, k: Name, ticket: nat, scan: Scan, own: set<Name>)
    requires Runs(s, k) && k in own && SkipsItself(scan, k) && NothingBlocks(s, ticket, k)
    ensures Leads(AtScanOf(s, k, Wait(ticket), scan), AtScanOf(s, k, Wait(ticket), Reading({})), StepsOf(own))
  {
    var goal := Wait(ticket);
    var s0, last := AtScanOf(s, k, goal, scan), AtScanOf(s, k, goal, Reading({}));
    match scan
    case Opening =>
      var same := PassesThrough(s, k, goal, own);
    case Listing(before) =>
      var same := ListsAndReads(s, k, goal, before, own);
    case Reading(todo) =>
      var same := ReadsAll(s, k, goal, todo, own);
    case Probing(todo, entry, claim) =>
      if GroupAnswers(s, claim.pid) && HasPriority(claim, ticket, entry, k) {
        AnswersStay(s, k, Scanning(goal, scan), claim.pid);
        assert Step(s0, Probe(k)) == AtScanOf(s, k, goal, Opening);
        LeadsByOne(s0, Probe(k), StepsOf(own));
        var same := PassesThrough(s, k, goal, own);
        LeadsOn(s0, AtScanOf(s, k, goal, Opening), last, StepsOf(own));
      } else {
        var next := ProbesOne(s, k, goal, todo, entry, claim, StepsOf(own));
        var same := ReadsAll(s, k, goal, todo, own);
        LeadsOn(s0, AtScanOf(s, k, goal, Reading(todo)), last, StepsOf(own));
      }
    case Removing(todo, entry) =>
      assert Step(s0, Unlink(k, false)) == AtScanOf(s, k, goal, Reading(todo));
      LeadsByOne(s0, Unlink(k, false), StepsOf(own));
      var same := ReadsAll(s, k, goal, todo, own);
      LeadsOn(s0, AtScanOf(s, k, goal, Reading(todo)), last, StepsOf(own));
  }

  // ---- a keeper's own way ----------------------------------------------------------------------

  lemma LeadsWeaker(s: State, s': State, ok: Action -> bool, more: Action -> bool)
    requires Leads(s, s', ok) && forall a :: ok(a) ==> more(a)
    ensures Leads(s, s', more)
  {
    var actions :| AllOk(actions, ok) && Exec(s, actions) == Some(s');
    assert AllOk(actions, more);
  }

  /** A state in which `k` has published `ticket` and is about to wait. */
  function Queued(s: State, k: Name, ticket: nat): State
    requires k in s.keepers
  {
    AtScanOf(WithClaim(s, k, ticket, false), k, Wait(ticket), Opening)
  }

  /** From the end of a choosing scan, its ticket. */
  lemma PublishesTicket(s: State, k: Name, best: nat, ok: Action -> bool)
    requires Runs(s, k) && ok(PublishTicket(k))
    ensures Leads(AtScanOf(s, k, Choose(best), Reading({})), Queued(s, k, best), ok)
  {
    var s0 := AtScanOf(s, k, Choose(best), Reading({}));
    assert Step(s0, PublishTicket(k)) == Queued(s, k, best);
    LeadsByOne(s0, PublishTicket(k), ok);
  }

  lemma PublishesChoosing(s: State, k: Name, ok: Action -> bool)
    requires Runs(s, k) && s.keepers[k].phase.Start? && ok(PublishChoosing(k))
    ensures Leads(s, AtScanOf(WithClaim(s, k, 0, false), k, Choose(1), Opening), ok)
  {
    assert Step(s, PublishChoosing(k)) == AtScanOf(WithClaim(s, k, 0, false), k, Choose(1), Opening);
    LeadsByOne(s, PublishChoosing(k), ok);
  }

  lemma Chooses(s: State, k: Name, ok: Action -> bool) returns (best: nat)
    requires Runs(s, k) && forall a :: Actor(a) == Some(k) ==> a.SpawnGit? || ok(a)
    ensures best >= 1 && Leads(AtScanOf(s, k, Choose(1), Opening), AtScanOf(s, k, Choose(best), Reading({})), ok)
  {
    best := FinishesChoosing(s, k, 1, Opening, {k});
    LeadsWeaker(AtScanOf(s, k, Choose(1), Opening), AtScanOf(s, k, Choose(best), Reading({})), StepsOf({k}), ok);
  }

  /** A keeper that has just started gets a ticket by its own steps. */
  lemma GetsATicket(s: State, k: Name, ok: Action -> bool) returns (ticket: nat)
    requires Runs(s, k) && s.keepers[k].phase.Start? && forall a :: Actor(a) == Some(k) ==> a.SpawnGit? || ok(a)
    ensures ticket >= 1 && Leads(s, Queued(s, k, ticket), ok)
  {
    var s1 := WithClaim(s, k, 0, false);
    PublishesChoosing(s, k, ok);
    ticket := Chooses(s1, k, ok);
    PublishesTicket(s1, k, ticket, ok);
    assert Queued(s1, k, ticket).claims == Queued(s, k, ticket).claims;
    LeadsFarther(s, AtScanOf(s1, k, Choose(1), Opening), AtScanOf(s1, k, Choose(ticket), Reading({})), Queued(s, k, ticket), ok);
  }
}
