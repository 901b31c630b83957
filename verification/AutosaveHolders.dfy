/** Which processes in the worktree are Git's. */
module AutosaveHolders {
  // Holders are found by their working directory, attributed by the marker in their environment or by their
  // parent, and tracked from then on.

  import opened Options

  type Tokens = map<nat, Option<nat>>

  /** What reading a process's environment gives; `marked` is `None` when it cannot be read. */
  datatype Found = Gone | Found(marked: Option<bool>, parent: Option<nat>)

  /** An unmarked holder that waits for its parent to be attributed. */
  datatype Pending = Pending(token: Option<nat>, parent: Option<nat>)

  /** Answer number `n` about a process. Each question is asked at a time of its own. */
  type Probe = (nat, nat) -> Found

  // ---- what was asked --------------------------------------------------------------------------

  datatype Asked = Asked(pid: nat, found: Found)

  /** The questions of one call, in order, with the answers they got. */
  ghost predicate Faithful(log: seq<Asked>, probe: Probe) {
    forall n :: 0 <= n < |log| ==> log[n].found == probe(n, log[n].pid)
  }

  function FirstAnswer(log: seq<Asked>, pid: nat): Option<Found> {
    if log == [] then None
    else
      var n := |log| - 1;
      var before := FirstAnswer(log[..n], pid);
      if before.Some? then before else if log[n].pid == pid then Some(log[n].found) else None
  }

  function LastAnswer(log: seq<Asked>, pid: nat): Option<Found> {
    if log == [] then None
    else
      var n := |log| - 1;
      if log[n].pid == pid then Some(log[n].found) else LastAnswer(log[..n], pid)
  }

  lemma AnswersAfter(log: seq<Asked>, q: Asked, pid: nat)
    ensures FirstAnswer(log + [q], pid) == if FirstAnswer(log, pid).Some? then FirstAnswer(log, pid) else if q.pid == pid then Some(q.found) else None
    ensures LastAnswer(log + [q], pid) == if q.pid == pid then Some(q.found) else LastAnswer(log, pid)
  {
    assert (log + [q])[..|log|] == log;
  }

  lemma {:induction false} FirstAnswerStays(log: seq<Asked>, more: seq<Asked>, pid: nat)
    requires log <= more && FirstAnswer(log, pid).Some?
    ensures FirstAnswer(more, pid) == FirstAnswer(log, pid)
    decreases |more|
  {
    if |log| < |more| {
      FirstAnswerStays(log, more[..|more| - 1], pid);
    } else {
      assert log == more;
    }
  }

  /** An environment that carries the marker, or that cannot be read. */
  predicate Suspect(found: Found) {
    found.Found? && found.marked != Some(false)
  }

  ghost predicate SuspectOnce(log: seq<Asked>, pid: nat) {
    exists n :: 0 <= n < |log| && log[n].pid == pid && Suspect(log[n].found)
  }

  /** Evidence that `parent` belongs to Git: it is Git or tracked, or an answer about it was suspect. */
  ghost predicate Owns(parent: Option<nat>, observed: Tokens, root: Option<nat>, log: seq<Asked>) {
    parent.Some? && parent.value > 1 && (parent == root || parent.value in observed || SuspectOnce(log, parent.value))
  }

  /** `parent` is neither, and the last answer about it was not suspect. */
  predicate Foreign(parent: Option<nat>, observed: Tokens, root: Option<nat>, log: seq<Asked>) {
    parent.None? || parent.value <= 1 ||
    (parent != root && parent.value !in observed && LastAnswer(log, parent.value).Some? && !Suspect(LastAnswer(log, parent.value).value))
  }

  method OwnsNow(parent: Option<nat>, observed: Tokens, root: Option<nat>, probe: Probe, log: seq<Asked>)
    returns (owned: bool, log': seq<Asked>)
    requires Faithful(log, probe)
    ensures Faithful(log', probe) && log <= log' && |log'| <= |log| + 1
    ensures if owned then Owns(parent, observed, root, log') else Foreign(parent, observed, root, log')
    // No parent, and the first process, are nobody's; Git and the tracked are known without a question.
    ensures parent.None? || parent.value <= 1 ==> !owned && log' == log
    ensures parent.Some? && parent.value > 1 && (parent == root || parent.value in observed) ==> owned && log' == log
    // About any other one question is asked, and an answer with the marker, or none that can be read, makes it Git's.
    ensures parent.Some? && parent.value > 1 && parent != root && parent.value !in observed ==>
              |log'| == |log| + 1 && (owned <==> log'[|log|].found.Found? && log'[|log|].found.marked != Some(false))
    ensures log' == log || (parent.Some? && log' == log + [Asked(parent.value, probe(|log|, parent.value))] && owned == Suspect(log'[|log|].found))
  {
    if parent.None? || parent.value <= 1 {
      return false, log;
    }
    if parent == root || parent.value in observed {
      return true, log;
    }
    var q := Asked(parent.value, probe(|log|, parent.value));
    AnswersAfter(log, q, parent.value);
    log' := log + [q];
    assert log'[|log|] == q;
    return Suspect(q.found), log';
  }

  // ---- the children ----------------------------------------------------------------------------

  /** A pending holder was taken: it is tracked, and its parent belongs to Git. */
  ghost predicate Taken(pid: nat, entry: Pending, observed: Tokens, root: Option<nat>, log: seq<Asked>) {
    pid in observed && observed[pid] == entry.token && Owns(entry.parent, observed, root, log)
  }

  /** Every pending holder is still in `left` or was taken, and nothing else is tracked that was not before. */
  ghost predicate Sorted(pending: map<nat, Pending>, left: map<nat, Pending>, before: Tokens, observed: Tokens,
                         root: Option<nat>, log: seq<Asked>)
  {
    && (forall pid :: pid in left ==> pid in pending && left[pid] == pending[pid])
    && (forall pid :: pid in pending && pid !in left ==> Taken(pid, pending[pid], observed, root, log))
    && (forall pid :: pid in before ==> pid in observed)
    && (forall pid :: pid in observed && (pid !in pending || pid in left) ==> pid in before && observed[pid] == before[pid])
  }

  /** Children of what is attributed are attributed, and their children in turn, until nothing changes. */
  method Attribute(pending: map<nat, Pending>, before: Tokens, root: Option<nat>, probe: Probe, asked: seq<Asked>)
    returns (observed: Tokens, left: map<nat, Pending>, log: seq<Asked>)
    requires Faithful(asked, probe)
    ensures Faithful(log, probe) && asked <= log && Sorted(pending, left, before, observed, root, log)
    ensures forall pid :: pid in left ==> Foreign(left[pid].parent, observed, root, log)
  {
    observed, left, log := before, pending, asked;
    var changed := true;
    while changed
      invariant Faithful(log, probe) && asked <= log && Sorted(pending, left, before, observed, root, log)
      invariant !changed ==> forall pid :: pid in left ==> Foreign(left[pid].parent, observed, root, log)
      decreases |left|, changed
    {
      changed := false;
      ghost var start := left;
      var todo := left.Keys;
      while todo != {}
        invariant Faithful(log, probe) && asked <= log && todo <= left.Keys && Sorted(pending, left, before, observed, root, log)
        invariant !changed ==> left == start && forall pid :: pid in left && pid !in todo ==> Foreign(left[pid].parent, observed, root, log)
        invariant changed ==> |left| < |start|
        invariant |left| <= |start|
        decreases todo
      {
        var pid :| pid in todo;
        todo := todo - {pid};
        var owned, next := OwnsNow(left[pid].parent, observed, root, probe, log);
        MoreIsKnown(pending, left, before, observed, root, log, next);
        if owned {
          TakeOne(pending, left, before, observed, root, next, pid);
          observed := observed[pid := left[pid].token];
          left := left - {pid};
          changed := true;
        } else {
          ForeignStays(left, observed, root, log, next);
        }
        log := next;
      }
    }
  }

  lemma MoreIsKnown(pending: map<nat, Pending>, left: map<nat, Pending>, before: Tokens, observed: Tokens,
                    root: Option<nat>, log: seq<Asked>, next: seq<Asked>)
    requires Sorted(pending, left, before, observed, root, log) && log <= next
    ensures Sorted(pending, left, before, observed, root, next)
  {
    forall pid | pid in pending && pid !in left
      ensures Taken(pid, pending[pid], observed, root, next)
    {
      assert Taken(pid, pending[pid], observed, root, log);
      var parent := pending[pid].parent;
      if SuspectOnce(log, parent.value) {
        var n :| 0 <= n < |log| && log[n].pid == parent.value && Suspect(log[n].found);
        assert next[n] == log[n];
      }
    }
  }

  /** One more answer that is not suspect takes nothing back. */
  lemma ForeignStays(left: map<nat, Pending>, observed: Tokens, root: Option<nat>, log: seq<Asked>, next: seq<Asked>)
    requires next == log || (|next| == |log| + 1 && log <= next && !Suspect(next[|log|].found))
    ensures forall pid :: pid in left && Foreign(left[pid].parent, observed, root, log) ==> Foreign(left[pid].parent, observed, root, next)
  {
    if next != log {
      assert next == log + [next[|log|]];
      forall pid | pid in left && left[pid].parent.Some?
        ensures LastAnswer(next, left[pid].parent.value)
             == if next[|log|].pid == left[pid].parent.value then Some(next[|log|].found) else LastAnswer(log, left[pid].parent.value)
      {
        AnswersAfter(log, next[|log|], left[pid].parent.value);
      }
    }
  }

  lemma LeftIsFewer(left: map<nat, Pending>, pid: nat)
    requires pid in left
    ensures |left - {pid}| < |left|
  {
    var rest := left - {pid};
    assert left.Keys == rest.Keys + {pid} && |left.Keys| == |left| && |rest.Keys| == |rest|;
  }

  lemma TakeOne(pending: map<nat, Pending>, left: map<nat, Pending>, before: Tokens, observed: Tokens,
                root: Option<nat>, log: seq<Asked>, pid: nat)
    requires Sorted(pending, left, before, observed, root, log) && pid in left
    requires Owns(left[pid].parent, observed, root, log)
    ensures Sorted(pending, left - {pid}, before, observed[pid := left[pid].token], root, log)
    ensures |left - {pid}| < |left|
  {
    var more, rest := observed[pid := left[pid].token], left - {pid};
    LeftIsFewer(left, pid);
    forall p | p in pending && p !in rest
      ensures Taken(p, pending[p], more, root, log)
    {
      assert p != pid ==> Taken(p, pending[p], observed, root, log);
    }
  }

  // ---- one look at the worktree ----------------------------------------------------------------

  predicate Tracked(pid: nat, token: Option<nat>, observed: Tokens) {
    pid in observed && (token.None? || observed[pid] == token)
  }

  predicate Familiar(pid: nat, token: Option<nat>, baseline: Tokens, unrelated: set<(nat, nat)>) {
    token.Some? && ((pid in baseline && baseline[pid] == token) || (pid, token.value) in unrelated)
  }

  /** A holder that is neither known nor tracked is asked about. */
  predicate IsNew(pid: nat, token: Option<nat>, baseline: Tokens, unrelated: set<(nat, nat)>, before: Tokens) {
    !Familiar(pid, token, baseline, unrelated) && !Tracked(pid, token, before)
  }

  /** A token says which incarnation it is, and one seen before is not asked about again; without one only the pid counts. */
  lemma NewUnlessSeen(pid: nat, token: Option<nat>, baseline: Tokens, unrelated: set<(nat, nat)>, before: Tokens)
    ensures IsNew(pid, token, baseline, unrelated, before) <==>
            match token
            case None => pid !in before
            case Some(t) =>
              && (pid in baseline ==> baseline[pid] != Some(t)) && (pid, t) !in unrelated
              && (pid in before ==> before[pid] != Some(t))
  {
  }

  predicate Unchanged(pid: nat, before: Tokens, observed: Tokens) {
    if pid in before then pid in observed && observed[pid] == before[pid] else pid !in observed
  }

  /** What its first answer makes of a new holder: gone, tracked, or waiting for its parent. */
  predicate Placed(pid: nat, token: Option<nat>, before: Tokens, observed: Tokens, pending: map<nat, Pending>, log: seq<Asked>) {
    match FirstAnswer(log, pid)
    case None => false
    case Some(Gone) => Unchanged(pid, before, observed) && pid !in pending
    case Some(Found(marked, parent)) =>
      if marked != Some(false) then pid in observed && observed[pid] == token && pid !in pending
      else Unchanged(pid, before, observed) && pid in pending && pending[pid] == Pending(token, parent)
  }

  /** Of the holders in `seen`, exactly the new ones were asked about, once each, and placed by their answer. */
  ghost predicate AllPlaced(current: Tokens, seen: set<nat>, baseline: Tokens, unrelated: set<(nat, nat)>, before: Tokens,
                            observed: Tokens, pending: map<nat, Pending>, log: seq<Asked>)
  {
    && (forall pid :: pid in seen && pid in current && IsNew(pid, current[pid], baseline, unrelated, before) ==>
          Placed(pid, current[pid], before, observed, pending, log))
    && (forall pid :: !(pid in seen && pid in current && IsNew(pid, current[pid], baseline, unrelated, before)) ==>
          Unchanged(pid, before, observed) && pid !in pending && FirstAnswer(log, pid).None?)
  }

  method Ask(current: Tokens, baseline: Tokens, before: Tokens, unrelated: set<(nat, nat)>, probe: Probe)
    returns (observed: Tokens, pending: map<nat, Pending>, log: seq<Asked>)
    ensures Faithful(log, probe)
    ensures AllPlaced(current, current.Keys, baseline, unrelated, before, observed, pending, log)
  {
    observed, pending, log := before, map[], [];
    var todo := current.Keys;
    while todo != {}
      invariant todo <= current.Keys && Faithful(log, probe)
      invariant AllPlaced(current, current.Keys - todo, baseline, unrelated, before, observed, pending, log)
    {
      var pid :| pid in todo;
      var token := current[pid];
      ghost var seen := current.Keys - todo;
      assert current.Keys - (todo - {pid}) == seen + {pid};
      todo := todo - {pid};
      if Familiar(pid, token, baseline, unrelated) || Tracked(pid, token, observed) {
        continue;
      }
      var found := probe(|log|, pid);
      OnePlaced(current, seen, baseline, unrelated, before, observed, pending, log, Asked(pid, found));
      log := log + [Asked(pid, found)];
      if found.Gone? {
        continue;
      }
      if Suspect(found) {
        observed := observed[pid := token];
      } else {
        pending := pending[pid := Pending(token, found.parent)];
      }
    }
    assert current.Keys - {} == current.Keys;
  }

  lemma OnePlaced(current: Tokens, seen: set<nat>, baseline: Tokens, unrelated: set<(nat, nat)>, before: Tokens,
                  observed: Tokens, pending: map<nat, Pending>, log: seq<Asked>, q: Asked)
    requires AllPlaced(current, seen, baseline, unrelated, before, observed, pending, log)
    requires q.pid in current && q.pid !in seen && IsNew(q.pid, current[q.pid], baseline, unrelated, before)
    ensures var token := current[q.pid];
            AllPlaced(current, seen + {q.pid}, baseline, unrelated, before,
                      if Suspect(q.found) then observed[q.pid := token] else observed,
                      if q.found.Found? && !Suspect(q.found) then pending[q.pid := Pending(token, q.found.parent)] else pending,
                      log + [q])
  {
    forall pid
      ensures FirstAnswer(log + [q], pid) == if FirstAnswer(log, pid).Some? then FirstAnswer(log, pid) else if q.pid == pid then Some(q.found) else None
    {
      AnswersAfter(log, q, pid);
    }
  }

  // ---- what becomes of a holder ----------------------------------------------------------------

  /** Unmarked by its first answer, and left alone, since its parent is not Git's. */
  predicate Rejected(pid: nat, before: Tokens, observed: Tokens, root: Option<nat>, log: seq<Asked>) {
    match FirstAnswer(log, pid)
    case Some(Found(Some(false), parent)) => Unchanged(pid, before, observed) && Foreign(parent, observed, root, log)
    case _ => false
  }

  ghost predicate Attributed(pid: nat, token: Option<nat>, observed: Tokens, root: Option<nat>, log: seq<Asked>) {
    pid in observed && observed[pid] == token &&
    match FirstAnswer(log, pid)
    case Some(Found(marked, parent)) => marked == Some(false) ==> Owns(parent, observed, root, log)
    case _ => false
  }

  /** By its first answer a new holder is gone, Git's and tracked, or unrelated. */
  ghost predicate Decided(pid: nat, token: Option<nat>, before: Tokens, observed: Tokens, root: Option<nat>, log: seq<Asked>) {
    || (FirstAnswer(log, pid) == Some(Gone) && Unchanged(pid, before, observed))
    || Attributed(pid, token, observed, root, log)
    || Rejected(pid, before, observed, root, log)
  }

  /** Every new holder is decided, nothing else changes, and just the rejected are remembered as unrelated. */
  ghost predicate Accounted(current: Tokens, baseline: Tokens, unrelated: set<(nat, nat)>, before: Tokens,
                            observed: Tokens, unrelated': set<(nat, nat)>, root: Option<nat>, log: seq<Asked>)
  {
    && (forall pid :: pid in current && IsNew(pid, current[pid], baseline, unrelated, before) ==>
          Decided(pid, current[pid], before, observed, root, log))
    && (forall pid :: !(pid in current && IsNew(pid, current[pid], baseline, unrelated, before)) ==> Unchanged(pid, before, observed))
    && (forall p :: p in unrelated' <==>
          p in unrelated || (p.0 in current && current[p.0] == Some(p.1) && IsNew(p.0, Some(p.1), baseline, unrelated, before) &&
                             Rejected(p.0, before, observed, root, log)))
  }

  function Remembered(unrelated: set<(nat, nat)>, left: map<nat, Pending>): set<(nat, nat)> {
    unrelated + set pid | pid in left && left[pid].token.Some? :: (pid, left[pid].token.value)
  }

  /** The first answers and the loop over the pending holders together decide every new holder. */
  lemma OneDecided(current: Tokens, baseline: Tokens, unrelated: set<(nat, nat)>, before: Tokens, middle: Tokens,
                   pending: map<nat, Pending>, asked: seq<Asked>, observed: Tokens, left: map<nat, Pending>,
                   root: Option<nat>, log: seq<Asked>, pid: nat)
    requires AllPlaced(current, current.Keys, baseline, unrelated, before, middle, pending, asked)
    requires Sorted(pending, left, middle, observed, root, log) && asked <= log
    requires forall p :: p in left ==> Foreign(left[p].parent, observed, root, log)
    requires pid in current && IsNew(pid, current[pid], baseline, unrelated, before)
    ensures Decided(pid, current[pid], before, observed, root, log)
    ensures pid in left <==> Rejected(pid, before, observed, root, log)
    ensures pid in left ==> left[pid].token == current[pid]
  {
    assert Placed(pid, current[pid], before, middle, pending, asked);
    FirstAnswerStays(asked, log, pid);
    if pid in pending && pid !in left {
      assert Taken(pid, pending[pid], observed, root, log);
    }
  }

  lemma AllDecided(current: Tokens, baseline: Tokens, unrelated: set<(nat, nat)>, before: Tokens, middle: Tokens,
                   pending: map<nat, Pending>, asked: seq<Asked>, observed: Tokens, left: map<nat, Pending>,
                   root: Option<nat>, log: seq<Asked>)
    requires AllPlaced(current, current.Keys, baseline, unrelated, before, middle, pending, asked)
    requires Sorted(pending, left, middle, observed, root, log) && asked <= log
    requires forall p :: p in left ==> Foreign(left[p].parent, observed, root, log)
    ensures Accounted(current, baseline, unrelated, before, observed, Remembered(unrelated, left), root, log)
  {
    forall pid | pid in current && IsNew(pid, current[pid], baseline, unrelated, before)
      ensures Decided(pid, current[pid], before, observed, root, log)
      ensures pid in left <==> Rejected(pid, before, observed, root, log)
      ensures pid in left ==> left[pid].token == current[pid]
    {
      OneDecided(current, baseline, unrelated, before, middle, pending, asked, observed, left, root, log, pid);
    }
  }

  // ---- the watch -------------------------------------------------------------------------------

  /** The tracked processes that live, and whether the worktree could not be inspected. */
  datatype Diagnostics = Diagnostics(processes: Tokens, inspectionFailed: bool)

  /** What one call does to the tracked: an entry gives way only to another incarnation that the snapshot shows. */
  ghost predicate StillTracked(before: Tokens, current: Option<Tokens>, after: Tokens) {
    forall pid :: pid in before ==> pid in after && (after[pid] == before[pid] || ShowsAnother(current, pid, before[pid]))
  }

  predicate ShowsAnother(current: Option<Tokens>, pid: nat, token: Option<nat>) {
    current.Some? && pid in current.value && current.value[pid].Some? && current.value[pid] != token
  }

  lemma NothingIsLost(current: Tokens, baseline: Tokens, unrelated: set<(nat, nat)>, before: Tokens,
                      observed: Tokens, unrelated': set<(nat, nat)>, root: Option<nat>, log: seq<Asked>)
    requires Accounted(current, baseline, unrelated, before, observed, unrelated', root, log)
    ensures StillTracked(before, Some(current), observed)
  {
    forall pid | pid in before
      ensures pid in observed && (observed[pid] == before[pid] || ShowsAnother(Some(current), pid, before[pid]))
    {
      if pid in current && IsNew(pid, current[pid], baseline, unrelated, before) {
        assert Decided(pid, current[pid], before, observed, root, log);
      } else {
        assert Unchanged(pid, before, observed);
      }
    }
  }

  /** The entries of `observed` that answer. */
  function Living(observed: Tokens, live: (nat, Option<nat>) -> bool): (r: Tokens)
    ensures r != map[] <==> exists pid :: pid in observed && live(pid, observed[pid])
  {
    var r := map pid | pid in observed && live(pid, observed[pid]) :: observed[pid];
    assert forall pid :: pid in r.Keys <==> pid in observed && live(pid, observed[pid]);
    assert r != map[] <==> r.Keys != {};
    r
  }

  class Watcher {
    const baseline: Tokens
    var observed: Tokens
    var unrelated: set<(nat, nat)>
    var diagnostics: Diagnostics

    constructor (baseline: Tokens)
      ensures this.baseline == baseline && observed == map[] && unrelated == {} && diagnostics == Diagnostics(map[], false)
    {
      this.baseline := baseline;
      observed, unrelated, diagnostics := map[], {}, Diagnostics(map[], false);
    }

    method Alive(current: Option<Tokens>, root: Option<nat>, probe: Probe, live: (nat, Option<nat>) -> bool)
      returns (alive: bool, ghost log: seq<Asked>)
      modifies this
      ensures current.None? ==> alive && observed == old(observed) && unrelated == old(unrelated)
      ensures current.None? ==> diagnostics == old(diagnostics).(inspectionFailed := true)
      ensures current.Some? ==> Faithful(log, probe)
      ensures current.Some? ==> Accounted(current.value, baseline, old(unrelated), old(observed), observed, unrelated, root, log)
      ensures current.Some? ==> (alive <==> exists pid :: pid in observed && live(pid, observed[pid]))
      ensures current.Some? ==> diagnostics == Diagnostics(Living(observed, live), false)
      ensures StillTracked(old(observed), current, observed)
    {
      log := [];
      match current {
        case None =>
          diagnostics := diagnostics.(inspectionFailed := true);
          alive := true;
        case Some(holders) =>
          ghost var before := observed;
          var middle, pending, asked := Ask(holders, baseline, observed, unrelated, probe);
          var after, left, answers := Attribute(pending, middle, root, probe, asked);
          AllDecided(holders, baseline, unrelated, before, middle, pending, asked, after, left, root, answers);
          NothingIsLost(holders, baseline, unrelated, before, after, Remembered(unrelated, left), root, answers);
          observed, unrelated, log := after, Remembered(unrelated, left), answers;
          diagnostics := Diagnostics(Living(observed, live), false);
          alive := diagnostics.processes != map[];
      }
    }
  }

  /** Over any sequence of calls, whatever it does meanwhile, a tracked process stays tracked. */
  lemma {:induction false} TrackedForGood(observed: seq<Tokens>, snapshots: seq<Option<Tokens>>, pid: nat)
    requires |observed| == |snapshots| + 1 && pid in observed[0]
    requires forall i :: 0 <= i < |snapshots| ==> StillTracked(observed[i], snapshots[i], observed[i + 1])
    requires forall i :: 0 <= i < |snapshots| ==> !ShowsAnother(snapshots[i], pid, observed[0][pid])
    ensures pid in observed[|snapshots|] && observed[|snapshots|][pid] == observed[0][pid]
  {
    if |snapshots| > 0 {
      var n := |snapshots| - 1;
      TrackedForGood(observed[..n + 1], snapshots[..n], pid);
      assert StillTracked(observed[n], snapshots[n], observed[n + 1]);
    }
  }
}
