/** The worktree mutation lock. */
module WorktreeLock {
  // A bakery lock over one claim file per keeper process.
  //
  // A state holds the claim directory, every keeper that was ever started, and the process groups of unrelated
  // programs. An action is one stretch of a keeper between two awaits, one file system or process event. A
  // keeper's scan of the directory is spread over many actions, so every other keeper may publish, withdraw,
  // crash or be recovered in between.

  import opened NameOrder
  import opened Options

  type Name = string

  datatype Claim = Claim(pid: nat, ticket: nat, gitRunning: bool)

  /** What a directory scan is for: choosing a ticket above the best one seen, or waiting with one. */
  datatype Goal = Choose(best: nat) | Wait(ticket: nat)

  /** How far a scan is. `before` holds the names present when `readdir` began. */
  datatype Scan =
    | Opening
    | Listing(before: set<Name>)
    | Reading(todo: set<Name>)
    | Probing(todo: set<Name>, entry: Name, claim: Claim)
    | Removing(todo: set<Name>, entry: Name)

  datatype Phase =
    | Start
    | Scanning(goal: Goal, scan: Scan)
    | Ready(ticket: nat)
    | Busy(ticket: nat)
    | Leaving
    | Left

  /** `gitMember`: some Git process of the group runs. `reaped`: no member of the group is left,
      zombies included. `lingered`: a Git process of this keeper outlived its command. */
  datatype Keeper = Keeper(pid: nat, phase: Phase, running: bool, gitMember: bool, reaped: bool, lingered: bool)

  datatype State = State(claims: map<Name, Claim>, keepers: map<Name, Keeper>, others: set<nat>)

  datatype Action =
    | Spawn(k: Name, pid: nat)
    | PublishChoosing(k: Name)
    | BeginList(k: Name)
    | EndList(k: Name, listed: set<Name>)
    | ReadFile(k: Name, entry: Name)
    | Probe(k: Name)
    | Unlink(k: Name, ok: bool)
    | PublishTicket(k: Name)
    | Admit(k: Name)
    | PublishBusy(k: Name)
    | SpawnGit(k: Name)
    | PublishIdle(k: Name)
    | CommandFails(k: Name)
    | GiveUp(k: Name)
    | Withdraw(k: Name, ok: bool)
    | KeeperDies(k: Name)
    | GitExits(k: Name)
    | Reap(k: Name)
    | OtherGroupStarts(pid: nat)
    | OtherGroupEnds(pid: nat)

  /** The kernel's answer to `kill(-pid, 0)`: some process group by that number has a member. */
  predicate GroupAnswers(s: State, pid: nat) {
    pid in s.others || exists k :: k in s.keepers && s.keepers[k].pid == pid && !s.keepers[k].reaped
  }

  predicate HasPriority(claim: Claim, ticket: nat, entry: Name, name: Name) {
    claim.ticket == 0 || claim.ticket < ticket || (claim.ticket == ticket && Less(entry, name))
  }

  function WithPhase(s: State, k: Name, phase: Phase): State
    requires k in s.keepers
  {
    s.(keepers := s.keepers[k := s.keepers[k].(phase := phase)])
  }

  function WithClaim(s: State, k: Name, ticket: nat, gitRunning: bool): State
    requires k in s.keepers
  {
    s.(claims := s.claims[k := Claim(s.keepers[k].pid, ticket, gitRunning)])
  }

  /** A keeper acts on its own only while its process runs. */
  predicate Runs(s: State, k: Name) {
    k in s.keepers && s.keepers[k].running
  }

  predicate AtScan(s: State, k: Name) {
    Runs(s, k) && s.keepers[k].phase.Scanning?
  }

  /** A listing holds every file present from its beginning to its end, and perhaps others. */
  predicate ListingMayBe(s: State, before: set<Name>, listed: set<Name>) {
    before * s.claims.Keys <= listed
  }

  predicate Enabled(s: State, a: Action) {
    match a
    case Spawn(k, pid) => k !in s.keepers && !GroupAnswers(s, pid)
    case PublishChoosing(k) => Runs(s, k) && s.keepers[k].phase.Start?
    case BeginList(k) => AtScan(s, k) && s.keepers[k].phase.scan.Opening?
    case EndList(k, listed) =>
      AtScan(s, k) && s.keepers[k].phase.scan.Listing? && ListingMayBe(s, s.keepers[k].phase.scan.before, listed)
    case ReadFile(k, entry) =>
      AtScan(s, k) && s.keepers[k].phase.scan.Reading? && entry in s.keepers[k].phase.scan.todo
    case Probe(k) => AtScan(s, k) && s.keepers[k].phase.scan.Probing?
    case Unlink(k, ok) => AtScan(s, k) && s.keepers[k].phase.scan.Removing?
    case PublishTicket(k) =>
      AtScan(s, k) && s.keepers[k].phase.goal.Choose? && s.keepers[k].phase.scan == Reading({})
    case Admit(k) => AtScan(s, k) && s.keepers[k].phase.goal.Wait? && s.keepers[k].phase.scan == Reading({})
    case PublishBusy(k) => Runs(s, k) && s.keepers[k].phase.Ready?
    case SpawnGit(k) => Runs(s, k) && s.keepers[k].phase.Busy?
    case PublishIdle(k) => Runs(s, k) && s.keepers[k].phase.Busy?
    case CommandFails(k) => Runs(s, k) && s.keepers[k].phase.Busy?
    case GiveUp(k) =>
      Runs(s, k) && !s.keepers[k].phase.Busy? && !s.keepers[k].phase.Leaving? && !s.keepers[k].phase.Left?
    case Withdraw(k, ok) => Runs(s, k) && s.keepers[k].phase.Leaving?
    case KeeperDies(k) => Runs(s, k)
    case GitExits(k) => k in s.keepers && s.keepers[k].gitMember
    case Reap(k) => k in s.keepers && !s.keepers[k].running && !s.keepers[k].gitMember && !s.keepers[k].reaped
    case OtherGroupStarts(pid) => !GroupAnswers(s, pid)
    case OtherGroupEnds(pid) => pid in s.others
  }

  /** What the scan of `k` makes of a claim it read whose group answers. */
  function Consider(goal: Goal, todo: set<Name>, entry: Name, claim: Claim, k: Name): Phase {
    match goal
    case Choose(best) =>
      Scanning(Choose(if claim.ticket + 1 > best then claim.ticket + 1 else best), Reading(todo))
    case Wait(ticket) =>
      if HasPriority(claim, ticket, entry, k) then Scanning(goal, Opening) else Scanning(goal, Reading(todo))
  }

  function Step(s: State, a: Action): State
    requires Enabled(s, a)
  {
    match a
    case Spawn(k, pid) => s.(keepers := s.keepers[k := Keeper(pid, Start, true, false, false, false)])
    case PublishChoosing(k) => WithPhase(WithClaim(s, k, 0, false), k, Scanning(Choose(1), Opening))
    case BeginList(k) => WithPhase(s, k, Scanning(s.keepers[k].phase.goal, Listing(s.claims.Keys)))
    case EndList(k, listed) => WithPhase(s, k, Scanning(s.keepers[k].phase.goal, Reading(listed - {k})))
    case ReadFile(k, entry) =>
      var p := s.keepers[k].phase;
      WithPhase(s, k, Scanning(p.goal,
        if entry in s.claims then Probing(p.scan.todo - {entry}, entry, s.claims[entry])
        else Reading(p.scan.todo - {entry})))
    case Probe(k) =>
      var p := s.keepers[k].phase;
      WithPhase(s, k,
        if GroupAnswers(s, p.scan.claim.pid) then Consider(p.goal, p.scan.todo, p.scan.entry, p.scan.claim, k)
        else Scanning(p.goal, Removing(p.scan.todo, p.scan.entry)))
    case Unlink(k, ok) =>
      var p := s.keepers[k].phase;
      var s' := if ok then s.(claims := s.claims - {p.scan.entry}) else s;
      WithPhase(s', k, Scanning(p.goal, Reading(p.scan.todo)))
    case PublishTicket(k) =>
      var best := s.keepers[k].phase.goal.best;
      WithPhase(WithClaim(s, k, best, false), k, Scanning(Wait(best), Opening))
    case Admit(k) => WithPhase(s, k, Ready(s.keepers[k].phase.goal.ticket))
    case PublishBusy(k) =>
      var t := s.keepers[k].phase.ticket;
      WithPhase(WithClaim(s, k, t, true), k, Busy(t))
    case SpawnGit(k) => s.(keepers := s.keepers[k := s.keepers[k].(gitMember := true)])
    case PublishIdle(k) =>
      var t := s.keepers[k].phase.ticket;
      NoteLingering(WithPhase(WithClaim(s, k, t, false), k, Ready(t)), k)
    // The claim may still say that Git runs. Commands that wait in the chain go on, until the keeper gives up.
    case CommandFails(k) => NoteLingering(WithPhase(s, k, Ready(s.keepers[k].phase.ticket)), k)
    case GiveUp(k) => WithPhase(s, k, Leaving)
    case Withdraw(k, ok) => WithPhase(if ok then s.(claims := s.claims - {k}) else s, k, Left)
    case KeeperDies(k) => s.(keepers := s.keepers[k := s.keepers[k].(running := false)])
    case GitExits(k) => s.(keepers := s.keepers[k := s.keepers[k].(gitMember := false)])
    case Reap(k) => s.(keepers := s.keepers[k := s.keepers[k].(reaped := true)])
    case OtherGroupStarts(pid) => s.(others := s.others + {pid})
    case OtherGroupEnds(pid) => s.(others := s.others - {pid})
  }

  function NoteLingering(s: State, k: Name): State
    requires k in s.keepers
  {
    var keeper := s.keepers[k];
    s.(keepers := s.keepers[k := keeper.(lingered := keeper.lingered || keeper.gitMember)])
  }

  /** A group of another program begins only under a number that names none, and then answers. */
  lemma OtherGroupAnswers(s: State, pid: nat)
    ensures Enabled(s, OtherGroupStarts(pid)) <==> !GroupAnswers(s, pid)
    ensures Enabled(s, OtherGroupStarts(pid)) ==> GroupAnswers(Step(s, OtherGroupStarts(pid)), pid)
    ensures Enabled(s, OtherGroupEnds(pid)) ==> pid !in Step(s, OtherGroupEnds(pid)).others
  {
  }

  /** What a keeper's claim says after each publication. */
  lemma Publishes(s: State, k: Name)
    ensures Enabled(s, PublishChoosing(k)) ==> Step(s, PublishChoosing(k)).claims == s.claims[k := Claim(s.keepers[k].pid, 0, false)]
    ensures Enabled(s, PublishBusy(k)) ==>
              Step(s, PublishBusy(k)).claims == s.claims[k := Claim(s.keepers[k].pid, s.keepers[k].phase.ticket, true)]
    ensures Enabled(s, PublishIdle(k)) ==>
              Step(s, PublishIdle(k)).claims == s.claims[k := Claim(s.keepers[k].pid, s.keepers[k].phase.ticket, false)]
  {
  }

  const EMPTY := State(map[], map[], {})

  /** The state after a run of actions, each enabled where it is taken. */
  function Exec(s: State, actions: seq<Action>): Option<State>
    decreases |actions|
  {
    if actions == [] then Some(s)
    else if Enabled(s, actions[0]) then Exec(Step(s, actions[0]), actions[1..])
    else None
  }

  ghost predicate Reachable(s: State) {
    exists actions :: Exec(EMPTY, actions) == Some(s)
  }

  // ---- the invariant ---------------------------------------------------------------------------

  /** The pair order of the bakery: by ticket, then by name. */
  predicate Before(t: nat, k: Name, u: nat, j: Name) {
    t < u || (t == u && Less(k, j))
  }

  predicate HasTicket(p: Phase) {
    p.Ready? || p.Busy? || (p.Scanning? && p.goal.Wait?)
  }

  function TicketOf(p: Phase): nat
    requires HasTicket(p)
  {
    if p.Scanning? then p.goal.ticket else p.ticket
  }

  /** `k` published a ticket, has not withdrawn, and its group still has a member. */
  predicate Contends(s: State, k: Name) {
    k in s.keepers && !s.keepers[k].reaped && HasTicket(s.keepers[k].phase)
  }

  predicate Admitted(s: State, k: Name) {
    k in s.keepers && !s.keepers[k].reaped && (s.keepers[k].phase.Ready? || s.keepers[k].phase.Busy?)
  }

  /** `j` can no longer be admitted: its group is gone or it is on its way out. */
  predicate Out(s: State, j: Name)
    requires j in s.keepers
  {
    s.keepers[j].reaped || s.keepers[j].phase.Leaving? || s.keepers[j].phase.Left?
  }

  predicate ClaimFits(keeper: Keeper, claim: Claim) {
    && claim.pid == keeper.pid
    && !keeper.phase.Start?
    && (HasTicket(keeper.phase) ==> claim.ticket == TicketOf(keeper.phase))
    && (keeper.phase.Scanning? && keeper.phase.goal.Choose? ==> claim.ticket == 0)
    && (keeper.phase.Busy? ==> claim.gitRunning) && (keeper.phase.Scanning? ==> !claim.gitRunning)
  }

  predicate Publishing(p: Phase) {
    p.Scanning? || HasTicket(p)
  }

  ghost predicate ClaimsBelong(s: State) {
    forall n :: n in s.claims ==> n in s.keepers && ClaimFits(s.keepers[n], s.claims[n])
  }

  ghost predicate ClaimsPresent(s: State) {
    forall n :: n in s.keepers && !s.keepers[n].reaped && Publishing(s.keepers[n].phase) ==> n in s.claims
  }

  predicate KeeperFits(keeper: Keeper) {
    && (keeper.reaped ==> !keeper.running && !keeper.gitMember)
    && (keeper.gitMember && !keeper.lingered ==> keeper.phase.Busy?)
    && (HasTicket(keeper.phase) ==> TicketOf(keeper.phase) > 0)
  }

  ghost predicate ClaimsFit(s: State) {
    ClaimsBelong(s) && ClaimsPresent(s) && forall n :: n in s.keepers ==> KeeperFits(s.keepers[n])
  }

  /** A claim that was read stays true of its keeper once it carries a ticket. */
  predicate ReadFits(keeper: Keeper, claim: Claim) {
    && claim.pid == keeper.pid
    && !keeper.phase.Start?
    && (claim.ticket > 0 ==> keeper.phase.Leaving? || keeper.phase.Left?
                             || (HasTicket(keeper.phase) && TicketOf(keeper.phase) == claim.ticket))
  }

  ghost predicate ScanFits(s: State, k: Name, scan: Scan) {
    match scan
    case Opening => true
    case Listing(before) => forall n :: n in before ==> n in s.keepers && !s.keepers[n].phase.Start?
    case Reading(todo) => true
    case Probing(todo, entry, claim) => entry in s.keepers && ReadFits(s.keepers[entry], claim)
    case Removing(todo, entry) => entry in s.keepers && s.keepers[entry].reaped
  }

  ghost predicate ScansFit(s: State) {
    forall k :: k in s.keepers && s.keepers[k].phase.Scanning? ==>
      ScanFits(s, k, s.keepers[k].phase.scan)
      && (s.keepers[k].phase.goal.Choose? ==> s.keepers[k].phase.goal.best > 0)
  }

  /** `j`, while choosing, is bound to take a ticket above `t`, the ticket of `k`. */
  predicate WillChooseAbove(best: nat, scan: Scan, t: nat, k: Name) {
    match scan
    case Opening => true
    case Listing(before) => k in before
    case Reading(todo) => k in todo || best > t
    case Probing(todo, entry, claim) => k in todo || best > t || (entry == k && claim.ticket == t)
    case Removing(todo, entry) => k in todo || best > t
  }

  /** `j` comes after `k`: it is out, ordered after, or will choose a later ticket. */
  predicate Later(s: State, j: Name, k: Name)
    requires j in s.keepers && Contends(s, k)
  {
    var t := TicketOf(s.keepers[k].phase);
    var p := s.keepers[j].phase;
    || Out(s, j)
    || p.Start?
    || (p.Scanning? && p.goal.Choose? && WillChooseAbove(p.goal.best, p.scan, t, k))
    || (HasTicket(p) && Before(t, k, TicketOf(p), j))
  }

  /** The current pass of `k` is past `j`: it found nothing of `j` that blocks. */
  predicate Cleared(p: Phase, j: Name) {
    match p
    case Ready(_) => true
    case Busy(_) => true
    case Scanning(Wait(_), scan) =>
      (match scan
       case Opening => false
       case Listing(before) => j !in before
       case Reading(todo) => j !in todo
       case Probing(todo, entry, _) => j !in todo && j != entry
       case Removing(todo, entry) => j !in todo)
    case _ => false
  }

  ghost predicate Ordered(s: State) {
    forall k, j :: Contends(s, k) && j in s.keepers && j != k && Cleared(s.keepers[k].phase, j) ==> Later(s, j, k)
  }

  ghost predicate Inv(s: State) {
    ClaimsFit(s) && ScansFit(s) && Ordered(s)
  }

  // ---- every action keeps the invariant --------------------------------------------------------

  /** The keeper an action is about. */
  function Actor(a: Action): Option<Name> {
    match a
    case OtherGroupStarts(_) => None
    case OtherGroupEnds(_) => None
    case _ => Some(a.k)
  }

  lemma OthersUnchanged(s: State, a: Action, q: Name)
    requires Enabled(s, a) && Actor(a) != Some(q)
    ensures q in Step(s, a).keepers <==> q in s.keepers
    ensures q in s.keepers ==> Step(s, a).keepers[q] == s.keepers[q]
    ensures q in Step(s, a).claims ==> q in s.claims && Step(s, a).claims[q] == s.claims[q]
    ensures q in s.claims && q !in Step(s, a).claims ==> a.Unlink? && s.keepers[a.k].phase.scan.entry == q
  {
  }

  /** How one keeper may change in one action. */
  predicate Evolves(p: Keeper, q: Keeper) {
    && q.pid == p.pid
    && (q.phase.Start? ==> p.phase.Start?)
    && (p.reaped ==> q.reaped && q.phase == p.phase)
    && (HasTicket(p.phase) ==> q.phase.Leaving? || (HasTicket(q.phase) && TicketOf(q.phase) == TicketOf(p.phase)))
    && (p.phase.Leaving? ==> q.phase.Leaving? || q.phase.Left?)
    && (p.phase.Left? ==> q.phase.Left?)
  }

  lemma KeepersEvolve(s: State, a: Action, q: Name)
    requires Inv(s) && Enabled(s, a) && q in s.keepers
    ensures q in Step(s, a).keepers && Evolves(s.keepers[q], Step(s, a).keepers[q])
  {
    assert KeeperFits(s.keepers[q]);
    if Actor(a) != Some(q) {
      OthersUnchanged(s, a, q);
    }
  }

  lemma ClaimsBelongKept(s: State, a: Action)
    requires Inv(s) && Enabled(s, a)
    ensures ClaimsBelong(Step(s, a))
  {
    var s' := Step(s, a);
    forall n | n in s'.claims
      ensures n in s'.keepers && ClaimFits(s'.keepers[n], s'.claims[n])
    {
      if Actor(a) != Some(n) {
        OthersUnchanged(s, a, n);
      } else {
        OwnClaimFits(s, a);
      }
    }
  }

  lemma OwnClaimFits(s: State, a: Action)
    requires Inv(s) && Enabled(s, a) && Actor(a).Some? && a.k in Step(s, a).claims
    ensures ClaimFits(Step(s, a).keepers[a.k], Step(s, a).claims[a.k])
  {
    if a.k in s.claims {
      assert ClaimFits(s.keepers[a.k], s.claims[a.k]);
    } else {
      assert a.PublishChoosing? || a.PublishTicket? || a.PublishBusy? || a.PublishIdle?;
    }
  }

  lemma ClaimsPresentKept(s: State, a: Action)
    requires Inv(s) && Enabled(s, a)
    ensures ClaimsPresent(Step(s, a))
  {
    var s' := Step(s, a);
    forall n | n in s'.keepers && !s'.keepers[n].reaped && Publishing(s'.keepers[n].phase)
      ensures n in s'.claims
    {
      if Actor(a) != Some(n) {
        OthersUnchanged(s, a, n);
        if a.Unlink? {
          assert ScanFits(s, a.k, s.keepers[a.k].phase.scan);
        }
      } else if a.Unlink? {
        assert ScanFits(s, n, s.keepers[n].phase.scan);
        assert KeeperFits(s.keepers[n]);
      }
    }
  }

  lemma KeepersFitKept(s: State, a: Action, n: Name)
    requires Inv(s) && Enabled(s, a) && n in Step(s, a).keepers
    ensures KeeperFits(Step(s, a).keepers[n])
  {
    if Actor(a) != Some(n) {
      OthersUnchanged(s, a, n);
    } else if n in s.keepers {
      assert KeeperFits(s.keepers[n]);
      if s.keepers[n].phase.Scanning? {
        assert ScanFits(s, n, s.keepers[n].phase.scan);
      }
    }
  }

  /** A scan that does not move keeps what it knows of the others. */
  lemma ScanStays(s: State, a: Action, k: Name, scan: Scan)
    requires Inv(s) && Enabled(s, a) && ScanFits(s, k, scan)
    ensures ScanFits(Step(s, a), k, scan)
  {
    match scan
    case Listing(before) =>
      forall n | n in before
        ensures n in Step(s, a).keepers && !Step(s, a).keepers[n].phase.Start?
      {
        KeepersEvolve(s, a, n);
      }
    case Probing(todo, entry, claim) => KeepersEvolve(s, a, entry);
    case Removing(todo, entry) => KeepersEvolve(s, a, entry);
    case _ =>
  }

  /** A scan that moves knows what it has just read. */
  lemma ScanMoves(s: State, a: Action)
    requires Inv(s) && Enabled(s, a) && Actor(a).Some?
    requires Step(s, a).keepers[a.k].phase.Scanning?
    requires a.k in s.keepers ==> Step(s, a).keepers[a.k].phase != s.keepers[a.k].phase
    ensures ScanFits(s, a.k, Step(s, a).keepers[a.k].phase.scan)
  {
    if a.Probe? {
      var scan := s.keepers[a.k].phase.scan;
      assert ScanFits(s, a.k, scan);
      if !GroupAnswers(s, scan.claim.pid) {
        assert s.keepers[scan.entry].reaped;
      }
    } else if a.ReadFile? && a.entry in s.claims {
      assert ClaimFits(s.keepers[a.entry], s.claims[a.entry]);
    }
  }

  lemma BestStaysPositive(s: State, a: Action, k: Name)
    requires Inv(s) && Enabled(s, a) && k in Step(s, a).keepers
    requires Step(s, a).keepers[k].phase.Scanning? && Step(s, a).keepers[k].phase.goal.Choose?
    ensures Step(s, a).keepers[k].phase.goal.best > 0
  {
    if Actor(a) != Some(k) {
      OthersUnchanged(s, a, k);
    }
  }

  lemma ScansFitKept(s: State, a: Action)
    requires Inv(s) && Enabled(s, a)
    ensures ScansFit(Step(s, a))
  {
    var s' := Step(s, a);
    forall k | k in s'.keepers && s'.keepers[k].phase.Scanning?
      ensures ScanFits(s', k, s'.keepers[k].phase.scan)
      ensures s'.keepers[k].phase.goal.Choose? ==> s'.keepers[k].phase.goal.best > 0
    {
      if Actor(a) != Some(k) {
        OthersUnchanged(s, a, k);
      } else if k !in s.keepers || s'.keepers[k].phase != s.keepers[k].phase {
        ScanMoves(s, a);
      }
      ScanStays(s, a, k, s'.keepers[k].phase.scan);
      if s'.keepers[k].phase.goal.Choose? {
        BestStaysPositive(s, a, k);
      }
    }
  }

  /** A choosing keeper that is bound to choose above stays so, until it publishes such a ticket. */
  lemma ChooserStaysBound(s: State, a: Action, j: Name, k: Name)
    requires Inv(s) && Enabled(s, a) && Actor(a) == Some(j)
    requires Contends(s, k) && j in s.keepers && j != k && Later(s, j, k)
    requires s.keepers[j].phase.Scanning? && s.keepers[j].phase.goal.Choose?
    ensures Contends(Step(s, a), k) && Later(Step(s, a), j, k)
  {
    OthersUnchanged(s, a, k);
    assert k in s.claims && ClaimFits(s.keepers[k], s.claims[k]);
    var scan := s.keepers[j].phase.scan;
    assert ScanFits(s, j, scan);
    if scan.Probing? && scan.entry == k {
      assert GroupAnswers(s, scan.claim.pid);
    }
  }

  /** Once `j` comes after `k`, it does so until `k` is out. */
  lemma LaterKept(s: State, a: Action, j: Name, k: Name)
    requires Inv(s) && Enabled(s, a)
    requires Contends(s, k) && Contends(Step(s, a), k)
    requires j in s.keepers && j != k && Later(s, j, k)
    ensures Later(Step(s, a), j, k)
  {
    if Actor(a) != Some(j) {
      KeepersEvolve(s, a, k);
      OthersUnchanged(s, a, j);
    } else if s.keepers[j].phase.Scanning? && s.keepers[j].phase.goal.Choose? {
      ChooserStaysBound(s, a, j, k);
    } else {
      OwnStepKeepsLater(s, a, j, k);
    }
  }

  /** A peer that is past choosing, or has not begun, stays behind by its own steps. */
  lemma OwnStepKeepsLater(s: State, a: Action, j: Name, k: Name)
    requires Inv(s) && Enabled(s, a) && Actor(a) == Some(j)
    requires Contends(s, k) && j in s.keepers && j != k && Later(s, j, k)
    requires !(s.keepers[j].phase.Scanning? && s.keepers[j].phase.goal.Choose?)
    ensures Contends(Step(s, a), k) && Later(Step(s, a), j, k)
  {
    OthersUnchanged(s, a, k);
    KeepersEvolve(s, a, j);
  }

  /** A peer without a claim comes after every contender. */
  lemma AbsentIsLater(s: State, j: Name, k: Name)
    requires Inv(s) && Contends(s, k) && j in s.keepers && j !in s.claims
    ensures Later(s, j, k)
  {
  }

  /** So does a peer whose claim was read and has no priority. */
  lemma PassedIsLater(s: State, j: Name, k: Name, claim: Claim)
    requires Contends(s, k) && j in s.keepers && j != k && ReadFits(s.keepers[j], claim)
    requires !HasPriority(claim, TicketOf(s.keepers[k].phase), j, k)
    ensures Later(s, j, k)
  {
    LessIsTotal(k, j);
  }

  /** What a pass of `k` newly clears comes after it. */
  lemma ClearedIsLater(s: State, a: Action, j: Name, k: Name)
    requires Inv(s) && Enabled(s, a)
    requires Contends(Step(s, a), k) && j in s.keepers && j != k
    requires Cleared(Step(s, a).keepers[k].phase, j)
    requires !(Contends(s, k) && Cleared(s.keepers[k].phase, j))
    ensures Contends(s, k) && Later(s, j, k)
  {
    if Actor(a) != Some(k) {
      OthersUnchanged(s, a, k);
    } else {
      var p := s.keepers[k].phase;
      assert KeeperFits(s.keepers[k]);
      assert p.Scanning? && p.goal.Wait? && Contends(s, k);
      assert ScanFits(s, k, p.scan);
      if a.Probe? && GroupAnswers(s, p.scan.claim.pid) && p.scan.entry == j {
        PassedIsLater(s, j, k, p.scan.claim);
      } else if j !in s.claims {
        AbsentIsLater(s, j, k);
      }
    }
  }

  lemma OrderedKept(s: State, a: Action)
    requires Inv(s) && Enabled(s, a)
    ensures Ordered(Step(s, a))
  {
    var s' := Step(s, a);
    forall k, j | Contends(s', k) && j in s'.keepers && j != k && Cleared(s'.keepers[k].phase, j)
      ensures Later(s', j, k)
    {
      if j in s.keepers {
        if !(Contends(s, k) && Cleared(s.keepers[k].phase, j)) {
          ClearedIsLater(s, a, j, k);
        }
        LaterKept(s, a, j, k);
      }
    }
  }

  lemma StepKeepsInv(s: State, a: Action)
    requires Inv(s) && Enabled(s, a)
    ensures Inv(Step(s, a))
  {
    ClaimsBelongKept(s, a);
    ClaimsPresentKept(s, a);
    forall n | n in Step(s, a).keepers
      ensures KeeperFits(Step(s, a).keepers[n])
    {
      KeepersFitKept(s, a, n);
    }
    ScansFitKept(s, a);
    OrderedKept(s, a);
  }

  lemma {:induction false} ExecKeepsInv(s: State, actions: seq<Action>)
    requires Inv(s) && Exec(s, actions).Some?
    ensures Inv(Exec(s, actions).value)
    decreases |actions|
  {
    if actions != [] {
      StepKeepsInv(s, actions[0]);
      ExecKeepsInv(Step(s, actions[0]), actions[1..]);
    }
  }

  lemma ReachableInv(s: State)
    requires Reachable(s)
    ensures Inv(s)
  {
    var actions :| Exec(EMPTY, actions) == Some(s);
    ExecKeepsInv(EMPTY, actions);
  }

  // ---- safety ----------------------------------------------------------------------------------

  /** Of all admitted keepers that have not withdrawn, one at most still has a process. */
  lemma MutualExclusion(s: State, k: Name, j: Name)
    requires Reachable(s)
    requires Admitted(s, k) && Admitted(s, j)
    ensures k == j
  {
    ReachableInv(s);
    if k != j {
      assert Later(s, j, k) && Later(s, k, j);
      LessIsAsymmetric(k, j);
    }
  }

  /** Git processes of two keepers never run together, as long as none outlived its command. */
  lemma GitRunsAlone(s: State, k: Name, j: Name)
    requires Reachable(s) && k in s.keepers && j in s.keepers
    requires s.keepers[k].gitMember && !s.keepers[k].lingered
    requires s.keepers[j].gitMember && !s.keepers[j].lingered
    ensures k == j
    ensures k in s.claims && s.claims[k].pid == s.keepers[k].pid && s.claims[k].gitRunning
  {
    ReachableInv(s);
    MutualExclusion(s, k, j);
  }

  /** A claim disappears only when its keeper withdraws it or when nothing is left of its group. */
  lemma LiveClaimStays(s: State, a: Action, k: Name)
    requires Reachable(s) && Enabled(s, a)
    requires k in s.claims && k !in Step(s, a).claims
    ensures k in s.keepers && (a == Withdraw(k, true) || s.keepers[k].reaped)
  {
    ReachableInv(s);
    if a.Unlink? {
      assert ScanFits(s, a.k, s.keepers[a.k].phase.scan);
    }
    if Actor(a) != Some(k) {
      OthersUnchanged(s, a, k);
    }
  }

  // ---- order -----------------------------------------------------------------------------------

  predicate Unpublished(s: State, j: Name) {
    j !in s.keepers || s.keepers[j].phase.Start?
  }

  /** `k` goes before `j`, or is out. */
  predicate Elder(s: State, k: Name, j: Name) {
    k in s.keepers && (Out(s, k) || (Contends(s, k) && (j !in s.keepers || Later(s, j, k))))
  }

  lemma ElderKept(s: State, a: Action, k: Name, j: Name)
    requires Inv(s) && Enabled(s, a) && k != j && Elder(s, k, j)
    ensures Elder(Step(s, a), k, j)
  {
    KeepersEvolve(s, a, k);
    if Contends(s, k) && Contends(Step(s, a), k) {
      if j in s.keepers {
        LaterKept(s, a, j, k);
      } else if Actor(a) != Some(j) {
        OthersUnchanged(s, a, j);
      }
    }
  }

  lemma {:induction false} ElderStays(s: State, actions: seq<Action>, k: Name, j: Name)
    requires Inv(s) && k != j && Elder(s, k, j) && Exec(s, actions).Some?
    ensures Elder(Exec(s, actions).value, k, j)
    decreases |actions|
  {
    if actions != [] {
      StepKeepsInv(s, actions[0]);
      ElderKept(s, actions[0], k, j);
      ElderStays(Step(s, actions[0]), actions[1..], k, j);
    }
  }

  /** A keeper that had its ticket before another published anything is out before the other is admitted. */
  lemma FirstComeFirstServed(s: State, actions: seq<Action>, k: Name, j: Name)
    requires Reachable(s) && Contends(s, k) && Unpublished(s, j)
    requires Exec(s, actions).Some? && Admitted(Exec(s, actions).value, j)
    ensures k in Exec(s, actions).value.keepers && Out(Exec(s, actions).value, k)
  {
    ReachableInv(s);
    ElderStays(s, actions, k, j);
    var s' := Exec(s, actions).value;
    ExecKeepsInv(s, actions);
    if !Out(s', k) {
      assert Later(s', j, k) && Later(s', k, j);
      LessIsAsymmetric(k, j);
    }
  }
}
