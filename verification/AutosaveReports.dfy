/**
 * What a blocked autosave command reports, told from the events that reached it: the last report names exactly who
 * may still run, each report is news, and a command without a process names nobody. The state that `AutosaveGit`
 * keeps is shown to hold what these events said.
 */
module AutosaveReports {
  import opened Options
  import opened AutosaveGit
  import opened AutosaveAnswer

  // ---- told from the events --------------------------------------------------------------------

  /** What the last answer about the group said. */
  function Said(events: seq<Event>, n: nat): string
    requires n <= |events|
  {
    if n == 0 then "process inspection pending" else if events[n - 1].GroupAnswer? then events[n - 1].diagnostic else Said(events, n - 1)
  }

  /** Whom the last answer about holders named. */
  function Named(events: seq<Event>, n: nat): seq<nat>
    requires n <= |events|
  {
    if n == 0 then [] else if events[n - 1].HoldersAnswer? then events[n - 1].processes else Named(events, n - 1)
  }

  /** The last answer about the group found it dead. */
  predicate GroupGone(events: seq<Event>, n: nat)
    requires n <= |events|
  {
    n > 0 && if events[n - 1].GroupAnswer? then !events[n - 1].alive else GroupGone(events, n - 1)
  }

  ghost predicate Exited(events: seq<Event>, n: nat)
    requires n <= |events|
  {
    exists k: nat :: k < n && events[k].Exit?
  }

  ghost predicate Confirmed(events: seq<Event>, n: nat)
    requires n <= |events|
  {
    exists k: nat :: k < n && events[k].ConfirmTimer?
  }

  // ---- what the state holds of it --------------------------------------------------------------

  predicate SameWatch(l: Life, after: Life) {
    after.blocked == l.blocked && (l.pid.Some? ==> after.groupPending == l.groupPending)
  }

  lemma AbortKeepsWatch(l: Life)
    ensures SameWatch(l, Abort(l))
  {
    if !l.aborted && !l.finished {
      var sent := Send(l.(aborted := true), Term);
      assert SameWatch(l, sent);
    }
  }

  lemma OthersKeepWatch(c: Command, e: Event)
    requires !e.GroupAnswer? && !e.ConfirmTimer?
    ensures SameWatch(c.life, LifeAfter(c, e))
  {
    if e.Error? || e.Data? || e.Deadline? {
      AbortKeepsWatch(if e.Deadline? then c.life.(timers := c.life.timers.(deadline := false)) else c.life);
    }
  }

  lemma StepWatches(c: Command, e: Event)
    ensures LifeAfter(c, e).blocked <==> c.life.blocked || e.ConfirmTimer?
    ensures c.life.pid.Some? ==> LifeAfter(c, e).groupPending == if e.GroupAnswer? then e.alive else c.life.groupPending
  {
    if !e.GroupAnswer? && !e.ConfirmTimer? {
      OthersKeepWatch(c, e);
    }
  }

  /** A command is blocked from the time when its end was to be confirmed. */
  lemma {:induction false} BlockedIff(pid: Option<nat>, states: seq<Command>, events: seq<Event>, n: nat)
    requires Run(pid, states, events) && n < |states|
    ensures states[n].life.blocked <==> Confirmed(events, n)
  {
    if n > 0 {
      BlockedIff(pid, states, events, n - 1);
      assert Goes(states, events, n - 1);
      StepWatches(states[n - 1], events[n - 1]);
      assert Confirmed(events, n) <==> Confirmed(events, n - 1) || events[n - 1].ConfirmTimer? by {
        if k: nat :| k < n && events[k].ConfirmTimer? {
          assert k < n - 1 || k == n - 1;
        }
      }
    }
  }

  lemma {:induction false} ToldIs(pid: Option<nat>, states: seq<Command>, events: seq<Event>, n: nat)
    requires Run(pid, states, events) && n < |states| && pid.Some?
    ensures states[n].told.diagnostic == Said(events, n) && states[n].told.holders == Named(events, n)
    ensures states[n].life.groupPending <==> !GroupGone(events, n)
  {
    if n > 0 {
      ToldIs(pid, states, events, n - 1);
      RunIsValid(pid, states, events, n - 1);
      assert Goes(states, events, n - 1);
      StepWatches(states[n - 1], events[n - 1]);
    }
  }

  // ---- the reports -----------------------------------------------------------------------------

  /** The end of a check that did not settle the command, and the time when its end was to be confirmed. */
  predicate Tells(e: Event) {
    match e
    case ConfirmTimer => true
    case HoldersAnswer(_, _) => true
    case GroupAnswer(alive, _) => alive
    case _ => false
  }

  /** Whoever may still run after `n` events: the leader until it exits, and its group until that is found dead. */
  ghost predicate TrueAt(pid: Option<nat>, events: seq<Event>, n: nat, r: Report)
    requires n <= |events|
  {
    && r.leader == (if Exited(events, n) then None else pid) && r.group == (if GroupGone(events, n) then None else pid)
    && r.holders == Named(events, n) && r.text == Said(events, n) && !r.uncertain
  }

  /** From then on, until it settles, every check of a spawned command leaves the truth as its last report. */
  lemma LastReportIsTrue(pid: Option<nat>, states: seq<Command>, events: seq<Event>, n: nat)
    requires Run(pid, states, events) && pid.Some? && n < |events| && Tells(events[n])
    requires Confirmed(events, n + 1) && !states[n + 1].life.finished
    ensures var reports := states[n + 1].told.reports; reports != [] && TrueAt(pid, events, n + 1, reports[|reports| - 1])
  {
    assert Goes(states, events, n);
    BlockedIff(pid, states, events, n + 1);
    ToldIs(pid, states, events, n + 1);
    ExitIsHeld(pid, states, events, n + 1);
    RunIsValid(pid, states, events, n + 1);
  }

  predicate AllNews(reports: seq<Report>) {
    forall i :: 0 < i < |reports| ==> reports[i - 1] != reports[i]
  }

  /** No report says what the one before it said, none comes before the command is blocked, and none is taken back. */
  lemma {:induction false} OnlyNews(pid: Option<nat>, states: seq<Command>, events: seq<Event>, n: nat)
    requires Run(pid, states, events) && n < |states|
    ensures AllNews(states[n].told.reports) && (!Confirmed(events, n) ==> states[n].told.reports == [])
    ensures n > 0 ==> states[n - 1].told.reports <= states[n].told.reports
    ensures n > 0 && !Tells(events[n - 1]) ==> states[n].told.reports == states[n - 1].told.reports
  {
    if n > 0 {
      OnlyNews(pid, states, events, n - 1);
      assert Goes(states, events, n - 1);
      BlockedIff(pid, states, events, n);
      assert Confirmed(events, n - 1) ==> Confirmed(events, n);
    }
  }

  predicate NamesNobody(r: Report) {
    r.leader.None? && r.group.None? && r.uncertain && r.text == "process group unknown exited"
  }

  /** Once it was asked about, the group of no process is gone. */
  predicate NoGroup(c: Command) {
    && c.life.pid.None? && (c.life.aborted || c.life.phase.AskingHolders? ==> c.told.diagnostic == "process group unknown exited")
  }

  lemma AbortAsks(l: Life)
    requires l.pid.None?
    ensures Abort(l).aborted && !l.aborted ==> Abort(l).phase.AskingHolders? || !l.phase.Resting?
    ensures Abort(l).phase == l.phase || Abort(l).phase.AskingHolders?
  {
  }

  lemma TroubleFindsNoGroup(c: Command, e: Event)
    requires NoGroup(c) && Valid(c.life) && (e.Data? || e.Deadline?)
    ensures NoGroup(Step(c, e))
  {
    AbortAsks(if e.Deadline? then c.life.(timers := c.life.timers.(deadline := false)) else c.life);
    StepWatches(c, e);
    assert !LifeAfter(c, e).finished ==> !c.life.finished;
  }

  lemma StepFindsNoGroup(c: Command, e: Event)
    requires NoGroup(c) && Valid(c.life) && Enabled(c.life, e)
    ensures NoGroup(Step(c, e))
  {
    StepKeepsValid(c, e);
    StepWatches(c, e);
    if e.Data? || e.Deadline? {
      TroubleFindsNoGroup(c, e);
    }
  }

  lemma {:induction false} NoGroupIsFound(states: seq<Command>, events: seq<Event>, n: nat)
    requires Run(None, states, events) && n < |states|
    ensures NoGroup(states[n])
  {
    if n > 0 {
      NoGroupIsFound(states, events, n - 1);
      RunIsValid(None, states, events, n - 1);
      assert Goes(states, events, n - 1);
      StepFindsNoGroup(states[n - 1], events[n - 1]);
    }
  }

  /** Without a process, nobody is named, and what may run is uncertain. */
  lemma {:induction false} NoProcessIsNamed(states: seq<Command>, events: seq<Event>, n: nat)
    requires Run(None, states, events) && n < |states|
    ensures forall r :: r in states[n].told.reports ==> NamesNobody(r)
  {
    if n > 0 {
      NoProcessIsNamed(states, events, n - 1);
      assert Goes(states, events, n - 1);
      NoGroupIsFound(states, events, n);
      RunIsValid(None, states, events, n);
      ReportNamesNobody(states[n - 1], events[n - 1]);
    }
  }

  lemma ReportNamesNobody(c: Command, e: Event)
    requires NoGroup(Step(c, e)) && Valid(LifeAfter(c, e))
    ensures forall r :: r in Step(c, e).told.reports ==> r in c.told.reports || NamesNobody(r)
  {
  }
}
