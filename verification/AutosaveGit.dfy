/**
 * One autosave Git command: the events that reach it, in any order, and when its promise may settle.
 * `Command` and `Step` are the specification that `AutosaveCommand` is proved against, and the runs are
 * those of one command from its spawn on.
 */
module AutosaveGit {
  import opened Options

  const OUTPUT_LIMIT := 33_554_432

  datatype Signal = Term | Kill

  /** Where the running check waits for an answer; while none runs, the next may begin. */
  datatype Phase = Resting | AskingGroup | AskingHolders

  datatype Result = Result(ok: bool, stdout: string, code: Option<int>)

  /** What the caller is told while cleanup is blocked: who may still run, and why. */
  datatype Report = Report(leader: Option<nat>, group: Option<nat>, holders: seq<nat>, uncertain: bool, text: string)

  datatype Timers = Timers(deadline: bool, kill: bool, confirm: bool, poll: bool)

  datatype Life = Life(
    pid: Option<nat>,
    exited: bool,
    closed: bool,
    code: Option<int>,
    aborted: bool,
    finished: bool,
    blocked: bool,
    phase: Phase,
    groupPending: bool,
    timers: Timers,
    signals: seq<Signal>,
    result: Option<Result>
  )

  datatype Output = Output(bytes: nat, stdout: string)

  /** What the last checks said, and the reports made of it. */
  datatype Told = Told(diagnostic: string, holders: seq<nat>, reports: seq<Report>)

  datatype Command = Command(life: Life, output: Output, told: Told)

  datatype Event =
    | Exit(value: Option<int>)
    | Close
    | Error
    | Data(chunk: string, size: nat, output: bool)
    | Deadline
    | KillTimer
    | ConfirmTimer
    | PollTimer
    | GroupAnswer(alive: bool, diagnostic: string)
    | HoldersAnswer(live: bool, processes: seq<nat>)

  /** The state after `spawn`; no pid means that the spawn failed, and an error will say so. */
  function Begin(pid: Option<nat>): Command {
    Command(
      Life(pid, false, false, None, false, false, false, Resting, true, Timers(true, false, false, false), [], None),
      Output(0, ""), Told("process inspection pending", [], []))
  }

  /** A timer fires while it is set, an answer comes to a question, and only a process exits. */
  predicate Enabled(l: Life, e: Event) {
    match e
    case Exit(_) => l.pid.Some? && !l.exited
    case Deadline => l.timers.deadline
    case KillTimer => l.timers.kill
    case ConfirmTimer => l.timers.confirm
    case PollTimer => l.timers.poll
    case GroupAnswer(_, _) => l.phase.AskingGroup?
    case HoldersAnswer(_, _) => l.phase.AskingHolders?
    case _ => true
  }

  // ---- the parts of a step ---------------------------------------------------------------------

  function Send(l: Life, s: Signal): Life {
    if l.finished || l.pid.None? then l else l.(signals := l.signals + [s])
  }

  /** The promise keeps the first result it is given. */
  function Finish(l: Life, stdout: string): Life {
    var result := Result(!l.aborted && l.code == Some(0), stdout, if l.aborted then None else l.code);
    l.(finished := true, timers := Timers(false, false, false, false), result := if l.result.Some? then l.result else Some(result))
  }

  function Observe(l: Life): Life {
    if l.finished || !l.phase.Resting? then l
    else if l.pid.Some? then l.(timers := l.timers.(poll := false), phase := AskingGroup)
    else l.(timers := l.timers.(poll := false), phase := AskingHolders, groupPending := false)
  }

  function Abort(l: Life): Life {
    if l.aborted || l.finished then l
    else
      var sent := Send(l.(aborted := true), Term);
      Observe(sent.(timers := sent.timers.(kill := true, confirm := true)))
  }

  /** Whether a check that ends now settles the command. */
  predicate Settles(l: Life, alive: bool) {
    !l.finished && l.exited && !alive && (l.aborted || l.closed)
  }

  function EndCheck(l: Life, alive: bool, stdout: string): Life {
    if l.finished then l.(phase := Resting)
    else if Settles(l, alive) then Finish(l.(phase := Resting), stdout)
    else l.(phase := Resting, timers := l.timers.(poll := true))
  }

  function LifeAfter(c: Command, e: Event): Life {
    var l := c.life;
    match e
    case Exit(value) => Observe(l.(exited := true, code := value))
    case Close => Observe(l.(closed := true))
    case Error => if l.pid.None? then Finish(l.(exited := true), c.output.stdout) else Abort(l)
    case Data(_, size, _) => if c.output.bytes + size > OUTPUT_LIMIT then Abort(l) else l
    case Deadline => Abort(l.(timers := l.timers.(deadline := false)))
    case KillTimer => Send(l.(timers := l.timers.(kill := false)), Kill)
    case ConfirmTimer => l.(timers := l.timers.(confirm := false), blocked := true)
    case PollTimer => Observe(l.(timers := l.timers.(poll := false)))
    case GroupAnswer(true, _) => EndCheck(l.(groupPending := true), true, c.output.stdout)
    case GroupAnswer(false, _) => l.(groupPending := false, phase := AskingHolders)
    case HoldersAnswer(live, _) => EndCheck(l, live, c.output.stdout)
  }

  /** A chunk over the limit is counted but not kept. */
  function OutputAfter(o: Output, e: Event): Output {
    if !e.Data? then o
    else
      var bytes := o.bytes + e.size;
      Output(bytes, if e.output && bytes <= OUTPUT_LIMIT then o.stdout + e.chunk else o.stdout)
  }

  function ReportOf(l: Life, diagnostic: string, holders: seq<nat>): Report {
    Report(if l.exited then None else l.pid, if l.groupPending then l.pid else None, holders,
           !l.exited && l.pid.None?, diagnostic)
  }

  /** The end of a check that does not settle, and the confirm timer, report what is new. */
  predicate Reports(e: Event) {
    e.ConfirmTimer? || (e.GroupAnswer? && e.alive) || e.HoldersAnswer?
  }

  /** While blocked and unsettled, what is news is reported. */
  function Reported(reports: seq<Report>, l: Life, report: Report): seq<Report> {
    if !l.blocked || l.finished || (reports != [] && reports[|reports| - 1] == report) then reports else reports + [report]
  }

  const NO_GROUP := "process group unknown exited"

  /** A check of a command without a process finds no group. */
  predicate FindsNoGroup(l: Life, after: Life) {
    l.pid.None? && l.phase.Resting? && !after.phase.Resting?
  }

  function ToldAfter(t: Told, l: Life, after: Life, e: Event): Told {
    var diagnostic := if e.GroupAnswer? then e.diagnostic else if FindsNoGroup(l, after) then NO_GROUP else t.diagnostic;
    var holders := if e.HoldersAnswer? then e.processes else t.holders;
    Told(diagnostic, holders,
         if Reports(e) then Reported(t.reports, after, ReportOf(after, diagnostic, holders)) else t.reports)
  }

  function Step(c: Command, e: Event): Command {
    var after := LifeAfter(c, e);
    Command(after, OutputAfter(c.output, e), ToldAfter(c.told, c.life, after, e))
  }

  // ---- what every state keeps ------------------------------------------------------------------

  /** Signals: none before an abort, then SIGTERM, then at most one SIGKILL. */
  predicate SignalsInOrder(l: Life) {
    if !l.aborted || l.pid.None? then l.signals == []
    else l.signals == [Term] || (l.signals == [Term, Kill] && !l.timers.kill)
  }

  /** An unsettled command is under its deadline or being stopped. */
  predicate Pursued(l: Life) {
    !l.finished ==>
      && (l.aborted || l.timers.deadline)
      && (l.aborted || (!l.timers.kill && !l.timers.confirm))
      && (l.aborted ==> (l.timers.confirm || l.blocked)) && !(l.timers.confirm && l.blocked)
      && ((l.aborted && l.pid.Some?) ==> (l.timers.kill || Kill in l.signals))
  }

  /** From the time when something has happened, an unsettled command has a check running or else a poll scheduled. */
  predicate Watched(l: Life) {
    !l.finished ==> (Stirred(l) <==> l.timers.poll || !l.phase.Resting?) && OneAtATime(l)
  }

  predicate Stirred(l: Life) {
    l.exited || l.closed || l.aborted
  }

  predicate OneAtATime(l: Life) {
    l.timers.poll ==> l.phase.Resting?
  }

  /** A settled command has no timer left, and what it answered was true. */
  predicate SettledRight(l: Life) {
    && (l.finished <==> l.result.Some?)
    && (l.finished ==> l.timers == Timers(false, false, false, false) && l.exited)
    && (l.finished && l.result.value.ok ==>
          l.pid.Some? && !l.aborted && l.closed && l.code == Some(0) && l.result.value.code == Some(0))
  }

  predicate Consistent(l: Life) {
    && SignalsInOrder(l) && SettledRight(l)
    && (l.phase.AskingHolders? ==> !l.groupPending)
    && (l.blocked ==> l.aborted || l.finished)
    && (l.pid.None? ==> l.code.None? && !l.phase.AskingGroup? && (l.exited ==> l.finished))
  }

  predicate Valid(l: Life) {
    Consistent(l) && Pursued(l) && Watched(l)
  }

  /**
   * What a step may change. Only two steps settle: an error that says the spawn failed, and the end of a
   * check that found nothing alive. Holders are asked about after the group was found dead.
   */
  predicate Explained(l: Life, e: Event, after: Life) {
    && after.pid == l.pid
    && (after.exited ==> l.exited || e.Exit? || l.pid.None?)
    && (l.aborted || l.finished ==> after.aborted || after.finished)
    && (after.phase.AskingHolders? ==> l.pid.None? || if e.GroupAnswer? then !e.alive else l.phase.AskingHolders?)
    && (after.finished && !l.finished ==>
          if l.pid.None? then e.Error?
          else e.HoldersAnswer? && !e.live && l.exited && !l.groupPending && (l.aborted || l.closed))
  }

  lemma ObserveKeepsValid(l: Life)
    requires Consistent(l) && Pursued(l) && (!l.finished ==> Stirred(l) && OneAtATime(l))
    ensures Valid(Observe(l))
    ensures Observe(l).finished == l.finished && (l.pid.Some? && Observe(l).phase.AskingHolders? ==> l.phase.AskingHolders?)
  {
  }

  lemma EndCheckKeepsValid(l: Life, alive: bool, stdout: string)
    requires Consistent(l) && Pursued(l) && (!l.finished ==> Stirred(l))
    ensures Valid(EndCheck(l, alive, stdout))
  {
  }

  lemma AbortKeepsValid(l: Life)
    requires Consistent(l) && Watched(l) && (l.aborted ==> Valid(l))
    ensures Valid(Abort(l)) && Abort(l).pid == l.pid && Abort(l).exited == l.exited && Abort(l).finished == l.finished
    ensures l.pid.Some? && Abort(l).phase.AskingHolders? ==> l.phase.AskingHolders?
  {
    if !l.aborted && !l.finished {
      var sent := Send(l.(aborted := true), Term);
      var stopping := sent.(timers := sent.timers.(kill := true, confirm := true));
      assert SignalsInOrder(stopping) && SettledRight(stopping);
      ObserveKeepsValid(stopping);
    }
  }

  lemma BeginIsValid(pid: Option<nat>)
    ensures Valid(Begin(pid).life)
  {
  }

  lemma TimerKeepsValid(c: Command, e: Event)
    requires Valid(c.life) && Enabled(c.life, e) && (e.KillTimer? || e.ConfirmTimer?)
    ensures Valid(LifeAfter(c, e)) && Explained(c.life, e, LifeAfter(c, e))
  {
    assert e.ConfirmTimer? ==> LifeAfter(c, e).signals == c.life.signals;
  }

  lemma NewsKeepsValid(c: Command, e: Event)
    requires Valid(c.life) && Enabled(c.life, e) && (e.Exit? || e.Close? || e.PollTimer?)
    ensures Valid(LifeAfter(c, e)) && Explained(c.life, e, LifeAfter(c, e))
  {
    var l := c.life;
    ObserveKeepsValid(
      match e
      case Exit(value) => l.(exited := true, code := value)
      case Close => l.(closed := true)
      case _ => l.(timers := l.timers.(poll := false)));
  }

  lemma AnswerKeepsValid(c: Command, e: Event)
    requires Valid(c.life) && Enabled(c.life, e) && (e.GroupAnswer? || e.HoldersAnswer?)
    ensures Valid(LifeAfter(c, e)) && Explained(c.life, e, LifeAfter(c, e))
  {
    if e.HoldersAnswer? {
      EndCheckKeepsValid(c.life, e.live, c.output.stdout);
    } else if e.alive {
      EndCheckKeepsValid(c.life.(groupPending := true), true, c.output.stdout);
    } else {
      assert SignalsInOrder(LifeAfter(c, e)) && SettledRight(LifeAfter(c, e));
    }
  }

  lemma TroubleKeepsValid(c: Command, e: Event)
    requires Valid(c.life) && Enabled(c.life, e) && (e.Data? || e.Deadline? || e.Error?)
    ensures Valid(LifeAfter(c, e)) && Explained(c.life, e, LifeAfter(c, e))
  {
    if e.Error? && c.life.pid.None? {
      assert SignalsInOrder(LifeAfter(c, e)) && SettledRight(LifeAfter(c, e));
    } else {
      AbortKeepsValid(if e.Deadline? then c.life.(timers := c.life.timers.(deadline := false)) else c.life);
    }
  }

  lemma StepKeepsValid(c: Command, e: Event)
    requires Valid(c.life) && Enabled(c.life, e)
    ensures Valid(LifeAfter(c, e)) && Explained(c.life, e, LifeAfter(c, e))
  {
    if e.KillTimer? || e.ConfirmTimer? {
      TimerKeepsValid(c, e);
    } else if e.Exit? || e.Close? || e.PollTimer? {
      NewsKeepsValid(c, e);
    } else if e.GroupAnswer? || e.HoldersAnswer? {
      AnswerKeepsValid(c, e);
    } else {
      TroubleKeepsValid(c, e);
    }
  }

  // ---- settling --------------------------------------------------------------------------------

  /** A settled command sends nothing, reports nothing and keeps its result. */
  lemma SettledStays(c: Command, e: Event)
    requires Valid(c.life) && c.life.finished && Enabled(c.life, e)
    ensures var d := Step(c, e);
            d.life.finished && d.life.result == c.life.result && d.life.signals == c.life.signals && d.told.reports == c.told.reports
  {
  }

  // ---- runs ------------------------------------------------------------------------------------

  ghost predicate Goes(states: seq<Command>, events: seq<Event>, i: nat)
    requires i < |events| < |states|
  {
    Enabled(states[i].life, events[i]) && states[i + 1] == Step(states[i], events[i])
  }

  /** The states of one command, from its spawn on, through a sequence of events. */
  ghost predicate Run(pid: Option<nat>, states: seq<Command>, events: seq<Event>) {
    |states| == |events| + 1 && states[0] == Begin(pid) && forall i :: 0 <= i < |events| ==> Goes(states, events, i)
  }

  lemma {:induction false} RunIsValid(pid: Option<nat>, states: seq<Command>, events: seq<Event>, i: nat)
    requires Run(pid, states, events) && i < |states|
    ensures Valid(states[i].life) && states[i].life.pid == pid
  {
    if i == 0 {
      BeginIsValid(pid);
    } else {
      RunIsValid(pid, states, events, i - 1);
      assert Goes(states, events, i - 1);
      StepKeepsValid(states[i - 1], events[i - 1]);
    }
  }

  /** Before event `n`, the group was found dead at `i` and not asked about since. */
  predicate GroupFoundDead(events: seq<Event>, n: nat, i: nat)
    requires n <= |events|
  {
    i < n && events[i].GroupAnswer? && !events[i].alive && forall k :: i < k < n ==> !events[k].GroupAnswer?
  }

  lemma {:induction false} ExitedMeansExit(pid: Option<nat>, states: seq<Command>, events: seq<Event>, n: nat)
    requires Run(pid, states, events) && n < |states| && pid.Some? && states[n].life.exited
    ensures exists i :: 0 <= i < n && events[i].Exit?
  {
    if n > 0 {
      assert Goes(states, events, n - 1);
      RunIsValid(pid, states, events, n - 1);
      StepKeepsValid(states[n - 1], events[n - 1]);
      if !events[n - 1].Exit? {
        ExitedMeansExit(pid, states, events, n - 1);
      }
    }
  }

  lemma {:induction false} AskingHoldersMeansGroupDead(pid: Option<nat>, states: seq<Command>, events: seq<Event>, n: nat)
    requires Run(pid, states, events) && n < |states| && pid.Some? && states[n].life.phase.AskingHolders?
    ensures exists i :: GroupFoundDead(events, n, i)
  {
    if n > 0 {
      assert Goes(states, events, n - 1);
      RunIsValid(pid, states, events, n - 1);
      StepKeepsValid(states[n - 1], events[n - 1]);
      if events[n - 1].GroupAnswer? {
        assert GroupFoundDead(events, n, n - 1);
      } else {
        AskingHoldersMeansGroupDead(pid, states, events, n - 1);
        var i :| GroupFoundDead(events, n - 1, i);
        assert GroupFoundDead(events, n, i);
      }
    }
  }

  /**
   * A command that was spawned settles at the end of a check only: its exit had been seen, the group had been
   * found dead, and then no holder was found live.
   */
  lemma SettledMeansProvedGone(pid: Option<nat>, states: seq<Command>, events: seq<Event>, n: nat)
    requires Run(pid, states, events) && pid.Some? && n < |events|
    requires !states[n].life.finished && states[n + 1].life.finished
    ensures events[n].HoldersAnswer? && !events[n].live
    ensures exists i :: 0 <= i < n && events[i].Exit?
    ensures exists i :: GroupFoundDead(events, n, i)
  {
    assert Goes(states, events, n);
    RunIsValid(pid, states, events, n);
    StepKeepsValid(states[n], events[n]);
    ExitedMeansExit(pid, states, events, n);
    AskingHoldersMeansGroupDead(pid, states, events, n);
  }

  /** From an exit, a close or an abort on, and no sooner, until it settles, a check runs or a poll is set, not both; signals come in order. */
  lemma AlwaysWatched(pid: Option<nat>, states: seq<Command>, events: seq<Event>, n: nat)
    requires Run(pid, states, events) && n < |states|
    ensures var l := states[n].life;
            !l.finished ==> (l.timers.poll || !l.phase.Resting? <==> l.exited || l.closed || l.aborted) && !(l.timers.poll && !l.phase.Resting?)
    ensures states[n].life.signals <= [Term, Kill] && (states[n].life.signals != [] ==> states[n].life.aborted)
    ensures states[n].life.finished || states[n].life.aborted || states[n].life.timers.deadline
  {
    RunIsValid(pid, states, events, n);
  }

  /** Until it settles, an aborted command is sent SIGKILL when its timer fires, and counts as blocked when the other one does, once. */
  lemma StopIsPursued(pid: Option<nat>, states: seq<Command>, events: seq<Event>, n: nat)
    requires Run(pid, states, events) && n < |states| && states[n].life.aborted && !states[n].life.finished
    ensures pid.Some? ==> Term in states[n].life.signals && (Kill in states[n].life.signals <==> !states[n].life.timers.kill)
    ensures states[n].life.blocked <==> !states[n].life.timers.confirm
  {
    RunIsValid(pid, states, events, n);
  }

  /** From the step that settles on, nothing is sent and the result is fixed. */
  lemma {:induction false} NothingAfterSettling(pid: Option<nat>, states: seq<Command>, events: seq<Event>, n: nat, m: nat)
    requires Run(pid, states, events) && n <= m < |states| && states[n].life.finished
    ensures states[m].life.finished && states[m].life.result == states[n].life.result
    ensures states[m].life.signals == states[n].life.signals && states[m].told.reports == states[n].told.reports
  {
    if n < m {
      NothingAfterSettling(pid, states, events, n, m - 1);
      RunIsValid(pid, states, events, m - 1);
      assert Goes(states, events, m - 1);
      SettledStays(states[m - 1], events[m - 1]);
    }
  }

  // ---- the answer ------------------------------------------------------------------------------

  /** Everything the command wrote to its standard output, and how many bytes it wrote in all. */
  function Written(events: seq<Event>, n: nat): string
    requires n <= |events|
  {
    if n == 0 then ""
    else Written(events, n - 1) + if events[n - 1].Data? && events[n - 1].output then events[n - 1].chunk else ""
  }

  function Bytes(events: seq<Event>, n: nat): nat
    requires n <= |events|
  {
    if n == 0 then 0 else Bytes(events, n - 1) + if events[n - 1].Data? then events[n - 1].size else 0
  }

  /** Data over the limit aborts. */
  lemma OverflowAborts(c: Command, e: Event)
    requires e.Data? && c.output.bytes + e.size > OUTPUT_LIMIT
    ensures LifeAfter(c, e).aborted || LifeAfter(c, e).finished
  {
  }

  lemma {:induction false} OutputIsWhole(pid: Option<nat>, states: seq<Command>, events: seq<Event>, n: nat)
    requires Run(pid, states, events) && n < |states|
    ensures states[n].life.aborted || states[n].life.finished ||
            (states[n].output == Output(Bytes(events, n), Written(events, n)) && Bytes(events, n) <= OUTPUT_LIMIT)
  {
    if n > 0 {
      OutputIsWhole(pid, states, events, n - 1);
      assert Goes(states, events, n - 1);
      var c, e := states[n - 1], events[n - 1];
      if c.life.aborted || c.life.finished {
        RunIsValid(pid, states, events, n - 1);
        StepKeepsValid(c, e);
      } else if e.Data? && c.output.bytes + e.size > OUTPUT_LIMIT {
        OverflowAborts(c, e);
      } else {
        assert Written(events, n - 1) + "" == Written(events, n - 1);
      }
    }
  }

  /** `ok` means exit code 0, closed streams, no abort, and all that was written, within the limit. */
  lemma OkMeansWholeOutput(pid: Option<nat>, states: seq<Command>, events: seq<Event>, n: nat)
    requires Run(pid, states, events) && n < |events|
    requires !states[n].life.finished && states[n + 1].life.result.Some? && states[n + 1].life.result.value.ok
    ensures var l := states[n + 1].life;
            l.pid.Some? && !l.aborted && l.closed && l.result.value == Result(true, Written(events, n), Some(0))
    ensures Bytes(events, n) <= OUTPUT_LIMIT
  {
    assert Goes(states, events, n);
    RunIsValid(pid, states, events, n);
    RunIsValid(pid, states, events, n + 1);
    StepKeepsValid(states[n], events[n]);
    OutputIsWhole(pid, states, events, n);
  }

  // ---- no check is lost ------------------------------------------------------------------------

  /** Nothing is left to wait for but a check. */
  predicate Over(l: Life) {
    l.exited && (l.aborted || l.closed)
  }

  /** Once it is over, an unsettled command is always being checked, and a check that finds nothing alive settles it. */
  lemma CleanCheckSettles(c: Command, d1: string, d2: seq<nat>)
    requires Valid(c.life) && !c.life.finished && Over(c.life)
    ensures c.life.phase.Resting? ==> Enabled(c.life, PollTimer) && Step(c, PollTimer).life.phase.AskingGroup? && Over(Step(c, PollTimer).life)
    ensures c.life.phase.AskingGroup? ==>
              var next := Step(c, GroupAnswer(false, d1)).life; next.phase.AskingHolders? && Over(next) && !next.finished
    ensures c.life.phase.AskingHolders? ==> LifeAfter(c, HoldersAnswer(false, d2)).finished
  {
  }

  /** While cleanup is blocked, whoever the last check found alive is named by the last report. */
  lemma BlockedCheckIsReported(c: Command, e: Event)
    requires Valid(c.life) && Enabled(c.life, e) && (e.HoldersAnswer? || (e.GroupAnswer? && e.alive)) && c.life.blocked
    requires !LifeAfter(c, e).finished
    ensures var reports := Step(c, e).told.reports;
            && reports != [] && var r := reports[|reports| - 1];
               && (!c.life.exited ==> r.leader == c.life.pid)
               && (e.GroupAnswer? ==> r.group == c.life.pid)
               && (e.HoldersAnswer? ==> r.holders == e.processes)
  {
  }
}
