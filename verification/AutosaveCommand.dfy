/** The autosave command as its callbacks run it: each updates the fields and does what `AutosaveGit.Step` says. */
module AutosaveCommand {
  import opened Options
  import G = AutosaveGit

  class Autosave {
    const pid: Option<nat>
    var exited: bool
    var closed: bool
    var code: Option<int>
    var aborted: bool
    var finished: bool
    var blocked: bool
    var phase: G.Phase
    var groupPending: bool
    var timers: G.Timers
    var signals: seq<G.Signal>
    var result: Option<G.Result>
    var bytes: nat
    var stdout: string
    var groupDiagnostic: string
    var holders: seq<nat>
    var reports: seq<G.Report>

    function Life(): G.Life
      reads this
    {
      G.Life(pid, exited, closed, code, aborted, finished, blocked, phase, groupPending,
             timers, signals, result)
    }

    function State(): G.Command
      reads this
    {
      G.Command(Life(), G.Output(bytes, stdout), G.Told(groupDiagnostic, holders, reports))
    }

    /** Every state between two callbacks is valid, and `e` may come in this one. */
    ghost predicate Ready(e: G.Event)
      reads this
    {
      G.Valid(Life()) && G.Enabled(Life(), e)
    }

    constructor (child: Option<nat>)
      ensures State() == G.Begin(child) && G.Valid(Life())
    {
      pid, exited, closed, code, aborted, finished, blocked := child, false, false, None, false, false, false;
      phase, groupPending, signals, result := G.Resting, true, [], None;
      timers := G.Timers(true, false, false, false);
      bytes, stdout, groupDiagnostic, holders, reports := 0, "", "process inspection pending", [], [];
    }

    // ---- the parts -----------------------------------------------------------------------------

    method Send(s: G.Signal)
      modifies this`signals
      ensures Life() == G.Send(old(Life()), s)
    {
      if finished || pid.None? {
        return;
      }
      signals := signals + [s];
    }

    method Finish()
      modifies this`finished, this`timers, this`result
      ensures Life() == G.Finish(old(Life()), stdout)
    {
      finished := true;
      timers := G.Timers(false, false, false, false);
      if result.None? {
        result := Some(G.Result(!aborted && code == Some(0), stdout, if aborted then None else code));
      }
    }

    /** The first part of a check: it goes on when an answer comes. */
    method Observe()
      modifies this`timers, this`phase, this`groupPending, this`groupDiagnostic
      ensures Life() == G.Observe(old(Life()))
      ensures groupDiagnostic == if G.FindsNoGroup(old(Life()), Life()) then G.NO_GROUP else old(groupDiagnostic)
    {
      if finished || !phase.Resting? {
        return;
      }
      timers := timers.(poll := false);
      if pid.Some? {
        phase := G.AskingGroup;
      } else {
        phase, groupPending, groupDiagnostic := G.AskingHolders, false, G.NO_GROUP;
      }
    }

    method Abort()
      modifies this`aborted, this`signals, this`timers, this`phase, this`groupPending, this`groupDiagnostic
      ensures Life() == G.Abort(old(Life()))
      ensures groupDiagnostic == if G.FindsNoGroup(old(Life()), Life()) then G.NO_GROUP else old(groupDiagnostic)
    {
      if aborted || finished {
        return;
      }
      aborted := true;
      Send(G.Term);
      timers := timers.(kill := true, confirm := true);
      Observe();
    }

    /** What is still blocked is reported when it is news. */
    method ReportBlocked()
      modifies this`reports
      ensures reports == G.Reported(old(reports), Life(), G.ReportOf(Life(), groupDiagnostic, holders))
    {
      if !blocked || finished {
        return;
      }
      var report := G.ReportOf(Life(), groupDiagnostic, holders);
      if reports == [] || reports[|reports| - 1] != report {
        reports := reports + [report];
      }
    }

    /** The last part of a check. */
    method EndCheck(alive: bool)
      modifies this
      ensures Life() == G.EndCheck(old(Life()), alive, old(stdout))
      ensures reports == G.Reported(old(reports), Life(), G.ReportOf(Life(), groupDiagnostic, holders))
      ensures unchanged(`bytes, `stdout, `groupDiagnostic, `holders)
    {
      phase := G.Resting;
      assert Life() == old(Life()).(phase := G.Resting);
      if finished {
        return;
      }
      if exited && !alive && (aborted || closed) {
        Finish();
        return;
      }
      ReportBlocked();
      timers := timers.(poll := true);
    }

    // ---- the events ----------------------------------------------------------------------------

    method OnExit(value: Option<int>)
      requires Ready(G.Exit(value))
      modifies this
      ensures State() == G.Step(old(State()), G.Exit(value))
      ensures G.Valid(Life()) && G.Explained(old(Life()), G.Exit(value), Life())
    {
      G.StepKeepsValid(State(), G.Exit(value));
      exited, code := true, value;
      assert Life() == old(Life()).(exited := true, code := value);
      Observe();
    }

    method OnClose()
      requires Ready(G.Close)
      modifies this
      ensures State() == G.Step(old(State()), G.Close)
      ensures G.Valid(Life()) && G.Explained(old(Life()), G.Close, Life())
    {
      G.StepKeepsValid(State(), G.Close);
      closed := true;
      Observe();
    }

    /** Only a failed spawn proves that no child exists. */
    method OnError()
      requires Ready(G.Error)
      modifies this
      ensures State() == G.Step(old(State()), G.Error)
      ensures G.Valid(Life()) && G.Explained(old(Life()), G.Error, Life())
    {
      if pid.None? {
        exited := true;
        Finish();
      } else {
        Abort();
      }
      G.StepKeepsValid(old(State()), G.Error);
    }

    /** Output over the limit is counted, not kept, and stops the command. */
    method Take(chunk: string, size: nat, output: bool)
      modifies this
      ensures State() == G.Step(old(State()), G.Data(chunk, size, output))
    {
      bytes := bytes + size;
      assert Life() == old(Life());
      if bytes > G.OUTPUT_LIMIT {
        Abort();
        assert Life() == G.LifeAfter(old(State()), G.Data(chunk, size, output));
        return;
      }
      if output {
        stdout := stdout + chunk;
      }
    }

    method Collect(chunk: string, size: nat, output: bool)
      requires Ready(G.Data(chunk, size, output))
      modifies this
      ensures State() == G.Step(old(State()), G.Data(chunk, size, output))
      ensures G.Valid(Life()) && G.Explained(old(Life()), G.Data(chunk, size, output), Life())
    {
      G.StepKeepsValid(State(), G.Data(chunk, size, output));
      Take(chunk, size, output);
      assert Life() == State().life;
    }

    method OnDeadline()
      requires Ready(G.Deadline)
      modifies this
      ensures State() == G.Step(old(State()), G.Deadline)
      ensures G.Valid(Life()) && G.Explained(old(Life()), G.Deadline, Life())
    {
      G.StepKeepsValid(State(), G.Deadline);
      timers := timers.(deadline := false);
      assert Life() == old(Life()).(timers := old(Life()).timers.(deadline := false));
      Abort();
      assert Life() == G.LifeAfter(old(State()), G.Deadline);
    }

    method OnKillTimer()
      requires Ready(G.KillTimer)
      modifies this
      ensures State() == G.Step(old(State()), G.KillTimer)
      ensures G.Valid(Life()) && G.Explained(old(Life()), G.KillTimer, Life())
    {
      G.StepKeepsValid(State(), G.KillTimer);
      timers := timers.(kill := false);
      Send(G.Kill);
    }

    method OnConfirmTimer()
      requires Ready(G.ConfirmTimer)
      modifies this
      ensures State() == G.Step(old(State()), G.ConfirmTimer)
      ensures G.Valid(Life()) && G.Explained(old(Life()), G.ConfirmTimer, Life())
    {
      G.StepKeepsValid(State(), G.ConfirmTimer);
      timers, blocked := timers.(confirm := false), true;
      ReportBlocked();
    }

    method OnPollTimer()
      requires Ready(G.PollTimer)
      modifies this
      ensures State() == G.Step(old(State()), G.PollTimer)
      ensures G.Valid(Life()) && G.Explained(old(Life()), G.PollTimer, Life())
    {
      G.StepKeepsValid(State(), G.PollTimer);
      timers := timers.(poll := false);
      Observe();
    }

    method OnGroupAnswer(alive: bool, diagnostic: string)
      requires Ready(G.GroupAnswer(alive, diagnostic))
      modifies this
      ensures State() == G.Step(old(State()), G.GroupAnswer(alive, diagnostic))
      ensures G.Valid(Life()) && G.Explained(old(Life()), G.GroupAnswer(alive, diagnostic), Life())
    {
      G.StepKeepsValid(State(), G.GroupAnswer(alive, diagnostic));
      groupPending, groupDiagnostic := alive, diagnostic;
      assert Life() == old(Life()).(groupPending := alive);
      if alive {
        EndCheck(true);
      } else {
        phase := G.AskingHolders;
      }
    }

    method OnHoldersAnswer(live: bool, processes: seq<nat>)
      requires Ready(G.HoldersAnswer(live, processes))
      modifies this
      ensures State() == G.Step(old(State()), G.HoldersAnswer(live, processes))
      ensures G.Valid(Life()) && G.Explained(old(Life()), G.HoldersAnswer(live, processes), Life())
    {
      G.StepKeepsValid(State(), G.HoldersAnswer(live, processes));
      holders := processes;
      EndCheck(live);
    }
  }
}
