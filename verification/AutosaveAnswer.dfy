/** What an autosave command answers, told from the events that reached it. */
module AutosaveAnswer {
  import opened Options
  import opened AutosaveGit

  // ---- told from the events --------------------------------------------------------------------

  /** Event `k` is one that stops a command: its deadline, an error of its process, or output beyond the limit. */
  predicate Stops(events: seq<Event>, k: nat)
    requires k < |events|
  {
    events[k].Deadline? || events[k].Error? || (events[k].Data? && Bytes(events, k + 1) > 33_554_432)
  }

  ghost predicate Stopped(events: seq<Event>, n: nat)
    requires n <= |events|
  {
    exists k: nat :: k < n && Stops(events, k)
  }

  ghost predicate ExitedWith(events: seq<Event>, n: nat, value: Option<int>)
    requires n <= |events|
  {
    exists k: nat :: k < n && events[k] == Exit(value)
  }

  /** The chunks of standard output that came before the limit was passed. */
  function Kept(events: seq<Event>, n: nat): string
    requires n <= |events|
  {
    if n == 0 then ""
    else Kept(events, n - 1) + if events[n - 1].Data? && events[n - 1].output && Bytes(events, n) <= 33_554_432 then events[n - 1].chunk else ""
  }

  lemma {:induction false} BytesGrow(events: seq<Event>, m: nat, n: nat)
    requires m <= n <= |events|
    ensures Bytes(events, m) <= Bytes(events, n)
  {
    if m < n {
      BytesGrow(events, m, n - 1);
    }
  }

  /** Within the limit that is everything. */
  lemma {:induction false} KeptIsWritten(events: seq<Event>, n: nat)
    requires n <= |events| && Bytes(events, n) <= 33_554_432
    ensures Kept(events, n) == Written(events, n)
  {
    if n > 0 {
      BytesGrow(events, n - 1, n);
      KeptIsWritten(events, n - 1);
    }
  }

  // ---- what the state holds of it --------------------------------------------------------------

  /** Standard output is what came within the limit, aborted or not, settled or not. */
  lemma {:induction false} OutputIsKept(pid: Option<nat>, states: seq<Command>, events: seq<Event>, n: nat)
    requires Run(pid, states, events) && n < |states|
    ensures states[n].output == Output(Bytes(events, n), Kept(events, n))
  {
    if n > 0 {
      OutputIsKept(pid, states, events, n - 1);
      assert Goes(states, events, n - 1);
      assert Kept(events, n - 1) + "" == Kept(events, n - 1);
    }
  }

  predicate SameExit(l: Life, after: Life) {
    after.exited == l.exited && after.code == l.code
  }

  lemma AbortKeepsExit(l: Life)
    ensures SameExit(l, Abort(l))
  {
    if !l.aborted && !l.finished {
      var sent := Send(l.(aborted := true), Term);
      assert SameExit(l, sent);
    }
  }

  lemma EndKeepsExit(l: Life, alive: bool, stdout: string)
    ensures SameExit(l, EndCheck(l, alive, stdout))
  {
  }

  lemma TroubleKeepsExit(c: Command, e: Event)
    requires c.life.pid.Some? && (e.Error? || e.Data? || e.Deadline?)
    ensures SameExit(c.life, LifeAfter(c, e))
  {
    AbortKeepsExit(if e.Deadline? then c.life.(timers := c.life.timers.(deadline := false)) else c.life);
  }

  lemma AnswerKeepsExit(c: Command, e: Event)
    requires e.GroupAnswer? || e.HoldersAnswer?
    ensures SameExit(c.life, LifeAfter(c, e))
  {
    if e.HoldersAnswer? {
      EndKeepsExit(c.life, e.live, c.output.stdout);
    } else {
      EndKeepsExit(c.life.(groupPending := true), true, c.output.stdout);
    }
  }

  lemma TimerKeepsExit(c: Command, e: Event)
    requires e.KillTimer? || e.ConfirmTimer? || e.PollTimer?
    ensures SameExit(c.life, LifeAfter(c, e))
  {
  }

  lemma ExitIsSeen(c: Command, e: Event)
    requires c.life.pid.Some?
    ensures LifeAfter(c, e).exited <==> c.life.exited || e.Exit?
    ensures LifeAfter(c, e).code == if e.Exit? then e.value else c.life.code
  {
    if e.Error? || e.Data? || e.Deadline? {
      TroubleKeepsExit(c, e);
    } else if e.GroupAnswer? || e.HoldersAnswer? {
      AnswerKeepsExit(c, e);
    } else if !e.Exit? && !e.Close? {
      TimerKeepsExit(c, e);
    }
  }

  /** A spawned command has seen at most one exit, and holds its code. */
  lemma {:induction false} ExitIsHeld(pid: Option<nat>, states: seq<Command>, events: seq<Event>, n: nat)
    requires Run(pid, states, events) && n < |states| && pid.Some?
    ensures states[n].life.exited <==> exists k: nat :: k < n && events[k].Exit?
    ensures forall k: nat :: k < n && events[k].Exit? ==> events[k] == Exit(states[n].life.code)
  {
    if n > 0 {
      ExitIsHeld(pid, states, events, n - 1);
      RunIsValid(pid, states, events, n - 1);
      assert Goes(states, events, n - 1);
      ExitIsSeen(states[n - 1], events[n - 1]);
      assert events[n - 1].Exit? ==> !states[n - 1].life.exited;
      if states[n - 1].life.exited {
        var k: nat :| k < n - 1 && events[k].Exit?;
        assert k < n;
      }
    }
  }

  lemma StopIsSeen(c: Command, e: Event)
    requires c.life.pid.Some? && Valid(c.life) && Enabled(c.life, e) && !LifeAfter(c, e).finished
    ensures !c.life.finished
    ensures LifeAfter(c, e).aborted <==>
            c.life.aborted || e.Deadline? || e.Error? || (e.Data? && c.output.bytes + e.size > 33_554_432)
  {
    StepKeepsValid(c, e);
    if c.life.finished {
      SettledStays(c, e);
    }
  }

  /** Until it settles, a spawned command is aborted exactly when one of those events came. */
  lemma {:induction false} AbortedIff(pid: Option<nat>, states: seq<Command>, events: seq<Event>, n: nat)
    requires Run(pid, states, events) && n < |states| && pid.Some? && !states[n].life.finished
    ensures states[n].life.aborted <==> Stopped(events, n)
  {
    if n > 0 {
      RunIsValid(pid, states, events, n - 1);
      assert Goes(states, events, n - 1);
      StopIsSeen(states[n - 1], events[n - 1]);
      AbortedIff(pid, states, events, n - 1);
      OutputIsKept(pid, states, events, n - 1);
      assert Stopped(events, n) <==> Stopped(events, n - 1) || Stops(events, n - 1) by {
        if k: nat :| k < n && Stops(events, k) {
          assert k < n - 1 || k == n - 1;
        }
      }
    }
  }

  lemma SettlesWith(c: Command, e: Event)
    requires c.life.pid.Some? && Valid(c.life) && Enabled(c.life, e) && !c.life.finished && LifeAfter(c, e).finished
    ensures c.life.exited
    ensures LifeAfter(c, e).result == Some(Result(!c.life.aborted && c.life.code == Some(0), c.output.stdout,
                                                  if c.life.aborted then None else c.life.code))
  {
    StepKeepsValid(c, e);
  }

  /**
   * The answer of a spawned command, whenever it settles: ok exactly when nothing stopped it and it exited with 0,
   * the code with which it exited unless something stopped it, and all that it wrote, of a failed command too.
   */
  lemma AnswerIs(pid: Option<nat>, states: seq<Command>, events: seq<Event>, n: nat)
    requires Run(pid, states, events) && pid.Some? && n < |events|
    requires !states[n].life.finished && states[n + 1].life.finished
    ensures states[n + 1].life.result.Some?
    ensures var r := states[n + 1].life.result.value;
            && (r.ok <==> !Stopped(events, n) && ExitedWith(events, n, Some(0)))
            && (Stopped(events, n) ==> r.code.None?)
            && (!Stopped(events, n) ==> ExitedWith(events, n, r.code) && r.stdout == Written(events, n))
            && r.stdout == Kept(events, n)
  {
    RunIsValid(pid, states, events, n);
    assert Goes(states, events, n);
    SettlesWith(states[n], events[n]);
    ExitIsHeld(pid, states, events, n);
    AbortedIff(pid, states, events, n);
    OutputIsKept(pid, states, events, n);
    var k: nat :| k < n && events[k].Exit?;
    assert events[k] == Exit(states[n].life.code);
    if !Stopped(events, n) {
      WithinTheLimit(events, n);
      KeptIsWritten(events, n);
    }
  }

  lemma {:induction false} WithinTheLimit(events: seq<Event>, n: nat)
    requires n <= |events| && !Stopped(events, n)
    ensures Bytes(events, n) <= 33_554_432
  {
    if n > 0 {
      assert !Stops(events, n - 1);
      assert forall k: nat :: k < n - 1 ==> k < n && !Stops(events, k);
      WithinTheLimit(events, n - 1);
    }
  }

  /** A command that could not be spawned answers without a code, and not ok. */
  lemma FailedSpawnIsNotOk(states: seq<Command>, events: seq<Event>, n: nat)
    requires Run(None, states, events) && n < |events| && !states[n].life.finished && states[n + 1].life.finished
    ensures events[n].Error? && states[n + 1].life.result.Some?
    ensures !states[n + 1].life.result.value.ok && states[n + 1].life.result.value.code.None?
  {
    RunIsValid(None, states, events, n);
    assert Goes(states, events, n);
    StepKeepsValid(states[n], events[n]);
  }

  /** It answers as soon as the error says so. */
  lemma FailedSpawnSettles(states: seq<Command>, events: seq<Event>, n: nat)
    requires Run(None, states, events) && n < |events| && events[n].Error?
    ensures states[n + 1].life.finished
  {
    RunIsValid(None, states, events, n);
    assert Goes(states, events, n);
  }

  /** A timer that has fired is not set again by its firing. */
  lemma TimersFireOnce(c: Command, e: Event)
    requires Valid(c.life) && Enabled(c.life, e)
    ensures e.Deadline? ==> !LifeAfter(c, e).timers.deadline
    ensures e.KillTimer? && c.life.aborted ==> !LifeAfter(c, e).timers.kill
    ensures e.ConfirmTimer? ==> !LifeAfter(c, e).timers.confirm
    ensures e.PollTimer? ==> !LifeAfter(c, e).timers.poll && !LifeAfter(c, e).phase.Resting?
  {
  }
}
