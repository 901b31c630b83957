/** How a process group is observed and stopped on Linux. */
module ProcessGroups {
  // Every system call reads the process table at an instant of its own, so the table may change between any
  // two of them.

  import opened Options
  import opened ProcessTable

  /**
   * Call number `n` happens at the instant `at(n)`. `listing(n)` is what `readdir` of `/proc` gives when
   * it begins with call `n` and ends with the next. A stat that cannot be read is in `hidden`; one that was
   * opened in time, but is read by call `n` when its process is gone, is `cut(n)`.
   */
  datatype Env = Env(tr: nat -> Os, at: nat -> nat, listing: nat -> seq<nat>, hidden: set<nat>, cut: nat -> bool)

  ghost predicate PresentAll(env: Env, pid: nat, t: nat, u: nat) {
    forall v :: t <= v <= u ==> pid in env.tr(v).procs
  }

  ghost predicate Observes(env: Env) {
    && Trace(env.tr)
    && (forall i: nat, j: nat :: i <= j ==> env.at(i) <= env.at(j))
    && (forall i: nat, pid: nat :: PresentAll(env, pid, env.at(i), env.at(i + 1)) ==> pid in env.listing(i))
  }

  function Now(env: Env, i: nat): Os {
    env.tr(env.at(i))
  }

  /** How the starter can tell the leader's incarnation. */
  datatype Proof = Handle | Recorded | Unrecorded

  /** The leader of `group`, at the pid that numbers it; `born` is its true start. */
  datatype Leader = Leader(pid: nat, group: nat, born: nat, proof: Proof)

  ghost predicate Led(os: Os, leader: Leader) {
    Reserved(os, leader.group, leader.pid, leader.born)
  }

  datatype Status = Exists | Gone | Unknown

  datatype ProcessState = Absentee | Zombie | Live

  predicate RunsIn(os: Os, pid: nat, number: nat) {
    pid in os.procs && Numbered(os, os.procs[pid], number) && os.procs[pid].running
  }

  predicate RunsAt(env: Env, i: nat, pid: nat) {
    pid in Now(env, i).procs && Now(env, i).procs[pid].running
  }

  /** The process was gone when its opened stat was read. */
  predicate CutOff(env: Env, i: nat, pid: nat) {
    pid !in Now(env, i).procs && env.cut(i)
  }

  method ReadState(env: Env, pid: nat, i: nat) returns (state: ProcessState, j: nat)
    ensures i < j
    ensures !state.Absentee? ==> pid in Now(env, i).procs
    ensures state.Absentee? ==> exists k :: i <= k < j && pid !in Now(env, k).procs
    ensures state.Zombie? <==> pid in Now(env, i).procs && pid !in env.hidden && pid in Now(env, i + 1).procs && !RunsAt(env, i + 1, pid)
    // What cannot be told counts as live.
    ensures state.Live? <==> pid in Now(env, i).procs && (pid in env.hidden || RunsAt(env, i + 1, pid) || CutOff(env, i + 1, pid))
    ensures (forall k :: i <= k <= j ==> Now(env, k) == Now(env, i)) ==> state == StateNow(Now(env, i), env.hidden, pid)
  {
    j := i + 1;
    if pid !in Now(env, i).procs {
      return Absentee, j;
    }
    j := j + 1;
    if pid in env.hidden {
      return Live, j;
    }
    if pid !in Now(env, i + 1).procs {
      return if env.cut(i + 1) then Live else Absentee, j;
    }
    state := if Now(env, i + 1).procs[pid].running then Live else Zombie;
  }

  function StateNow(os: Os, hidden: set<nat>, pid: nat): ProcessState {
    if pid !in os.procs then Absentee else if pid in hidden || os.procs[pid].running then Live else Zombie
  }

  /** What `groupStatus` answers while the table holds still. */
  function StatusNow(os: Os, hidden: set<nat>, leader: Leader): Status {
    var state := StateNow(os, hidden, leader.pid);
    var answer := if Answers(os, leader.pid) then Exists else Gone;
    match leader.proof
    case Handle => if !Absent(os, leader.pid, leader.born) || state.Absentee? then answer else Gone
    case Unrecorded => if answer.Exists? then Unknown else Gone
    case Recorded =>
      if state.Absentee? then answer
      else if leader.pid in hidden then Unknown
      else if os.procs[leader.pid].start != leader.born then Gone
      else answer
  }

  /** A process at the leader's pid that is another one means the group has ended. */
  lemma ReusedMeansEnded(env: Env, leader: Leader, i: nat, k: nat)
    requires Observes(env) && Led(Now(env, i), leader) && i <= k
    requires leader.pid in Now(env, k).procs && Now(env, k).procs[leader.pid].start != leader.born
    ensures NoMember(Now(env, k), leader.group)
  {
    KeepsReserved(env.tr, env.at(i), env.at(k), leader.group, leader.pid, leader.born);
  }

  lemma SilentMeansEnded(env: Env, leader: Leader, i: nat, k: nat)
    requires Observes(env) && Led(Now(env, i), leader) && i <= k
    requires !Answers(Now(env, k), leader.pid)
    ensures NoMember(Now(env, k), leader.group)
  {
    Keeps(env.tr, env.at(i), env.at(k), leader.group, leader.pid);
    forall pid
      ensures !MemberOf(Now(env, k), pid, leader.group)
    {
      assert pid in Now(env, k).procs ==> !Numbered(Now(env, k), Now(env, k).procs[pid], leader.pid);
    }
  }

  lemma StaysEnded(env: Env, g: nat, number: nat, i: nat, k: nat)
    requires Observes(env) && i <= k && Known(Now(env, i), g, number)
    ensures Known(Now(env, k), g, number)
    ensures NoMember(Now(env, i), g) ==> NoMember(Now(env, k), g)
    ensures NoRunner(Now(env, i), g) ==> NoRunner(Now(env, k), g)
    ensures Doomed(Now(env, i), g) ==> Doomed(Now(env, k), g)
  {
    Keeps(env.tr, env.at(i), env.at(k), g, number);
  }

  /** At call `k` nothing at the leader's pid spoke against it: it was the leader, as read, or no process. */
  predicate VerifiedAt(env: Env, leader: Leader, k: nat) {
    && !leader.proof.Unrecorded?
    && (leader.pid in Now(env, k).procs ==>
          Now(env, k).procs[leader.pid].start == leader.born && (leader.proof.Recorded? ==> leader.pid !in env.hidden))
  }

  ghost predicate Verified(env: Env, leader: Leader, i: nat, j: nat) {
    exists k: nat :: i <= k < j && VerifiedAt(env, leader, k)
  }

  lemma AbsentIsVerified(env: Env, leader: Leader, i: nat, from: nat, j: nat)
    requires !leader.proof.Unrecorded? && i <= from && exists k :: from <= k < j && leader.pid !in Now(env, k).procs
    ensures Verified(env, leader, i, j)
  {
    var k :| from <= k < j && leader.pid !in Now(env, k).procs;
    assert VerifiedAt(env, leader, k);
  }

  method GroupStatus(env: Env, leader: Leader, i: nat) returns (status: Status, j: nat)
    requires Observes(env) && Led(Now(env, i), leader)
    ensures i < j
    ensures status.Gone? ==> NoMember(Now(env, j), leader.group)
    ensures status.Exists? ==> Verified(env, leader, i, j)
    ensures leader.proof.Unrecorded? ==> j == i + 1 && status == if Answers(Now(env, i), leader.pid) then Unknown else Gone
    ensures (forall k :: i <= k <= j ==> Now(env, k) == Now(env, i)) ==> status == StatusNow(Now(env, i), env.hidden, leader)
  {
    var pid := leader.pid;
    j := i;
    ghost var seen := i;
    if leader.proof.Handle? {
      var held := !Absent(Now(env, j), pid, leader.born);
      j := j + 1;
      assert held ==> VerifiedAt(env, leader, i);
      if !held {
        AbsentForGood(env.tr, env.at(i), env.at(j), pid, leader.born);
        seen := j;
        var state;
        state, j := ReadState(env, pid, j);
        if !state.Absentee? {
          ReusedMeansEnded(env, leader, i, seen);
          Later(env, leader, i, seen, j);
          return Gone, j;
        }
        AbsentIsVerified(env, leader, i, seen, j);
      }
    } else if leader.proof.Recorded? {
      var state;
      state, j := ReadState(env, pid, j);
      if !state.Absentee? {
        seen := j;
        j := j + 1;
        if pid in env.hidden || pid !in Now(env, j - 1).procs {
          return Unknown, j;
        }
        if Now(env, j - 1).procs[pid].start != leader.born {
          ReusedMeansEnded(env, leader, i, seen);
          Later(env, leader, i, seen, j);
          return Gone, j;
        }
        assert VerifiedAt(env, leader, seen);
      } else {
        AbsentIsVerified(env, leader, i, i, j);
      }
    }
    seen := j;
    j := j + 1;
    if Answers(Now(env, j - 1), pid) {
      return if leader.proof.Unrecorded? then Unknown else Exists, j;
    }
    SilentMeansEnded(env, leader, i, seen);
    Later(env, leader, i, seen, j);
    return Gone, j;
  }

  lemma Later(env: Env, leader: Leader, i: nat, k: nat, j: nat)
    requires Observes(env) && Led(Now(env, i), leader) && i <= k <= j && NoMember(Now(env, k), leader.group)
    ensures NoMember(Now(env, j), leader.group)
  {
    StaysEnded(env, leader.group, leader.pid, i, k);
    StaysEnded(env, leader.group, leader.pid, k, j);
  }

  /** Some call between `i` and `j` found a process running in a group by that number, or could not tell. */
  ghost predicate FoundRunner(env: Env, number: nat, i: nat, j: nat) {
    exists k: nat, pid: nat :: i <= k < j && MayRun(env, k, pid, number)
  }

  predicate MayRun(env: Env, k: nat, pid: nat, number: nat) {
    RunsIn(Now(env, k), pid, number) || (pid in env.hidden && pid in Now(env, k).procs)
  }

  /** The table does not change from call `i` to call `j`. */
  ghost predicate Still(env: Env, i: nat, j: nat) {
    forall t :: env.at(i) <= t <= env.at(j) ==> env.tr(t) == Now(env, i)
  }

  lemma StillAt(env: Env, i: nat, k: nat, j: nat)
    requires Observes(env) && Still(env, i, j) && i <= k <= j
    ensures Now(env, k) == Now(env, i) && Still(env, i, k) && Still(env, k, j)
  {
    assert env.at(i) <= env.at(k) <= env.at(j);
  }

  /** Some process runs under the number, or cannot be told. */
  predicate SomeMayRun(os: Os, hidden: set<nat>, number: nat) {
    exists pid :: pid in os.procs && (pid in hidden || RunsIn(os, pid, number))
  }

  /** The scan that lists with call `i` reads a process that runs under the number, or cannot be told. */
  ghost predicate ScanFinds(env: Env, number: nat, i: nat) {
    exists k :: 0 <= k < |env.listing(i)| && MayRun(env, i + 1 + k, env.listing(i)[k], number)
  }

  /** Whatever runs in the group at call `j` was forked before call `begun`. */
  ghost predicate NoneForkedSince(env: Env, g: nat, begun: nat, j: nat) {
    forall pid :: RunnerOf(Now(env, j), pid, g) ==> Now(env, j).procs[pid].start < Now(env, begun).clock
  }

  /**
   * A scan that reads one pid at a time. It misses no running member of a group that was sent SIGKILL, and of
   * any other group only what was forked since it began.
   */
  method LiveMember(env: Env, number: nat, ghost g: nat, i: nat) returns (live: bool, j: nat)
    requires Observes(env)
    ensures i < j
    ensures live ==> FoundRunner(env, number, i, j)
    ensures live <==> ScanFinds(env, number, i)
    ensures !live ==> j == i + 1 + |env.listing(i)|
    ensures !live && Known(Now(env, i), g, number) ==> (NoRunner(Now(env, j), g) <==> NoneForkedSince(env, g, i, j))
    ensures !live && Known(Now(env, i), g, number) && Doomed(Now(env, i), g) ==> NoRunner(Now(env, j), g)
    ensures Still(env, i, j) ==> live == SomeMayRun(Now(env, i), env.hidden, number)
  {
    var pids := env.listing(i);
    j := i + 1;
    for n := 0 to |pids|
      invariant j == i + 1 + n
      invariant forall k :: 0 <= k < n ==> !MayRun(env, i + 1 + k, pids[k], number)
    {
      var os, pid := Now(env, j), pids[n];
      j := j + 1;
      if pid !in os.procs {
        continue;
      }
      if pid in env.hidden || (Numbered(os, os.procs[pid], number) && os.procs[pid].running) {
        assert MayRun(env, j - 1, pid, number);
        if Still(env, i, j) {
          StillAt(env, i, j - 1, j);
        }
        return true, j;
      }
    }
    live := false;
    if Still(env, i, j) {
      ScanSeesAll(env, number, pids, i, j);
    }
    if Known(Now(env, i), g, number) {
      OnlyNewcomersAreMissed(env, number, g, i, j);
    }
    if Known(Now(env, i), g, number) && Doomed(Now(env, i), g) {
      forall pid
        ensures !RunnerOf(Now(env, j), pid, g)
      {
        if RunnerOf(Now(env, j), pid, g) {
          RunnerIsRead(env, number, g, pid, pids, i, j);
        }
      }
    }
  }

  /** In a still table a scan reads every process there is. */
  lemma ScanSeesAll(env: Env, number: nat, pids: seq<nat>, i: nat, j: nat)
    requires Observes(env) && pids == env.listing(i) && j == i + 1 + |pids| && Still(env, i, j)
    requires forall k :: 0 <= k < |pids| ==> !MayRun(env, i + 1 + k, pids[k], number)
    ensures !SomeMayRun(Now(env, i), env.hidden, number)
  {
    forall pid | pid in Now(env, i).procs
      ensures !(pid in env.hidden || RunsIn(Now(env, i), pid, number))
    {
      assert env.at(i + 1) <= env.at(j);
      assert PresentAll(env, pid, env.at(i), env.at(i + 1));
      assert pid in env.listing(i);
      var k :| 0 <= k < |pids| && pids[k] == pid;
      StillAt(env, i, i + 1 + k, j);
      assert !MayRun(env, i + 1 + k, pids[k], number);
    }
  }

  /** What runs at the end, and was forked before the scan began, was listed and ran when it was read. */
  lemma OnlyNewcomersAreMissed(env: Env, number: nat, g: nat, i: nat, j: nat)
    requires Observes(env) && j == i + 1 + |env.listing(i)| && Known(Now(env, i), g, number)
    requires !ScanFinds(env, number, i)
    ensures NoRunner(Now(env, j), g) <==> NoneForkedSince(env, g, i, j)
  {
    forall pid | RunnerOf(Now(env, j), pid, g)
      ensures Now(env, j).procs[pid].start >= Now(env, i).clock
    {
      if Now(env, j).procs[pid].start < Now(env, i).clock {
        OldRunnerIsRead(env, number, g, pid, i, j);
      }
    }
  }

  lemma OldRunnerIsRead(env: Env, number: nat, g: nat, pid: nat, i: nat, j: nat)
    requires Observes(env) && j == i + 1 + |env.listing(i)| && Known(Now(env, i), g, number)
    requires RunnerOf(Now(env, j), pid, g) && Now(env, j).procs[pid].start < Now(env, i).clock
    ensures ScanFinds(env, number, i)
  {
    forall v | env.at(i) <= v <= env.at(j)
      ensures RunsIn(env.tr(v), pid, number)
    {
      Keeps(env.tr, env.at(i), v, g, number);
      RanSince(env.tr, env.at(i), v, env.at(j), g, number, pid);
    }
    assert env.at(i + 1) <= env.at(j);
    assert PresentAll(env, pid, env.at(i), env.at(i + 1));
    assert pid in env.listing(i);
    var k :| 0 <= k < |env.listing(i)| && env.listing(i)[k] == pid;
    assert MayRun(env, i + 1 + k, env.listing(i)[k], number);
  }

  /** A running member of a doomed group is in every listing and runs whenever it is read. */
  lemma RunnerIsRead(env: Env, number: nat, g: nat, pid: nat, pids: seq<nat>, i: nat, j: nat)
    requires Observes(env) && pids == env.listing(i) && j == i + 1 + |pids|
    requires Known(Now(env, i), g, number) && Doomed(Now(env, i), g) && RunnerOf(Now(env, j), pid, g)
    ensures exists k :: 0 <= k < |pids| && RunsIn(Now(env, i + 1 + k), pids[k], number)
  {
    forall v | env.at(i) <= v <= env.at(j)
      ensures RunsIn(env.tr(v), pid, number)
    {
      Keeps(env.tr, env.at(i), v, g, number);
      RanAllAlong(env.tr, v, env.at(j), g, number, pid);
    }
    assert PresentAll(env, pid, env.at(i), env.at(i + 1));
    assert pid in pids;
    var k :| 0 <= k < |pids| && pids[k] == pid;
    assert RunsIn(Now(env, i + 1 + k), pids[k], number);
  }

  /** That nothing runs at call `j` is right, but exactly for what was forked since call `begun`. */
  ghost predicate StoppedButForNew(env: Env, leader: Leader, begun: nat, j: nat) {
    begun <= j && (NoRunner(Now(env, j), leader.group) <==> NoneForkedSince(env, leader.group, begun, j))
  }

  /** Without a recorded start, `groupRunning` answers by one probe of the number and a scan. */
  ghost predicate UnrecordedRuns(env: Env, pid: nat, i: nat) {
    Answers(Now(env, i), pid) && ScanFinds(env, pid, i + 1)
  }

  /** The answer of one more look, with call `i`, that ends with call `j`. */
  ghost predicate LookedAgain(env: Env, pid: nat, i: nat, stopped: bool, j: nat) {
    (stopped <==> !UnrecordedRuns(env, pid, i)) && (Answers(Now(env, i), pid) && stopped ==> j == i + 2 + |env.listing(i + 1)|)
  }

  /** A look with the calls from `i` to `j` finds the group gone, or its scan finds nothing that runs. */
  ghost predicate LookEnds(env: Env, leader: Leader, i: nat, j: nat) {
    || NoMember(Now(env, j), leader.group)
    || exists k: nat :: i < k && j == k + 1 + |env.listing(k)| && !ScanFinds(env, leader.pid, k)
  }

  /** `begun` is the call from which on a false answer may miss what is forked. */
  method GroupRunning(env: Env, leader: Leader, i: nat) returns (running: bool, j: nat, ghost begun: nat)
    requires Observes(env) && Led(Now(env, i), leader)
    ensures i < j && i <= begun <= j
    ensures !running ==> StoppedButForNew(env, leader, begun, j) && LookEnds(env, leader, i, j)
    ensures leader.proof.Unrecorded? ==> LookedAgain(env, leader.pid, i, !running, j)
    ensures running ==> FoundRunner(env, leader.pid, i, j)
    ensures !running && Doomed(Now(env, i), leader.group) ==> NoRunner(Now(env, j), leader.group)
    ensures Still(env, i, j) ==> running == RunningNow(Now(env, i), env.hidden, leader)
  {
    var status;
    status, j := GroupStatus(env, leader, i);
    if status.Gone? {
      if Still(env, i, j) {
        StatusHeld(env, leader, i, j, status);
      }
      return false, j, j;
    }
    ghost var k := j;
    begun := j;
    StaysEnded(env, leader.group, leader.pid, i, j);
    running, j := LiveMember(env, leader.pid, leader.group, j);
    if Still(env, i, j) {
      StillAt(env, i, k, j);
      StatusHeld(env, leader, i, k, status);
    }
  }

  lemma StatusHeld(env: Env, leader: Leader, i: nat, j: nat, status: Status)
    requires Observes(env) && i <= j && Still(env, i, j)
    requires (forall k :: i <= k <= j ==> Now(env, k) == Now(env, i)) ==> status == StatusNow(Now(env, i), env.hidden, leader)
    ensures status == StatusNow(Now(env, i), env.hidden, leader)
  {
    forall k | i <= k <= j
      ensures Now(env, k) == Now(env, i)
    {
      StillAt(env, i, k, j);
    }
  }

  /** What `groupRunning` answers while the table holds still. */
  predicate RunningNow(os: Os, hidden: set<nat>, leader: Leader) {
    !StatusNow(os, hidden, leader).Gone? && SomeMayRun(os, hidden, leader.pid)
  }

  /** Call `k` sent SIGKILL to the group by that number. */
  ghost predicate KillSent(env: Env, k: nat, number: nat) {
    env.tr(env.at(k) + 1) == After(Now(env, k), Kill(number)) && env.at(k) < env.at(k + 1)
  }

  /** If call `killed` sent SIGKILL to the group, none of it can fork by call `j`. */
  ghost predicate KilledBy(env: Env, leader: Leader, killed: Option<nat>, j: nat) {
    killed.Some? && KillSent(env, killed.value, leader.pid) ==> Doomed(Now(env, j), leader.group)
  }

  lemma StaysKilled(env: Env, leader: Leader, killed: Option<nat>, i: nat, j: nat)
    requires Observes(env) && Led(Now(env, i), leader) && i <= j && KilledBy(env, leader, killed, i)
    ensures Led(Now(env, j), leader) && KilledBy(env, leader, killed, j)
  {
    StillLed(env, leader, i, j);
    StaysEnded(env, leader.group, leader.pid, i, j);
  }

  lemma SignalReaches(env: Env, leader: Leader, k: nat)
    requires Observes(env) && Led(Now(env, k), leader)
    ensures Led(Now(env, k + 1), leader) && KilledBy(env, leader, Some(k), k + 1)
  {
    StillLed(env, leader, k, k + 1);
    if KillSent(env, k, leader.pid) {
      KillReaches(env, leader, k);
    }
  }

  /** Each look at the group, with the calls from one of `marks` to the next, found something running. */
  ghost predicate FoundEach(env: Env, leader: Leader, marks: seq<nat>) {
    forall k :: 0 <= k < |marks| - 1 ==> marks[k] < marks[k + 1] && FoundRunner(env, leader.pid, marks[k], marks[k + 1])
  }

  /**
   * The group was looked at again and again, the last time until call `j`: until a look found that nothing runs, or
   * all `polls` were used up and `polls` + 1 looks had each found something running.
   */
  ghost predicate Polled(env: Env, leader: Leader, polls: nat, marks: seq<nat>, j: nat) {
    && 1 <= |marks| <= polls + 1 && FoundEach(env, leader, marks)
    && var last := marks[|marks| - 1];
       last < j && (LookEnds(env, leader, last, j) || (|marks| == polls + 1 && FoundRunner(env, leader.pid, last, j)))
  }

  /** From call `i` on. */
  ghost predicate WasPolled(env: Env, leader: Leader, polls: nat, i: nat, j: nat) {
    exists marks :: Polled(env, leader, polls, marks, j) && marks[0] == i
  }

  lemma OneMoreLook(env: Env, leader: Leader, marks: seq<nat>, from: nat, j: nat)
    requires marks != [] && FoundEach(env, leader, marks) && marks[|marks| - 1] == from
    requires from < j && FoundRunner(env, leader.pid, from, j)
    ensures FoundEach(env, leader, marks + [j])
  {
  }

  /** Wait until nothing is found running, or `polls` are used up. */
  method PollGroup(env: Env, leader: Leader, polls: nat, i: nat) returns (j: nat)
    requires Observes(env) && Led(Now(env, i), leader)
    ensures i < j && WasPolled(env, leader, polls, i, j)
  {
    var left := polls;
    var running;
    ghost var begun;
    ghost var from, marks: seq<nat> := i, [i];
    running, j, begun := GroupRunning(env, leader, i);
    while running && left > 0
      invariant i <= from < j && |marks| == polls - left + 1 && marks[0] == i && marks[|marks| - 1] == from
      invariant FoundEach(env, leader, marks)
      invariant if running then FoundRunner(env, leader.pid, from, j) else LookEnds(env, leader, from, j)
      decreases left
    {
      left := left - 1;
      StillLed(env, leader, i, j);
      OneMoreLook(env, leader, marks, from, j);
      from, marks := j, marks + [j];
      running, j, begun := GroupRunning(env, leader, j);
    }
    assert Polled(env, leader, polls, marks, j);
  }

  /** Call `sent` sends the signal. */
  method SendAndPoll(env: Env, leader: Leader, polls: nat, sent: nat) returns (j: nat)
    requires Observes(env) && Led(Now(env, sent), leader)
    ensures sent + 1 < j && Led(Now(env, j), leader) && KilledBy(env, leader, Some(sent), j)
    ensures WasPolled(env, leader, polls, sent + 1, j)
  {
    SignalReaches(env, leader, sent);
    j := PollGroup(env, leader, polls, sent + 1);
    StaysKilled(env, leader, Some(sent), sent + 1, j);
  }

  /** A group without a recorded start is only looked at: whether it stopped, by call `j`. */
  ghost predicate OnlyLooked(env: Env, pid: nat, i: nat, stopped: bool, j: nat) {
    if Answers(Now(env, i), pid) then LookedAgain(env, pid, i + 1, stopped, j) else stopped
  }

  /** The verdict of one more look, from call `from` on. */
  method LastLook(env: Env, leader: Leader, i: nat, from: nat) returns (stopped: bool, j: nat, ghost begun: nat)
    requires Observes(env) && i <= from && Led(Now(env, from), leader)
    ensures from < j
    ensures if stopped then from <= begun && StoppedButForNew(env, leader, begun, j) else FoundRunner(env, leader.pid, i, j)
    ensures stopped && Doomed(Now(env, from), leader.group) ==> NoRunner(Now(env, j), leader.group)
    ensures leader.proof.Unrecorded? ==> LookedAgain(env, leader.pid, from, stopped, j)
  {
    var running;
    running, j, begun := GroupRunning(env, leader, from);
    stopped := !running;
  }

  /**
   * One round: a group that exists is sent the signal, with call `sent`, and polled. Otherwise the round gives
   * the verdict.
   */
  method StopRound(env: Env, leader: Leader, polls: nat, i: nat)
    returns (status: Status, stopped: bool, sent: nat, j: nat, ghost begun: nat)
    requires Observes(env) && Led(Now(env, i), leader)
    ensures i < j
    ensures status.Gone? ==> stopped && begun == j && NoMember(Now(env, j), leader.group)
    ensures status.Unknown? ==> if stopped then i <= begun && StoppedButForNew(env, leader, begun, j) else FoundRunner(env, leader.pid, i, j)
    ensures status.Exists? ==> i < sent < j && Verified(env, leader, i, sent) && Led(Now(env, j), leader) && KilledBy(env, leader, Some(sent), j)
    ensures status.Exists? ==> sent + 1 < j && WasPolled(env, leader, polls, sent + 1, j)
    ensures leader.proof.Unrecorded? ==> !status.Exists? && (status.Gone? <==> !Answers(Now(env, i), leader.pid))
    ensures leader.proof.Unrecorded? && status.Unknown? ==> LookedAgain(env, leader.pid, i + 1, stopped, j)
  {
    stopped, sent, begun := true, i, i;
    status, j := GroupStatus(env, leader, i);
    begun := j;
    if status.Gone? {
      return;
    }
    StillLed(env, leader, i, j);
    if status.Unknown? {
      stopped, j, begun := LastLook(env, leader, i, j);
      return;
    }
    sent := j;
    j := SendAndPoll(env, leader, polls, sent);
  }

  /** The group was polled from call `i` on, and what follows waited for that until call `j`. */
  ghost predicate PolledBefore(env: Env, leader: Leader, polls: nat, i: nat, j: nat) {
    exists m: nat :: i < m < j && WasPolled(env, leader, polls, i, m)
  }

  /** The signals that were sent by call `j`, each to a group that had been verified, and the polling after each. */
  ghost predicate Rounds(env: Env, leader: Leader, grace: nat, wait: nat, i: nat, termed: Option<nat>, killed: Option<nat>, j: nat) {
    && (termed.Some? ==> i < termed.value < j && Verified(env, leader, i, termed.value))
    && (killed.Some? ==> termed.Some? && termed.value < killed.value < j && Verified(env, leader, termed.value, killed.value))
    && (termed.Some? ==> PolledBefore(env, leader, grace, termed.value + 1, if killed.Some? then killed.value else j))
    && (killed.Some? ==> PolledBefore(env, leader, wait, killed.value + 1, j))
  }

  /** After `round` rounds: the last one's polling ended with call `j`. */
  ghost predicate InRound(env: Env, leader: Leader, grace: nat, wait: nat, i: nat, round: int, termed: Option<nat>, killed: Option<nat>, j: nat) {
    match round
    case 0 => termed.None? && killed.None? && j == i
    case 1 => termed.Some? && killed.None? && i < termed.value && Verified(env, leader, i, termed.value)
              && WasPolled(env, leader, grace, termed.value + 1, j)
    case _ => round == 2 && termed.Some? && killed.Some? && i < termed.value < killed.value
              && Verified(env, leader, i, termed.value) && Verified(env, leader, termed.value, killed.value)
              && PolledBefore(env, leader, grace, termed.value + 1, killed.value) && WasPolled(env, leader, wait, killed.value + 1, j)
  }

  lemma WasPolledTakesTime(env: Env, leader: Leader, polls: nat, i: nat, j: nat)
    requires WasPolled(env, leader, polls, i, j)
    ensures i < j
  {
    var marks :| Polled(env, leader, polls, marks, j) && marks[0] == i;
    MarksAscend(env, leader, marks, |marks| - 1);
  }

  lemma {:induction false} MarksAscend(env: Env, leader: Leader, marks: seq<nat>, n: nat)
    requires n < |marks| && FoundEach(env, leader, marks)
    ensures marks[0] <= marks[n]
  {
    if n > 0 {
      MarksAscend(env, leader, marks, n - 1);
    }
  }

  /** Whatever comes after, comes after the polling. */
  lemma RoundsAfter(env: Env, leader: Leader, grace: nat, wait: nat, i: nat, round: int, termed: Option<nat>, killed: Option<nat>, m: nat, j: nat)
    requires InRound(env, leader, grace, wait, i, round, termed, killed, m) && m < j
    ensures Rounds(env, leader, grace, wait, i, termed, killed, j)
  {
    if round == 1 {
      WasPolledTakesTime(env, leader, grace, termed.value + 1, m);
    } else if round == 2 {
      WasPolledTakesTime(env, leader, wait, killed.value + 1, m);
    }
  }

  lemma NextRound(env: Env, leader: Leader, grace: nat, wait: nat, i: nat, round: int, termed: Option<nat>, killed: Option<nat>, m: nat, sent: nat, j: nat)
    requires InRound(env, leader, grace, wait, i, round, termed, killed, m) && m < sent && 0 <= round < 2
    requires WasPolled(env, leader, if round == 0 then grace else wait, sent + 1, j) && Verified(env, leader, m, sent)
    ensures InRound(env, leader, grace, wait, i, round + 1, if round == 0 then Some(sent) else termed, if round == 0 then killed else Some(sent), j)
  {
    RoundsAfter(env, leader, grace, wait, i, round, termed, killed, m, sent);
    if round == 1 {
      WasPolledTakesTime(env, leader, grace, termed.value + 1, m);
      var k: nat :| m <= k < sent && VerifiedAt(env, leader, k);
      assert termed.value <= k;
    }
  }

  /**
   * Two rounds: SIGTERM and a wait, then SIGKILL and another. `grace` and `wait` are how often the group is polled
   * in each; `termed` and `killed` are the calls that sent the two signals, and `doubted` says that the status
   * could not be told.
   */
  method StopGroup(env: Env, leader: Leader, grace: nat, wait: nat, i: nat)
    returns (stopped: bool, doubted: bool, termed: Option<nat>, killed: Option<nat>, j: nat, ghost begun: nat)
    requires Observes(env) && Led(Now(env, i), leader)
    ensures stopped && !doubted && (killed.Some? ==> KillSent(env, killed.value, leader.pid)) ==>
              NoRunner(Now(env, j), leader.group)
    ensures stopped ==> i <= begun && StoppedButForNew(env, leader, begun, j)
    ensures !stopped ==> FoundRunner(env, leader.pid, i, j)
    ensures Rounds(env, leader, grace, wait, i, termed, killed, j)
    ensures !stopped && !doubted ==> killed.Some?
    ensures leader.proof.Unrecorded? ==> termed.None? && killed.None? && OnlyLooked(env, leader.pid, i, stopped, j)
    ensures i < j
  {
    doubted, termed, killed, j, begun := false, None, None, i, i;
    var round := 0;
    while round < 2
      invariant leader.proof.Unrecorded? ==> round == 0
      invariant i <= j && 0 <= round <= 2 && Led(Now(env, j), leader) && !doubted
      invariant KilledBy(env, leader, killed, j)
      invariant InRound(env, leader, grace, wait, i, round, termed, killed, j)
    {
      var status, sent;
      ghost var from := j;
      status, stopped, sent, j, begun := StopRound(env, leader, if round == 0 then grace else wait, j);
      if !status.Exists? {
        doubted := status.Unknown?;
        RoundsAfter(env, leader, grace, wait, i, round, termed, killed, from, j);
        return;
      }
      NextRound(env, leader, grace, wait, i, round, termed, killed, from, sent, j);
      if round == 0 {
        termed := Some(sent);
      } else {
        killed := Some(sent);
      }
      round := round + 1;
    }
    ghost var from := j;
    stopped, j, begun := LastLook(env, leader, i, j);
    RoundsAfter(env, leader, grace, wait, i, round, termed, killed, from, j);
  }

  lemma StillLed(env: Env, leader: Leader, i: nat, j: nat)
    requires Observes(env) && i <= j && Led(Now(env, i), leader)
    ensures Led(Now(env, j), leader)
  {
    KeepsReserved(env.tr, env.at(i), env.at(j), leader.group, leader.pid, leader.born);
  }

  lemma KillReaches(env: Env, leader: Leader, k: nat)
    requires Observes(env) && Led(Now(env, k), leader) && KillSent(env, k, leader.pid)
    ensures Doomed(Now(env, k + 1), leader.group)
  {
    KillDooms(Now(env, k), leader.group, leader.pid);
    assert Ticks(env.tr, env.at(k));
    NextKeeps(env.tr(env.at(k)), env.tr(env.at(k) + 1), leader.group, leader.pid);
    Keeps(env.tr, env.at(k) + 1, env.at(k + 1), leader.group, leader.pid);
  }

  /** At call `k` the process runs under the number in another group, or its stat cannot be read. */
  predicate AnotherAt(env: Env, k: nat, pid: nat, leader: Leader) {
    pid in Now(env, k).procs && (pid in env.hidden || (RunsIn(Now(env, k), pid, leader.pid) && Now(env, k).procs[pid].group != leader.group))
  }

  /** While the table moves: once nothing runs in the group, whatever a scan finds by its number is not of it. */
  lemma AnswerTurnsBackOnlyForAnother(env: Env, leader: Leader, i: nat, j: nat)
    requires Observes(env) && Known(Now(env, i), leader.group, leader.pid) && NoRunner(Now(env, i), leader.group)
    requires i <= j
    ensures FoundRunner(env, leader.pid, i, j) <==> exists k: nat, pid: nat :: i <= k < j && AnotherAt(env, k, pid, leader)
  {
    forall k: nat, pid: nat | i <= k < j
      ensures MayRun(env, k, pid, leader.pid) <==> AnotherAt(env, k, pid, leader)
    {
      StaysEnded(env, leader.group, leader.pid, i, k);
      assert !RunnerOf(Now(env, k), pid, leader.group);
    }
  }

  /** A process runs under the leader's number in another group. */
  predicate AnotherRuns(os: Os, leader: Leader) {
    exists pid :: pid in os.procs && RunsIn(os, pid, leader.pid) && os.procs[pid].group != leader.group
  }

  /** No process other than the leader itself has the leader's pid. */
  predicate PidIsTheLeaders(os: Os, leader: Leader) {
    leader.pid in os.procs ==> os.procs[leader.pid].start == leader.born
  }

  predicate SomeHidden(os: Os, hidden: set<nat>) {
    exists pid :: pid in os.procs && pid in hidden
  }

  /** Nothing that can be read says that the number is free, or that another process has the leader's pid. */
  predicate MayBeTheLeaders(os: Os, hidden: set<nat>, leader: Leader) {
    match leader.proof
    case Unrecorded => Answers(os, leader.pid)
    case Handle => Answers(os, leader.pid) && PidIsTheLeaders(os, leader)
    case Recorded => (leader.pid in hidden && leader.pid in os.procs) || (Answers(os, leader.pid) && PidIsTheLeaders(os, leader))
  }

  /**
   * Exactly when the answer is true again once nothing runs in the group: another group has taken the number and
   * runs, or the stat of some process cannot be read, and the number may still be the leader's.
   */
  lemma AnswerIsTrueIff(os: Os, hidden: set<nat>, leader: Leader)
    requires Led(os, leader) && NoRunner(os, leader.group)
    ensures RunningNow(os, hidden, leader) <==>
            (AnotherRuns(os, leader) || SomeHidden(os, hidden)) && MayBeTheLeaders(os, hidden, leader)
  {
    forall pid | pid in os.procs && RunsIn(os, pid, leader.pid)
      ensures os.procs[pid].group != leader.group
    {
      assert !RunnerOf(os, pid, leader.group);
    }
  }

  /** When every stat can be read, only another group does it. With no recorded start the pid is not looked at. */
  lemma AnswerIsTrueIffAnotherRuns(os: Os, leader: Leader)
    requires Led(os, leader) && NoRunner(os, leader.group)
    ensures RunningNow(os, {}, leader) <==> AnotherRuns(os, leader) && (leader.proof.Unrecorded? || PidIsTheLeaders(os, leader))
  {
    AnswerIsTrueIff(os, {}, leader);
    forall pid | pid in os.procs && RunsIn(os, pid, leader.pid)
      ensures Answers(os, leader.pid)
    {
    }
  }

  function AfterAll(os: Os, events: seq<Event>): Option<Os>
    decreases |events|
  {
    if events == [] then Some(os)
    else if Possible(os, events[0]) then AfterAll(After(os, events[0]), events[1..]) else None
  }

  lemma ThenAll(os: Os, events: seq<Event>)
    requires events != [] && Possible(os, events[0])
    ensures AfterAll(os, events) == AfterAll(After(os, events[0]), events[1..])
  {
  }

  /** One process of a home group forked by the system, and one that leads a group. */
  function TwoGroups(home: nat, parent: nat, g: nat, pid: nat): Os {
    Os(map[parent := Proc(home, true, 0, false), pid := Proc(g, true, 1, false)], map[home := parent, g := pid], 2)
  }

  function HomeOnly(home: nat, parent: nat, g: nat, pid: nat): Os {
    Os(map[parent := Proc(home, true, 0, false)], map[home := parent, g := pid], 2)
  }

  function ChildOnly(home: nat, parent: nat, g: nat, pid: nat, h: nat, child: nat): Os {
    Os(map[parent := Proc(home, true, 0, false), child := Proc(h, true, 3, false)], map[home := parent, g := pid, h := pid], 4)
  }

  lemma GroupEnds(home: nat, parent: nat, g: nat, pid: nat)
    requires home != g && parent != pid
    ensures AfterAll(TwoGroups(home, parent, g, pid), [Kill(pid), Exit(pid), Reap(pid)]) == Some(HomeOnly(home, parent, g, pid))
  {
    var s0 := TwoGroups(home, parent, g, pid);
    var s1, s2 := After(s0, Kill(pid)), After(After(s0, Kill(pid)), Exit(pid));
    var s3 := After(s2, Reap(pid));
    assert s3 == HomeOnly(home, parent, g, pid);
    ThenAll(s0, [Kill(pid), Exit(pid), Reap(pid)]);
    ThenAll(s1, [Exit(pid), Reap(pid)]);
    ThenAll(s2, [Reap(pid)]);
    assert [Kill(pid), Exit(pid), Reap(pid)][1..] == [Exit(pid), Reap(pid)] && [Exit(pid), Reap(pid)][1..] == [Reap(pid)];
  }

  /** A child of the home group leads a new group, forks into it, exits and is reaped. */
  function TakenOver(home: nat, parent: nat, g: nat, pid: nat, h: nat): Os {
    Os(map[parent := Proc(home, true, 0, false), pid := Proc(h, true, 2, false)], map[home := parent, g := pid, h := pid], 3)
  }

  lemma NumberIsTaken(home: nat, parent: nat, g: nat, pid: nat, h: nat, rest: seq<Event>)
    requires home != g && home != h && g != h && parent != pid
    ensures AfterAll(HomeOnly(home, parent, g, pid), [Fork(parent, pid), Lead(pid, h)] + rest)
         == AfterAll(TakenOver(home, parent, g, pid, h), rest)
  {
    var s0 := HomeOnly(home, parent, g, pid);
    var s1 := Os(map[parent := Proc(home, true, 0, false), pid := Proc(home, true, 2, false)], map[home := parent, g := pid], 3);
    assert Possible(s0, Fork(parent, pid)) && After(s0, Fork(parent, pid)) == s1;
    assert Possible(s1, Lead(pid, h)) && After(s1, Lead(pid, h)) == TakenOver(home, parent, g, pid, h);
    var events := [Fork(parent, pid), Lead(pid, h)] + rest;
    ThenAll(s0, events);
    ThenAll(s1, events[1..]);
    assert events[1..][1..] == rest;
  }

  lemma ChildStays(home: nat, parent: nat, g: nat, pid: nat, h: nat, child: nat)
    requires home != g && home != h && g != h && parent != pid && parent != child && pid != child
    ensures AfterAll(TakenOver(home, parent, g, pid, h), [Fork(pid, child), Exit(pid), Reap(pid)])
         == Some(ChildOnly(home, parent, g, pid, h, child))
  {
    var s2 := TakenOver(home, parent, g, pid, h);
    var s3 := Os(s2.procs[child := Proc(h, true, 3, false)], s2.number, 4);
    var s4 := s3.(procs := s3.procs[pid := Proc(h, false, 2, false)]);
    assert Possible(s2, Fork(pid, child)) && After(s2, Fork(pid, child)) == s3;
    assert Possible(s3, Exit(pid)) && After(s3, Exit(pid)) == s4;
    assert After(s4, Reap(pid)) == ChildOnly(home, parent, g, pid, h, child);
    var events := [Fork(pid, child), Exit(pid), Reap(pid)];
    ThenAll(s2, events);
    ThenAll(s3, events[1..]);
    ThenAll(s4, events[2..]);
    assert events[1..][1..] == events[2..] && events[2..][1..] == [];
  }

  lemma NumberGoesToAnother(home: nat, parent: nat, g: nat, pid: nat, h: nat, child: nat)
    requires home != g && home != h && g != h && parent != pid && parent != child && pid != child
    ensures AfterAll(HomeOnly(home, parent, g, pid), [Fork(parent, pid), Lead(pid, h), Fork(pid, child), Exit(pid), Reap(pid)])
         == Some(ChildOnly(home, parent, g, pid, h, child))
  {
    var rest := [Fork(pid, child), Exit(pid), Reap(pid)];
    NumberIsTaken(home, parent, g, pid, h, rest);
    ChildStays(home, parent, g, pid, h, child);
    assert [Fork(parent, pid), Lead(pid, h)] + rest == [Fork(parent, pid), Lead(pid, h), Fork(pid, child), Exit(pid), Reap(pid)];
  }

  /**
   * That other group is possible: after SIGKILL and the end of the group its number can go to a new
   * leader that exits before its own child, and then the answer turns from false back to true.
   */
  lemma AnswerCanTurnBack(home: nat, parent: nat, g: nat, pid: nat, h: nat, child: nat)
    requires home != g && home != h && g != h && parent != pid && parent != child && pid != child
    ensures var start, leader := TwoGroups(home, parent, g, pid), Leader(pid, g, 1, Recorded);
            && Sane(start) && Led(start, leader)
            && var ended := AfterAll(start, [Kill(pid), Exit(pid), Reap(pid)]);
               && ended.Some? && !RunningNow(ended.value, {}, leader)
               && var again := AfterAll(ended.value, [Fork(parent, pid), Lead(pid, h), Fork(pid, child), Exit(pid), Reap(pid)]);
                  again.Some? && RunningNow(again.value, {}, leader) && NoMember(again.value, g)
  {
    GroupEnds(home, parent, g, pid);
    NumberGoesToAnother(home, parent, g, pid, h, child);
    var last := ChildOnly(home, parent, g, pid, h, child);
    assert !Answers(HomeOnly(home, parent, g, pid), pid);
    assert RunsIn(last, child, pid) && Answers(last, pid);
  }
}
