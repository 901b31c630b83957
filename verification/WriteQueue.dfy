/** One write at a time: calls for one file form a chain of promises. */
module WriteQueue {
  // The last promise is kept in a map until it settles. A step is a callback, and callbacks whose promises are
  // settled may run in any order.

  import opened Options

  /** What a change makes of the file: its next content, or a refusal that writes nothing. */
  datatype Outcome<F> = Write(next: F) | Refuse

  type Change<!F> = F -> Outcome<F>

  /** A running call has read the file. `Settled(false)` is a refusal or a failure. */
  datatype Status<F> = Waiting | Running(seen: F) | Settled(wrote: bool)

  /** `after` is the call whose promise was in the map when this one was made. */
  datatype Job<!F> = Job(change: Change<F>, after: Option<nat>, status: Status<F>, cleaned: bool)

  /** `entry` is the call whose promise is in the map now. */
  datatype State<!F> = State(file: F, jobs: seq<Job<F>>, entry: Option<nat>)

  datatype Event<!F> = Call(change: Change<F>) | Begin(job: nat) | Finish(job: nat, wrote: bool) | CleanUp(job: nat)

  function Start<F>(file: F): State<F> {
    State(file, [], None)
  }

  predicate IsSettled<F>(s: State<F>, n: nat) {
    n < |s.jobs| && s.jobs[n].status.Settled?
  }

  predicate Possible<F>(s: State<F>, e: Event<F>) {
    match e
    case Call(_) => true
    // A call runs once the promise it waits for is settled, however it went.
    case Begin(n) => n < |s.jobs| && s.jobs[n].status.Waiting? && (s.jobs[n].after.None? || IsSettled(s, s.jobs[n].after.value))
    case Finish(n, wrote) =>
      n < |s.jobs| && s.jobs[n].status.Running? && (wrote ==> s.jobs[n].change(s.jobs[n].status.seen).Write?)
    case CleanUp(n) => IsSettled(s, n) && !s.jobs[n].cleaned
  }

  function Step<F>(s: State<F>, e: Event<F>): State<F>
    requires Possible(s, e)
  {
    match e
    case Call(change) => s.(jobs := s.jobs + [Job(change, s.entry, Waiting, false)], entry := Some(|s.jobs|))
    case Begin(n) => s.(jobs := s.jobs[n := s.jobs[n].(status := Running(s.file))])
    case Finish(n, wrote) =>
      var next := s.(jobs := s.jobs[n := s.jobs[n].(status := Settled(wrote))]);
      if wrote then next.(file := s.jobs[n].change(s.jobs[n].status.seen).next) else next
    // The entry goes only if it is still this call's.
    case CleanUp(n) =>
      s.(jobs := s.jobs[n := s.jobs[n].(cleaned := true)], entry := if s.entry == Some(n) then None else s.entry)
  }

  ghost predicate Goes<F>(states: seq<State<F>>, events: seq<Event<F>>, i: nat)
    requires i < |events| < |states|
  {
    Possible(states[i], events[i]) && states[i + 1] == Step(states[i], events[i])
  }

  /** Any calls, overlapping in any way. */
  ghost predicate Run<F>(file: F, states: seq<State<F>>, events: seq<Event<F>>) {
    |states| == |events| + 1 && states[0] == Start(file) && forall i :: 0 <= i < |events| ==> Goes(states, events, i)
  }

  // ---- what every state keeps ------------------------------------------------------------------

  ghost predicate AllSettled<F>(s: State<F>, n: nat) {
    forall m :: 0 <= m < n ==> IsSettled(s, m)
  }

  /** The file after the first `n` calls that wrote, each on what the one before left. */
  function Folded<F>(file: F, jobs: seq<Job<F>>, n: nat): F
    requires n <= |jobs|
  {
    if n == 0 then file
    else
      var before := Folded(file, jobs, n - 1);
      var j := jobs[n - 1];
      if j.status == Settled(true) && j.change(before).Write? then j.change(before).next else before
  }

  /** Call `n` waits for the one before it, or came when all before it had settled. */
  ghost predicate Chained<F>(s: State<F>, n: nat)
    requires n < |s.jobs|
  {
    if s.jobs[n].after.Some? then n > 0 && s.jobs[n].after.value == n - 1 else AllSettled(s, n)
  }

  /** A call that began came after all before it had settled, and has read what they left. */
  ghost predicate InTurn<F>(s: State<F>, n: nat)
    requires n < |s.jobs|
  {
    (!s.jobs[n].status.Waiting? ==> AllSettled(s, n)) && (s.jobs[n].status.Running? ==> s.jobs[n].status.seen == s.file)
  }

  ghost predicate Inv<F>(s: State<F>, file: F) {
    && (forall n :: 0 <= n < |s.jobs| ==> Chained(s, n) && InTurn(s, n))
    // The map has the last call, or nothing while none is unsettled.
    && (if s.entry.Some? then |s.jobs| > 0 && s.entry.value == |s.jobs| - 1 else AllSettled(s, |s.jobs|))
    && s.file == Folded(file, s.jobs, |s.jobs|)
  }

  lemma {:induction false} FoldedStops<F>(file: F, jobs: seq<Job<F>>, n: nat, m: nat)
    requires n <= m <= |jobs| && forall k :: n <= k < m ==> jobs[k].status != Settled(true)
    ensures Folded(file, jobs, m) == Folded(file, jobs, n)
  {
    if n < m {
      FoldedStops(file, jobs, n, m - 1);
    }
  }

  /** Only the change and whether it wrote count. */
  lemma {:induction false} FoldedSame<F>(file: F, jobs: seq<Job<F>>, others: seq<Job<F>>, n: nat)
    requires n <= |jobs| && n <= |others|
    requires forall k :: 0 <= k < n ==> others[k].change == jobs[k].change && (others[k].status == Settled(true) <==> jobs[k].status == Settled(true))
    ensures Folded(file, others, n) == Folded(file, jobs, n)
  {
    if n > 0 {
      FoldedSame(file, jobs, others, n - 1);
    }
  }

  /** What is settled stays settled. */
  lemma SettledStays<F>(s: State<F>, e: Event<F>)
    requires Possible(s, e)
    ensures forall n: nat :: AllSettled(s, n) ==> AllSettled(Step(s, e), n)
    ensures forall n :: IsSettled(s, n) ==> IsSettled(Step(s, e), n)
  {
    var t := Step(s, e);
    forall n: nat | AllSettled(s, n)
      ensures AllSettled(t, n)
    {
      forall m | 0 <= m < n
        ensures IsSettled(t, m)
      {
        assert IsSettled(s, m);
      }
    }
  }

  lemma CallKeepsInv<F>(s: State<F>, file: F, change: Change<F>)
    requires Inv(s, file)
    ensures Inv(Step(s, Call(change)), file)
  {
    var t := Step(s, Call(change));
    SettledStays(s, Call(change));
    FoldedSame(file, s.jobs, t.jobs, |s.jobs|);
    forall n | 0 <= n < |t.jobs|
      ensures Chained(t, n) && InTurn(t, n)
    {
      assert n < |s.jobs| ==> Chained(s, n) && InTurn(s, n);
    }
  }

  /** A call that begins has every call before it settled and every call after it waiting. */
  lemma BeginsInTurn<F>(s: State<F>, file: F, n: nat)
    requires Inv(s, file) && Possible(s, Begin(n))
    ensures AllSettled(s, n) && forall m :: n < m < |s.jobs| ==> s.jobs[m].status.Waiting?
  {
    assert Chained(s, n);
    if s.jobs[n].after.Some? {
      assert InTurn(s, n - 1);
    }
    forall m | n < m < |s.jobs|
      ensures s.jobs[m].status.Waiting?
    {
      assert InTurn(s, m);
      assert !IsSettled(s, n);
    }
  }

  lemma BeginKeepsInv<F>(s: State<F>, file: F, n: nat)
    requires Inv(s, file) && Possible(s, Begin(n))
    ensures Inv(Step(s, Begin(n)), file)
  {
    var t := Step(s, Begin(n));
    SettledStays(s, Begin(n));
    BeginsInTurn(s, file, n);
    FoldedSame(file, s.jobs, t.jobs, |s.jobs|);
    forall m | 0 <= m < |t.jobs|
      ensures Chained(t, m) && InTurn(t, m)
    {
      assert Chained(s, m) && InTurn(s, m);
    }
  }

  lemma FinishFolds<F>(s: State<F>, file: F, n: nat, wrote: bool)
    requires Inv(s, file) && Possible(s, Finish(n, wrote))
    ensures forall m :: n < m < |s.jobs| ==> s.jobs[m].status.Waiting?
    ensures Step(s, Finish(n, wrote)).file == Folded(file, Step(s, Finish(n, wrote)).jobs, |s.jobs|)
  {
    var t := Step(s, Finish(n, wrote));
    assert InTurn(s, n);
    forall m | n < m < |s.jobs|
      ensures s.jobs[m].status.Waiting?
    {
      assert InTurn(s, m);
      assert !IsSettled(s, n);
    }
    FoldedStops(file, s.jobs, n, |s.jobs|);
    FoldedSame(file, s.jobs, t.jobs, n);
    FoldedStops(file, t.jobs, n + 1, |s.jobs|);
  }

  lemma FinishKeepsInv<F>(s: State<F>, file: F, n: nat, wrote: bool)
    requires Inv(s, file) && Possible(s, Finish(n, wrote))
    ensures Inv(Step(s, Finish(n, wrote)), file)
  {
    var t := Step(s, Finish(n, wrote));
    SettledStays(s, Finish(n, wrote));
    FinishFolds(s, file, n, wrote);
    assert InTurn(s, n);
    forall m | 0 <= m < |t.jobs|
      ensures Chained(t, m) && InTurn(t, m)
    {
      assert Chained(s, m) && InTurn(s, m);
      assert m < n ==> IsSettled(s, m);
    }
  }

  lemma CleanUpKeepsInv<F>(s: State<F>, file: F, n: nat)
    requires Inv(s, file) && Possible(s, CleanUp(n))
    ensures Inv(Step(s, CleanUp(n)), file)
  {
    var t := Step(s, CleanUp(n));
    SettledStays(s, CleanUp(n));
    FoldedSame(file, s.jobs, t.jobs, |s.jobs|);
    forall m | 0 <= m < |t.jobs|
      ensures Chained(t, m) && InTurn(t, m)
    {
      assert Chained(s, m) && InTurn(s, m);
    }
    assert InTurn(s, n);
  }

  lemma StepKeepsInv<F>(s: State<F>, file: F, e: Event<F>)
    requires Inv(s, file) && Possible(s, e)
    ensures Inv(Step(s, e), file)
  {
    match e
    case Call(change) => CallKeepsInv(s, file, change);
    case Begin(n) => BeginKeepsInv(s, file, n);
    case Finish(n, wrote) => FinishKeepsInv(s, file, n, wrote);
    case CleanUp(n) => CleanUpKeepsInv(s, file, n);
  }

  lemma {:induction false} RunKeepsInv<F>(file: F, states: seq<State<F>>, events: seq<Event<F>>, i: nat)
    requires Run(file, states, events) && i < |states|
    ensures Inv(states[i], file)
  {
    if i > 0 {
      RunKeepsInv(file, states, events, i - 1);
      assert Goes(states, events, i - 1);
      StepKeepsInv(states[i - 1], file, events[i - 1]);
    }
  }

  // ---- what callers rely on --------------------------------------------------------------------

  /** One at a time and in call order: when a call has begun, every call before it has settled. */
  lemma OneAtATimeInOrder<F>(file: F, states: seq<State<F>>, events: seq<Event<F>>, i: nat, m: nat, n: nat)
    requires Run(file, states, events) && i < |states| && m < n < |states[i].jobs| && !states[i].jobs[n].status.Waiting?
    ensures states[i].jobs[m].status.Settled?
  {
    RunKeepsInv(file, states, events, i);
    assert InTurn(states[i], n) && IsSettled(states[i], m);
  }

  /** The file is always what the calls that wrote so far make of the first content, one after the other. */
  lemma FileIsTheFold<F>(file: F, states: seq<State<F>>, events: seq<Event<F>>, i: nat)
    requires Run(file, states, events) && i < |states|
    ensures states[i].file == Folded(file, states[i].jobs, |states[i].jobs|)
  {
    RunKeepsInv(file, states, events, i);
  }

  /** A call that began sees what the calls before it left, and nothing is written under it. */
  lemma SeesWhatIsThere<F>(file: F, states: seq<State<F>>, events: seq<Event<F>>, i: nat, n: nat)
    requires Run(file, states, events) && i < |states| && n < |states[i].jobs| && states[i].jobs[n].status.Running?
    ensures states[i].jobs[n].status.seen == states[i].file == Folded(file, states[i].jobs, n)
  {
    RunKeepsInv(file, states, events, i);
    var s := states[i];
    assert InTurn(s, n);
    forall m | n <= m < |s.jobs|
      ensures s.jobs[m].status != Settled(true)
    {
      assert InTurn(s, m);
      assert !IsSettled(s, n);
    }
    FoldedStops(file, s.jobs, n, |s.jobs|);
  }

  /** No call is stuck behind one that failed, or behind an entry that is gone: the first unsettled call runs or can. */
  lemma FirstUnsettledCanGoOn<F>(file: F, states: seq<State<F>>, events: seq<Event<F>>, i: nat, n: nat)
    requires Run(file, states, events) && i < |states| && n < |states[i].jobs|
    requires AllSettled(states[i], n) && !IsSettled(states[i], n)
    ensures states[i].jobs[n].status.Running? || Possible(states[i], Begin(n))
    ensures SettlesNext(if states[i].jobs[n].status.Running? then states[i] else Step(states[i], Begin(n)), n, states[i].file)
  {
    RunKeepsInv(file, states, events, i);
    assert Chained(states[i], n) && InTurn(states[i], n);
  }

  /** The call has read the file, and its end settles it, with what it makes of the file or nothing written. */
  ghost predicate SettlesNext<F>(s: State<F>, n: nat, file: F) {
    && n < |s.jobs| && s.jobs[n].status == Running(file)
    && (Possible(s, Finish(n, true)) <==> s.jobs[n].change(file).Write?) && Possible(s, Finish(n, false))
    && (forall wrote :: Possible(s, Finish(n, wrote)) ==> IsSettled(Step(s, Finish(n, wrote)), n))
    && (Possible(s, Finish(n, true)) ==> Step(s, Finish(n, true)).file == s.jobs[n].change(file).next)
    && Step(s, Finish(n, false)).file == s.file
  }

  /** Every call comes with a clean-up of its own, which runs once it has settled, and once only. */
  lemma CleansUpOnce<F>(s: State<F>, change: Change<F>, n: nat)
    ensures !Step(s, Call(change)).jobs[|s.jobs|].cleaned
    ensures IsSettled(s, n) && !s.jobs[n].cleaned ==> Possible(s, CleanUp(n)) && var t := Step(s, CleanUp(n));
              !Possible(t, CleanUp(n)) && t.entry != Some(n) && (s.entry != Some(n) ==> t.entry == s.entry)
  {
  }
}
