/** The Windows watch over one autosave command. */
module WindowsAutosave {
  // From process snapshots it collects the leader's descendants, decides which of them a stop may signal, and
  // when the worktree guard may be released.

  import opened Options

  /** A snapshot row. `token` is the creation date in ticks, None where the system withheld it. */
  datatype Process = Process(pid: nat, parent: nat, token: Option<nat>)

  datatype Key = Key(pid: nat, token: Option<nat>)

  datatype Owned = Owned(process: Process, signalable: bool)

  type OwnedMap = map<Key, Owned>

  function KeyOf(p: Process): Key {
    Key(p.pid, p.token)
  }

  /** The rows of one snapshot by pid; of rows with one pid the last wins. */
  function ByPid(rows: seq<Process>): map<nat, Process> {
    if rows == [] then map[] else ByPid(rows[..|rows| - 1])[rows[|rows| - 1].pid := rows[|rows| - 1]]
  }

  function Row(current: map<nat, Process>, pid: nat): Option<Process> {
    if pid in current then Some(current[pid]) else None
  }

  /** What one admission round works with. `baseline` holds the tokens before the command started. */
  datatype Round = Round(baseline: map<nat, Option<nat>>, current: map<nat, Process>, root: nat, exited: bool, exitTicks: nat)

  predicate Plausible(entry: Process, parent: Process, replacement: Option<Process>) {
    && !(parent.token.Some? && entry.token.Some? && entry.token.value < parent.token.value)
    && (replacement.None? || replacement.value.token == parent.token
        || (entry.token.Some? && replacement.value.token.Some? && entry.token.value < replacement.value.token.value))
  }

  predicate HasParent(owned: OwnedMap, pid: nat) {
    exists k :: k in owned && owned[k].process.pid == pid
  }

  predicate PlausibleAncestor(owned: OwnedMap, entry: Process, replacement: Option<Process>) {
    exists k :: k in owned && owned[k].process.pid == entry.parent && Plausible(entry, owned[k].process, replacement)
  }

  predicate MaySignal(owned: OwnedMap, entry: Process, r: Round) {
    && (entry.parent != r.root || !r.exited)
    && exists k :: k in owned && owned[k].process.pid == entry.parent && SignalsThrough(owned[k], entry, r.current)
  }

  predicate SignalsThrough(parent: Owned, entry: Process, current: map<nat, Process>) {
    && parent.signalable && parent.process.token.Some? && entry.token.Some?
    && parent.process.token.value <= entry.token.value
    && parent.process.pid in current && current[parent.process.pid].token == parent.process.token
  }

  predicate Admissible(owned: OwnedMap, entry: Process, r: Round) {
    && KeyOf(entry) !in owned
    && !(entry.token.Some? && entry.pid in r.baseline && r.baseline[entry.pid] == entry.token)
    && (entry.parent == r.root || HasParent(owned, entry.parent))
    && !(entry.parent == r.root && r.exited && entry.token.Some? && entry.token.value > r.exitTicks)
    && (HasParent(owned, entry.parent) ==> PlausibleAncestor(owned, entry, Row(r.current, entry.parent)))
  }

  function Admit(owned: OwnedMap, entry: Process, r: Round): OwnedMap {
    if Admissible(owned, entry, r) then owned[KeyOf(entry) := Owned(entry, MaySignal(owned, entry, r))] else owned
  }

  function AdmitPass(owned: OwnedMap, rows: seq<Process>, r: Round): OwnedMap {
    if rows == [] then owned else Admit(AdmitPass(owned, rows[..|rows| - 1], r), rows[|rows| - 1], r)
  }

  function Unowned(owned: OwnedMap, rows: seq<Process>): set<Key> {
    set p | p in rows && KeyOf(p) !in owned :: KeyOf(p)
  }

  lemma {:induction false} PassGrows(owned: OwnedMap, rows: seq<Process>, r: Round)
    ensures forall k :: k in owned ==> k in AdmitPass(owned, rows, r) && AdmitPass(owned, rows, r)[k] == owned[k]
    ensures forall k :: k in AdmitPass(owned, rows, r) && k !in owned ==> exists p :: p in rows && KeyOf(p) == k
  {
    if rows != [] {
      PassGrows(owned, rows[..|rows| - 1], r);
      assert rows[|rows| - 1] in rows;
    }
  }

  lemma PassShrinksUnowned(owned: OwnedMap, rows: seq<Process>, r: Round)
    requires AdmitPass(owned, rows, r) != owned
    ensures Unowned(AdmitPass(owned, rows, r), rows) < Unowned(owned, rows)
  {
    var now := AdmitPass(owned, rows, r);
    PassGrows(owned, rows, r);
    assert now.Keys == owned.Keys ==> now == owned;
    var k :| k in now && k !in owned;
    var p :| p in rows && KeyOf(p) == k;
    assert k in Unowned(owned, rows) && k !in Unowned(now, rows);
  }

  /** Passes over the rows until one admits nothing. */
  function AdmitAll(owned: OwnedMap, rows: seq<Process>, r: Round): OwnedMap
    decreases Unowned(owned, rows)
  {
    var now := AdmitPass(owned, rows, r);
    if now == owned then owned else PassShrinksUnowned(owned, rows, r); AdmitAll(now, rows, r)
  }

  predicate Retains(owned: OwnedMap, rows: seq<Process>) {
    exists p :: p in rows && (KeyOf(p) in owned
      || exists k :: k in owned && owned[k].process.pid == p.pid && (owned[k].process.token.None? || p.token.None?))
  }

  /** What one call of `alive` sees: the snapshot, and `hasExited` with the clock before and after it. */
  datatype Look = Look(rows: Option<seq<Process>>, exitedBefore: bool, ticksBefore: nat, exited: bool, ticks: nat)

  datatype Watch = Watch(owned: OwnedMap, leaderObserved: bool, latest: seq<Process>, exitTicks: Option<nat>)

  const FRESH := Watch(map[], false, [], None)

  function TicksSeen(exitTicks: Option<nat>, look: Look): Option<nat> {
    if exitTicks.Some? then exitTicks
    else if look.exitedBefore then Some(look.ticksBefore)
    else if look.exited && look.rows.Some? then Some(look.ticks) else None
  }

  /** The row at the leader's pid may be another process's: the leader has exited and was never met. */
  predicate Uncertain(w: Watch, root: nat, look: Look) {
    look.rows.Some? && look.exited && root in ByPid(look.rows.value) && !w.leaderObserved
  }

  /** A look that reads the snapshot to the end. */
  predicate Processed(w: Watch, root: nat, look: Look) {
    look.rows.Some? && !Uncertain(w, root, look)
  }

  predicate MeetsLeader(w: Watch, root: nat, look: Look) {
    look.rows.Some? && !look.exited && root in ByPid(look.rows.value) && !w.leaderObserved
  }

  function WithLeader(w: Watch, root: nat, look: Look): OwnedMap {
    if MeetsLeader(w, root, look) then
      var leader := ByPid(look.rows.value)[root];
      w.owned[KeyOf(leader) := Owned(leader, true)]
    else w.owned
  }

  function RoundOf(w: Watch, baseline: map<nat, Option<nat>>, root: nat, look: Look): Round
    requires look.rows.Some?
  {
    var ticks := TicksSeen(w.exitTicks, look);
    Round(baseline, ByPid(look.rows.value), root, look.exited, if ticks.Some? then ticks.value else 0)
  }

  function Looked(w: Watch, baseline: map<nat, Option<nat>>, root: nat, look: Look): Watch {
    var ticks := TicksSeen(w.exitTicks, look);
    if look.rows.None? then w.(exitTicks := ticks)
    else if Uncertain(w, root, look) then w.(latest := [], exitTicks := ticks)
    else
      var owned := AdmitAll(WithLeader(w, root, look), look.rows.value, RoundOf(w, baseline, root, look));
      Watch(owned, w.leaderObserved || MeetsLeader(w, root, look), look.rows.value, ticks)
  }

  /** Whether the guard must be kept after a look. */
  predicate KeepsGuard(w: Watch, baseline: map<nat, Option<nat>>, root: nat, look: Look) {
    !Processed(w, root, look) || !look.exited || Retains(Looked(w, baseline, root, look).owned, look.rows.value)
  }

  /** The rows a stop signals. */
  predicate Target(w: Watch, p: Process) {
    p in w.latest && p.token.Some? && KeyOf(p) in w.owned && w.owned[KeyOf(p)].signalable
  }

  class Watcher {
    const baseline: map<nat, Option<nat>>
    var owned: OwnedMap
    var leaderObserved: bool
    var latest: seq<Process>
    var exitTicks: Option<nat>

    constructor (rows: seq<Process>)
      ensures State() == FRESH
      ensures baseline == map pid | pid in ByPid(rows) :: ByPid(rows)[pid].token
    {
      baseline := map pid | pid in ByPid(rows) :: ByPid(rows)[pid].token;
      owned, leaderObserved, latest, exitTicks := map[], false, [], None;
    }

    function State(): Watch
      reads this
    {
      Watch(owned, leaderObserved, latest, exitTicks)
    }

    method AdmitEntry(entry: Process, r: Round) returns (admitted: bool)
      modifies this`owned
      ensures owned == Admit(old(owned), entry, r) && admitted == Admissible(old(owned), entry, r)
    {
      if KeyOf(entry) in owned || (entry.token.Some? && entry.pid in r.baseline && r.baseline[entry.pid] == entry.token) {
        return false;
      }
      var parents := HasParent(owned, entry.parent);
      if entry.parent != r.root && !parents {
        return false;
      }
      if entry.parent == r.root && r.exited && entry.token.Some? && entry.token.value > r.exitTicks {
        return false;
      }
      if parents && !PlausibleAncestor(owned, entry, Row(r.current, entry.parent)) {
        return false;
      }
      owned := owned[KeyOf(entry) := Owned(entry, MaySignal(owned, entry, r))];
      return true;
    }

    /** Passes over the rows until one admits nothing; a pass may bring in the parents that the next one needs. */
    method AdmitRetained(rows: seq<Process>, r: Round)
      modifies this`owned
      ensures owned == AdmitAll(old(owned), rows, r)
    {
      var changed := true;
      while changed
        invariant AdmitAll(owned, rows, r) == AdmitAll(old(owned), rows, r)
        invariant !changed ==> AdmitPass(owned, rows, r) == owned
        decreases Unowned(owned, rows), changed
      {
        changed := false;
        ghost var was := owned;
        for n := 0 to |rows|
          invariant owned == AdmitPass(was, rows[..n], r)
          invariant changed <==> owned != was
        {
          assert rows[..n + 1][..n] == rows[..n];
          PassGrows(was, rows[..n], r);
          var admitted := AdmitEntry(rows[n], r);
          if admitted {
            assert KeyOf(rows[n]) in owned && KeyOf(rows[n]) !in was;
            changed := true;
          }
        }
        assert rows[..|rows|] == rows;
        if changed {
          PassShrinksUnowned(was, rows, r);
        }
      }
    }

    method Alive(root: nat, look: Look) returns (keep: bool)
      modifies this
      ensures State() == Looked(old(State()), baseline, root, look)
      ensures keep == KeepsGuard(old(State()), baseline, root, look)
    {
      if look.exitedBefore && exitTicks.None? {
        exitTicks := Some(look.ticksBefore);
      }
      if look.rows.None? {
        return true;
      }
      if look.exited && exitTicks.None? {
        exitTicks := Some(look.ticks);
      }
      var rows := look.rows.value;
      latest := rows;
      var current := ByPid(rows);
      if look.exited && root in current && !leaderObserved {
        latest := [];
        return true;
      }
      if !look.exited && root in current && !leaderObserved {
        owned := owned[KeyOf(current[root]) := Owned(current[root], true)];
        leaderObserved := true;
      }
      AdmitRetained(rows, Round(baseline, current, root, look.exited, if exitTicks.Some? then exitTicks.value else 0));
      keep := !look.exited || Retains(owned, rows);
    }
  }
}
