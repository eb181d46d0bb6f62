/**
  The supervisor of the repository-root `simperviser.py`, the first variant:
  no lock, no kill, no `_killed` flag. `start` spawns unconditionally and
  schedules a watcher on the child it just spawned; a watcher whose child
  exits clears `running` and starts again when `always_restart` is set or the
  exit code is nonzero. Nothing stops a second `start` while a child runs, so
  several watchers can be pending at once.
 */
module EarliestSupervisor {
  import opened Common

  /**
    The fields `running` and `proc`, the generations whose watchers are still
    pending (each watcher waits on the child spawned with it), spawns so far.
   */
  datatype Sup = Sup(running: bool, proc: Option<Child>, watchers: set<nat>, spawns: nat)

  const Idle := Sup(false, None, {}, 0)

  predicate ShouldRestart(alwaysRestart: bool, code: int) {
    alwaysRestart || code != 0
  }

  /** `start`: spawn, replace `proc`, set `running`, schedule a watcher on the new child. */
  function StartStep(s: Sup, pid: int): (t: Sup)
    ensures t.running && t.spawns == s.spawns + 1
    ensures t.proc == Some(Spawned(t.spawns, pid))
    ensures t.watchers == s.watchers + {t.spawns}
  {
    var gen := s.spawns + 1;
    Sup(true, Some(Spawned(gen, pid)), s.watchers + {gen}, gen)
  }

  /**
    `_restart_process_if_needed` for the watcher of generation `g`, whose
    child exited with `code`: it is reaped if it is still `proc`, the watcher
    finishes, `running` is cleared, and a restart follows when the rule says
    so, whether or not `g` is the current child.
   */
  function ExitStep(alwaysRestart: bool, s: Sup, g: nat, code: int, pid: int): (t: Sup)
    requires g in s.watchers
    ensures t.running <==> ShouldRestart(alwaysRestart, code)
    ensures ShouldRestart(alwaysRestart, code) ==> t.spawns == s.spawns + 1
    ensures !ShouldRestart(alwaysRestart, code) ==> t.spawns == s.spawns && t.watchers == s.watchers - {g}
  {
    var reaped :=
      if s.proc.Some? && s.proc.value.gen == g then Some(Reap(s.proc.value, code)) else s.proc;
    var stopped := Sup(false, reaped, s.watchers - {g}, s.spawns);
    if ShouldRestart(alwaysRestart, code) then StartStep(stopped, pid) else stopped
  }

  /** `pid`: the current child's pid; AttributeError before any start. */
  function Pid(s: Sup): (r: Option<int>)
    ensures r.Some? <==> s.proc.Some?
    ensures r.Some? ==> r.value == s.proc.value.pid
  {
    if s.proc.None? then None else Some(s.proc.value.pid)
  }

  class EarliestSupervisedProcess {
    const alwaysRestart: bool
    var running: bool
    var proc: Option<Child>
    var watchers: set<nat>
    var spawns: nat

    function State(): Sup
      reads this
    {
      Sup(running, proc, watchers, spawns)
    }

    constructor (alwaysRestart: bool)
      ensures State() == Idle && this.alwaysRestart == alwaysRestart
    {
      this.alwaysRestart := alwaysRestart;
      running := false;
      proc := None;
      watchers := {};
      spawns := 0;
    }

    method Start(pid: int)
      modifies this
      ensures State() == StartStep(old(State()), pid)
    {
      spawns := spawns + 1;
      proc := Some(Spawned(spawns, pid));
      running := true;
      watchers := watchers + {spawns};
    }

    method RestartProcessIfNeeded(g: nat, code: int, pid: int)
      requires g in watchers
      modifies this
      ensures State() == ExitStep(alwaysRestart, old(State()), g, code, pid)
    {
      if proc.Some? && proc.value.gen == g {
        proc := Some(Reap(proc.value, code));
      }
      watchers := watchers - {g};
      running := false;
      if alwaysRestart || code != 0 {
        Start(pid);
      }
    }
  }

  // ---------------------------------------------------------------------------
  // Runs.

  /** `ExitEv(g, …)`: the child of generation `g` exits and its watcher wakes. */
  datatype Event = StartEv(pid: int) | ExitEv(g: nat, code: int, pid: int)

  function Step(alwaysRestart: bool, s: Sup, e: Event): Sup {
    match e
    case StartEv(pid) => StartStep(s, pid)
    case ExitEv(g, code, pid) => if g in s.watchers then ExitStep(alwaysRestart, s, g, code, pid) else s
  }

  function Run(alwaysRestart: bool, s: Sup, evs: seq<Event>): Sup
    decreases |evs|
  {
    if evs == [] then s else Run(alwaysRestart, Step(alwaysRestart, s, evs[0]), evs[1..])
  }

  /**
    Every pending watcher belongs to a child spawned so far; the current
    child's watcher is pending exactly while that child is live; and while
    `running` is set the current child is live.
   */
  ghost predicate Inv(s: Sup) {
    && (s.proc.None? ==> s.spawns == 0 && s.watchers == {} && !s.running)
    && (s.proc.Some? ==> s.proc.value.gen == s.spawns && (Live(s.proc.value) <==> s.spawns in s.watchers))
    && (forall g :: g in s.watchers ==> 1 <= g <= s.spawns)
    && (s.running ==> s.proc.Some? && Live(s.proc.value))
  }

  lemma {:induction false} RunPreservesInv(alwaysRestart: bool, s: Sup, evs: seq<Event>)
    requires Inv(s)
    ensures Inv(Run(alwaysRestart, s, evs))
    decreases |evs|
  {
    if evs != [] {
      var t := Step(alwaysRestart, s, evs[0]);
      assert Inv(t);
      RunPreservesInv(alwaysRestart, t, evs[1..]);
    }
  }

  /** The exits of `|codes|` successive children, starting at generation `g`. */
  function SuccessiveExits(g: nat, codes: seq<int>, pids: seq<int>): (evs: seq<Event>)
    requires |codes| == |pids|
    ensures |evs| == |codes|
    decreases |codes|
  {
    if codes == [] then []
    else [ExitEv(g, codes[0], pids[0])] + SuccessiveExits(g + 1, codes[1..], pids[1..])
  }

  /**
    A child that keeps failing is restarted without end: after `|codes|`
    nonzero exits the supervisor is still running, has spawned one more
    child per exit, and runs the child spawned last.
   */
  lemma {:induction false} FailingChildRestartsForever(alwaysRestart: bool, s: Sup, codes: seq<int>, pids: seq<int>)
    requires Inv(s) && s.running
    requires |codes| == |pids|
    requires forall i :: 0 <= i < |codes| ==> codes[i] != 0
    ensures var t := Run(alwaysRestart, s, SuccessiveExits(s.spawns, codes, pids));
      && t.running && t.spawns == s.spawns + |codes| && Inv(t)
      && (|pids| > 0 ==> Pid(t) == Some(pids[|pids| - 1]))
    decreases |codes|
  {
    if codes != [] {
      var evs := SuccessiveExits(s.spawns, codes, pids);
      var rest := SuccessiveExits(s.spawns + 1, codes[1..], pids[1..]);
      assert evs[0] == ExitEv(s.spawns, codes[0], pids[0]);
      assert evs[1..] == rest;
      assert s.spawns in s.watchers;
      var t := ExitStep(alwaysRestart, s, s.spawns, codes[0], pids[0]);
      assert Step(alwaysRestart, s, evs[0]) == t;
      assert Inv(t);
      assert t.spawns == s.spawns + 1;
      FailingChildRestartsForever(alwaysRestart, t, codes[1..], pids[1..]);
      if |codes| == 1 {
        assert rest == [];
        assert Pid(t) == Some(pids[0]);
      } else {
        assert pids[1..][|pids[1..]| - 1] == pids[|pids| - 1];
      }
    }
  }

  /**
    Two starts in a row orphan the first child: its clean exit clears
    `running` although the second child is still live and still watched, and
    the second child's later failing exit starts a third.
   */
  lemma DoubleStartOrphans(p1: int, p2: int, p3: int, code: int, p4: int)
    requires code != 0
    ensures var s := Run(false, Idle, [StartEv(p1), StartEv(p2), ExitEv(1, 0, p3)]);
      && !s.running && Pid(s) == Some(p2) && Live(s.proc.value) && s.watchers == {2}
      && Step(false, s, ExitEv(2, code, p4)).running
      && Step(false, s, ExitEv(2, code, p4)).spawns == 3
  {
    var evs := [StartEv(p1), StartEv(p2), ExitEv(1, 0, p3)];
    var s1 := StartStep(Idle, p1);
    var s2 := StartStep(s1, p2);
    assert s2.watchers == {1, 2};
    var s3 := ExitStep(false, s2, 1, 0, p3);
    assert s3 == Sup(false, s2.proc, {2}, 2);
    assert evs[1..] == [StartEv(p2), ExitEv(1, 0, p3)];
    assert [StartEv(p2), ExitEv(1, 0, p3)][1..] == [ExitEv(1, 0, p3)];
    assert [ExitEv(1, 0, p3)][1..] == [];
    assert Run(false, s3, []) == s3;
    assert Run(false, s2, [ExitEv(1, 0, p3)]) == s3;
    assert Run(false, s1, [StartEv(p2), ExitEv(1, 0, p3)]) == s3;
    assert Run(false, Idle, evs) == s3;
  }
}
