/**
  The supervisor of the repository-root `simpervisor.py`, an earlier variant
  without the signal relay. Its lock covers only the running check and the
  spawn; `start` never refuses a killed process and clears `_killed` again,
  and `kill` sets `_killed` before taking the lock, sends SIGKILL, and
  returns what `wait` returns. It does not clear `running` itself: the
  watcher, which waits on the same child, does. asyncio wakes the waiters
  of one child in the order they started waiting, so when `kill` follows
  `start` before the watcher task has reached its wait, `kill` returns
  while `running` is still set, and the watcher clears it on a later step.
 */
module EarlySupervisor {
  import opened Common

  /** The fields `running`, `_killed`, `proc`, the generation the pending watcher waits on, spawns so far. */
  datatype Sup = Sup(running: bool, killed: bool, proc: Option<Child>, watcher: Option<nat>, spawns: nat)

  /**
    Raised by `kill`: AttributeError before any start (`self.proc` is None),
    or asyncio's ProcessLookupError when the child has already been reaped.
   */
  datatype KillError = NoProcess | ProcessLookupError

  const Idle := Sup(false, false, None, None, 0)

  predicate ShouldRestart(killed: bool, alwaysRestart: bool, code: int) {
    !killed && (alwaysRestart || code != 0)
  }

  /** The watcher of the current child has not woken yet. */
  predicate Pending(s: Sup) {
    s.proc.Some? && s.watcher == Some(s.proc.value.gen)
  }

  /** The watcher is pending and its child has not been reaped. */
  predicate Watching(s: Sup) {
    Pending(s) && Live(s.proc.value)
  }

  /** `start`: a no-op while running; otherwise spawn, clear `_killed`, set `running`, watch. */
  function StartStep(s: Sup, pid: int): (t: Sup)
    ensures t.running
    ensures s.running ==> t == s
    ensures !s.running ==> !t.killed && Watching(t) && t.spawns == s.spawns + 1
    ensures !s.running ==> Pid(t) == Some(pid) && t.proc.value.returncode.None? && t.proc.value.received == []
  {
    if s.running then s
    else
      var gen := s.spawns + 1;
      Sup(true, false, Some(Spawned(gen, pid)), Some(gen), gen)
  }

  /**
    The watcher's part after its wait returned, before the restart decision:
    a live child exits with `code`; a child that `kill`'s wait already reaped
    gives back the code it recorded.
   */
  function Reaped(s: Sup, code: int): (t: Sup)
    requires Pending(s)
    ensures !t.running && t.watcher.None? && t.killed == s.killed && t.spawns == s.spawns
    ensures t.proc == Some(Reap(s.proc.value, code))
    ensures t.proc.value.returncode == (if Live(s.proc.value) then Some(code) else s.proc.value.returncode)
  {
    s.(running := false, watcher := None, proc := Some(Reap(s.proc.value, code)))
  }

  /** The code the watcher's `await self.proc.wait()` returns. */
  function WaitCode(c: Child, code: int): (rc: int)
    ensures Live(c) ==> rc == code
    ensures !Live(c) ==> Some(rc) == c.returncode
  {
    Reap(c, code).returncode.value
  }

  /**
    `_restart_process_if_needed`: clear `running`, then start again when the
    rule says so for the code the wait returned.
   */
  function ExitStep(alwaysRestart: bool, s: Sup, code: int, pid: int): (t: Sup)
    requires Pending(s)
    ensures t.running <==> ShouldRestart(s.killed, alwaysRestart, WaitCode(s.proc.value, code))
    ensures Live(s.proc.value) ==> (t.running <==> ShouldRestart(s.killed, alwaysRestart, code))
    ensures s.killed ==> t == Reaped(s, code)
  {
    var stopped := Reaped(s, code);
    if ShouldRestart(s.killed, alwaysRestart, WaitCode(s.proc.value, code)) then StartStep(stopped, pid) else stopped
  }

  /**
    The part of `kill` up to its wait: `_killed := True` (outside the lock),
    then under the lock `proc.kill()`, which asyncio refuses for a reaped
    child. Nothing here touches `running`.
   */
  function KillSignalled(s: Sup): (res: Result<Sup, KillError>)
    ensures s.proc.None? ==> res == Err(NoProcess)
    ensures s.proc.Some? && !Live(s.proc.value) ==> res == Err(ProcessLookupError)
    ensures s.proc.Some? && Live(s.proc.value) ==>
      && res.Ok?
      && res.value.running == s.running && res.value.killed
      && res.value.watcher == s.watcher && res.value.spawns == s.spawns
      && res.value.proc.Some? && Live(res.value.proc.value)
      && res.value.proc.value.gen == s.proc.value.gen
      && res.value.proc.value.received == s.proc.value.received + [SigKill]
  {
    if s.proc.None? then Err(NoProcess)
    else
      var sent := Send(AsyncioProcess, s.proc.value, SigKill);
      if sent.None? then Err(ProcessLookupError)
      else Ok(s.(killed := true, proc := sent))
  }

  /**
    `kill`, up to the return of its wait, for a child that exits with `code`.
    `watcherFirst` says whether the watcher started waiting on the child
    before `kill` did, and so is woken first: it then stops the supervisor
    without restarting before `kill` returns. Otherwise `kill` returns with
    the child reaped and `running` still set, and the watcher wakes later.
    When `proc.kill()` raises, `_killed` is already set and nothing else has
    changed.
   */
  function KillStep(s: Sup, code: int, watcherFirst: bool): (res: (Sup, Result<int, KillError>))
    ensures res.0.killed && res.0.spawns == s.spawns
    ensures s.proc.None? ==> res == (s.(killed := true), Err(NoProcess))
    ensures s.proc.Some? && !Live(s.proc.value) ==> res == (s.(killed := true), Err(ProcessLookupError))
    ensures s.proc.Some? && Live(s.proc.value) ==>
      && res.1 == Ok(code)
      && res.0.proc.Some? && res.0.proc.value.returncode == Some(code)
      && res.0.proc.value.received == s.proc.value.received + [SigKill]
    ensures Watching(s) && watcherFirst ==> !res.0.running && res.0.watcher.None?
    ensures Watching(s) && !watcherFirst ==> res.0.running == s.running && res.0.watcher == s.watcher
  {
    match KillSignalled(s)
    case Err(e) => (s.(killed := true), Err(e))
    case Ok(signalled) =>
      var done :=
        if watcherFirst && Watching(signalled) then Reaped(signalled, code)
        else signalled.(proc := Some(Reap(signalled.proc.value, code)));
      (done, Ok(done.proc.value.returncode.value))
  }

  /** `pid`: the current child's pid; AttributeError before any start. */
  function Pid(s: Sup): (r: Option<int>)
    ensures r.Some? <==> s.proc.Some?
    ensures r.Some? ==> r.value == s.proc.value.pid
  {
    if s.proc.None? then None else Some(s.proc.value.pid)
  }

  class EarlySupervisedProcess {
    const alwaysRestart: bool
    var running: bool
    var killed: bool
    var proc: Option<Child>
    var watcher: Option<nat>
    var spawns: nat

    function State(): Sup
      reads this
    {
      Sup(running, killed, proc, watcher, spawns)
    }

    constructor (alwaysRestart: bool)
      ensures State() == Idle && this.alwaysRestart == alwaysRestart
    {
      this.alwaysRestart := alwaysRestart;
      running := false;
      killed := false;
      proc := None;
      watcher := None;
      spawns := 0;
    }

    method Start(pid: int)
      modifies this
      ensures State() == StartStep(old(State()), pid)
    {
      if running {
        return;
      }
      spawns := spawns + 1;
      proc := Some(Spawned(spawns, pid));
      killed := false;
      running := true;
      watcher := Some(spawns);
    }

    method RestartProcessIfNeeded(code: int, pid: int)
      requires Pending(State())
      modifies this
      ensures State() == ExitStep(alwaysRestart, old(State()), code, pid)
    {
      proc := Some(Reap(proc.value, code));
      var retcode := proc.value.returncode.value;
      watcher := None;
      running := false;
      if !killed && (alwaysRestart || retcode != 0) {
        Start(pid);
      }
    }

    method Kill(code: int, watcherFirst: bool) returns (r: Result<int, KillError>)
      modifies this
      ensures (State(), r) == KillStep(old(State()), code, watcherFirst)
    {
      killed := true;
      if proc.None? {
        return Err(NoProcess);
      }
      var sent := Send(AsyncioProcess, proc.value, SigKill);
      if sent.None? {
        return Err(ProcessLookupError);
      }
      proc := sent;
      // If the watcher was waiting first, the child's exit wakes it before
      // `kill`'s own wait; with `_killed` set it only reaps and clears
      // `running`, and never restarts.
      var watched := watcherFirst && Watching(State());
      proc := Some(Reap(proc.value, code));
      if watched {
        watcher := None;
        running := false;
      }
      r := Ok(proc.value.returncode.value);
    }
  }

  // ---------------------------------------------------------------------------
  // Runs.

  /**
    `ExitEv`: the pending watcher wakes, on the child's exit with `code` or,
    when `kill`'s wait already reaped the child, with the recorded code.
    `KillEv`: a whole call of `kill`, in one of the two wake-up orders.
   */
  datatype Event = StartEv(pid: int) | ExitEv(code: int, pid: int) | KillEv(code: int, watcherFirst: bool)

  function Step(alwaysRestart: bool, s: Sup, e: Event): Sup {
    match e
    case StartEv(pid) => StartStep(s, pid)
    case ExitEv(code, pid) => if Pending(s) then ExitStep(alwaysRestart, s, code, pid) else s
    case KillEv(code, watcherFirst) => KillStep(s, code, watcherFirst).0
  }

  function Run(alwaysRestart: bool, s: Sup, evs: seq<Event>): Sup
    decreases |evs|
  {
    if evs == [] then s else Run(alwaysRestart, Step(alwaysRestart, s, evs[0]), evs[1..])
  }

  /**
    The current child's watcher is pending exactly while `running`; a child
    runs only while `running`; and a running supervisor whose child is already
    reaped has been killed, its watcher yet to wake.
   */
  ghost predicate Inv(s: Sup) {
    && (s.proc.None? ==> s.spawns == 0 && !s.running && s.watcher.None?)
    && (s.proc.Some? ==> s.proc.value.gen == s.spawns)
    && (s.running <==> Pending(s))
    && (!s.running ==> s.watcher.None?)
    && (s.proc.Some? && !s.running ==> !Live(s.proc.value))
    && (s.running && !Live(s.proc.value) ==> s.killed)
  }

  lemma {:induction false} RunPreservesInv(alwaysRestart: bool, s: Sup, evs: seq<Event>)
    requires Inv(s)
    ensures Inv(Run(alwaysRestart, s, evs))
    decreases |evs|
  {
    if evs != [] {
      var t := Step(alwaysRestart, s, evs[0]);
      assert Inv(t);
      RunPreservesInv(alwaysRestart, t, evs[1..]);
    }
  }

  /**
    `kill` on a running child: SIGKILL is delivered and the child's code is
    returned. If the watcher was waiting first it has already stopped the
    supervisor; otherwise `running` is still set when `kill` returns, and the
    watcher's later wake-up stops it, with the recorded code, and does not
    restart.
   */
  lemma KillRunning(alwaysRestart: bool, s: Sup, code: int, watcherFirst: bool, code2: int, pid: int)
    requires Inv(s) && s.running && Live(s.proc.value)
    ensures var (t, r) := KillStep(s, code, watcherFirst);
      && r == Ok(code) && t.killed && t.spawns == s.spawns
      && t.proc.value.received == s.proc.value.received + [SigKill]
      && Inv(t)
      && (watcherFirst ==> !t.running)
      && (!watcherFirst ==> t.running && Pending(t))
      && (!watcherFirst ==>
            var u := ExitStep(alwaysRestart, t, code2, pid);
            !u.running && u.spawns == s.spawns && u.proc.value.returncode == Some(code))
  {
  }

  /**
    Unlike the package version, `start` after `kill` spawns again and clears
    `_killed`, so a later failing exit is restarted once more.
   */
  lemma StartAfterKillReenablesRestarts(alwaysRestart: bool, s: Sup, pid: int, code: int, pid2: int)
    requires Inv(s) && s.killed && !s.running
    requires code != 0
    ensures var t := StartStep(s, pid);
      && t.running && !t.killed && t.spawns == s.spawns + 1
      && ExitStep(alwaysRestart, t, code, pid2).running
  {
  }

  /**
    `kill` after the child already stopped: asyncio's `kill()` raises
    ProcessLookupError once `_killed` is set, and since `start` ignores
    `_killed`, a later start still spawns and clears it again.
   */
  lemma KillAfterExitRaises(s: Sup, code: int, pid: int)
    requires Inv(s) && !s.running && s.proc.Some?
    ensures forall wf :: KillStep(s, code, wf) == (s.(killed := true), Err(ProcessLookupError))
    ensures var t := StartStep(KillStep(s, code, true).0, pid);
      t.running && !t.killed && t.spawns == s.spawns + 1
  {
  }

  /** From construction: start, kill with the watcher woken first, start leaves a live, restartable child. */
  lemma StartKillStart(alwaysRestart: bool, p1: int, code: int, p2: int)
    ensures var s := Run(alwaysRestart, Idle, [StartEv(p1), KillEv(code, true), StartEv(p2)]);
      s.running && !s.killed && Pid(s) == Some(p2) && s.spawns == 2
  {
    var evs := [StartEv(p1), KillEv(code, true), StartEv(p2)];
    var s1 := StartStep(Idle, p1);
    var s2 := KillStep(s1, code, true).0;
    var s3 := StartStep(s2, p2);
    assert Watching(s1);
    assert !s2.running && s2.spawns == 1;
    assert Step(alwaysRestart, Idle, evs[0]) == s1;
    assert Step(alwaysRestart, s1, KillEv(code, true)) == s2;
    assert Step(alwaysRestart, s2, StartEv(p2)) == s3;
    assert evs[1..] == [KillEv(code, true), StartEv(p2)];
    assert [KillEv(code, true), StartEv(p2)][1..] == [StartEv(p2)];
    assert [StartEv(p2)][1..] == [];
    assert Run(alwaysRestart, s3, []) == s3;
    assert Run(alwaysRestart, s2, [StartEv(p2)]) == s3;
    assert Run(alwaysRestart, s1, [KillEv(code, true), StartEv(p2)]) == s3;
    assert Run(alwaysRestart, Idle, evs) == s3;
  }

  /**
    `start`, `start`, `kill` with no yield in between, so the watcher task has
    not reached its wait and `kill`'s wait is woken first: `kill` returns the
    code while `running` is still set, a `start` then is a no-op, and the
    watcher's wake-up afterwards stops the supervisor for good although
    `always_restart` is set.
   */
  lemma KillBeforeWatcherWaits(p1: int, p2: int, code: int, p3: int, code2: int, p4: int)
    ensures var s := Run(true, Idle, [StartEv(p1), StartEv(p2), KillEv(code, false)]);
      && s.running && s.killed && Pid(s) == Some(p1) && s.spawns == 1
      && s.proc.value.returncode == Some(code)
      && KillStep(StartStep(Idle, p1), code, false).1 == Ok(code)
      && Step(true, s, StartEv(p3)) == s
      && var u := Step(true, s, ExitEv(code2, p4));
         !u.running && u.killed && u.spawns == 1 && u.proc.value.returncode == Some(code)
  {
    var evs := [StartEv(p1), StartEv(p2), KillEv(code, false)];
    var s1 := StartStep(Idle, p1);
    var s3 := KillStep(s1, code, false).0;
    assert Watching(s1);
    assert s3.running && Pending(s3) && s3.spawns == 1;
    assert Step(true, Idle, evs[0]) == s1;
    assert Step(true, s1, StartEv(p2)) == s1;
    assert Step(true, s1, KillEv(code, false)) == s3;
    assert evs[1..] == [StartEv(p2), KillEv(code, false)];
    assert [StartEv(p2), KillEv(code, false)][1..] == [KillEv(code, false)];
    assert [KillEv(code, false)][1..] == [];
    assert Run(true, s3, []) == s3;
    assert Run(true, s1, [KillEv(code, false)]) == s3;
    assert Run(true, s1, [StartEv(p2), KillEv(code, false)]) == s3;
    assert Run(true, Idle, evs) == s3;
    assert Step(true, s3, ExitEv(code2, p4)) == Reaped(s3, code2);
  }
}
