/**
  The supervisor of the `simpervisor` package: one child process kept alive
  by a watcher that restarts it, a one-way "killed" latch set by terminate,
  kill and relayed host signals, and a bound signal handler kept registered
  with the relay while a child runs.

  Each block the source runs under its instance lock is one atomic step, and
  so is a watcher's wake-up (its wait returns, it unregisters, clears
  `running` and, if the restart rule says so, runs `start`, whose lock is
  free at that moment). The OS supplies pids and exit codes as parameters.
 */
module Supervisor {
  import opened Common
  import opened AtExitAsync

  /** The two process backends, chosen by platform on every spawn. */
  datatype Backend = PosixProcess | WindowsProcess

  function BackendFor(p: Platform): (b: Backend)
    ensures b == WindowsProcess <==> p == Win32
  {
    if p == Win32 then WindowsProcess else PosixProcess
  }

  /** `get_kill_signal`: Windows has no SIGKILL, so its backend kills with SIGTERM. */
  function KillSignal(b: Backend): (sig: Signal)
    ensures sig == SigKill <==> HandleOf(b) == AsyncioProcess
    ensures sig != SigKill ==> sig == SigTerm
  {
    match b
    case PosixProcess => SigKill
    case WindowsProcess => SigTerm
  }

  /** The POSIX backend wraps asyncio's `Process`, the Windows backend a `subprocess.Popen`. */
  function HandleOf(b: Backend): (h: Handle)
    ensures h == PopenObject <==> b == WindowsProcess
  {
    match b
    case PosixProcess => AsyncioProcess
    case WindowsProcess => PopenObject
  }

  /** A backend object (`self.proc`) and the child it spawned. */
  datatype Proc = Proc(backend: Backend, child: Child)

  /** `Process.send_signal` on this backend does not raise. */
  predicate Signalable(p: Proc) {
    Accepts(HandleOf(p.backend), p.child)
  }

  datatype ProcessError =
    | KilledProcessError      // raised by start, terminate and kill once killed
    | NoProcess               // AttributeError: `self.proc` is still None
    | HandlerNotRegistered    // ValueError from remove_handler
    | ProcessLookupError      // asyncio's send_signal on a child already reaped

  /** What is fixed at construction: the identity of the bound handler, the restart policy, the platform. */
  datatype Config = Config(me: HandlerId, alwaysRestart: bool, platform: Platform)

  /**
    The supervisor's fields: `running`, `_killed`, `proc`, the generation the
    pending watcher (`_restart_process_future`) waits on, and the number of
    backend objects created so far.
   */
  datatype Sup = Sup(running: bool, killed: bool, proc: Option<Proc>, watcher: Option<nat>, spawns: nat)

  /** The new supervisor state, the new relay state, and what the call returned or raised. */
  datatype Transition = Transition(sup: Sup, reg: RegState, outcome: Outcome<ProcessError>)

  /** A freshly constructed supervisor. */
  const Idle := Sup(false, false, None, None, 0)

  /** The restart rule applied when a child exits with `code`. */
  predicate ShouldRestart(killed: bool, alwaysRestart: bool, code: int) {
    !killed && (alwaysRestart || code != 0)
  }

  /** The pending watcher is the one this child's exit wakes. */
  predicate Watching(s: Sup) {
    s.proc.Some? && Live(s.proc.value.child) && s.watcher == Some(s.proc.value.child.gen)
  }

  /** `start`, holding the lock throughout. */
  function StartStep(c: Config, s: Sup, r: RegState, pid: int): (t: Transition)
    ensures s.running ==> t == Transition(s, r, Pass)
    ensures !s.running && s.killed ==> t == Transition(s, r, Fail(KilledProcessError))
    ensures t.sup.killed == s.killed
  {
    if s.running then Transition(s, r, Pass)
    else if s.killed then Transition(s, r, Fail(KilledProcessError))
    else
      var gen := s.spawns + 1;
      Transition(Sup(true, false, Some(Proc(BackendFor(c.platform), Spawned(gen, pid))), Some(gen), gen),
                 Add(r, c.me), Pass)
  }

  /**
    `_restart_process_if_needed` after its wait returned `code`: unregister,
    clear `running`, and start again when the rule says so (`pid` is what a
    restart would be given). If the handler is missing, remove_handler raises
    and the watcher coroutine ends there.
   */
  function ExitStep(c: Config, s: Sup, r: RegState, code: int, pid: int): (t: Transition)
    requires Watching(s)
    ensures t.sup.killed == s.killed
    ensures t.outcome == Pass ==> (t.sup.running <==> ShouldRestart(s.killed, c.alwaysRestart, code))
  {
    var p := s.proc.value;
    var reaped := s.(proc := Some(p.(child := Reap(p.child, code))), watcher := None);
    var removal := Remove(r, c.me);
    if removal.1.Fail? then Transition(reaped, removal.0, Fail(HandlerNotRegistered))
    else
      var stopped := reaped.(running := false);
      if ShouldRestart(s.killed, c.alwaysRestart, code) then StartStep(c, stopped, removal.0, pid)
      else Transition(stopped, removal.0, Pass)
  }

  /**
    `_signal_and_wait`, holding the lock: signal the child, latch `_killed`,
    cancel the watcher, wait for the child (which exits with `code` if it was
    still live), clear `running`, unregister. When the backend raises on the
    signal, nothing after it runs and nothing has changed.
   */
  function SignalAndWaitStep(c: Config, s: Sup, r: RegState, signum: Signal, code: int): (t: Transition)
    ensures s.proc.None? ==> t == Transition(s, r, Fail(NoProcess))
    ensures s.proc.Some? && !Signalable(s.proc.value) ==> t == Transition(s, r, Fail(ProcessLookupError))
    ensures s.proc.Some? && Signalable(s.proc.value) ==>
      && t.sup.killed && !t.sup.running && t.sup.watcher.None? && t.sup.spawns == s.spawns
      && t.sup.proc.Some? && !Live(t.sup.proc.value.child)
      && (t.outcome == Pass <==> c.me in r.handlers)
  {
    if s.proc.None? then Transition(s, r, Fail(NoProcess))
    else
      var p := s.proc.value;
      var sent := Send(HandleOf(p.backend), p.child, signum);
      if sent.None? then Transition(s, r, Fail(ProcessLookupError))
      else
        var waited := p.(child := Reap(sent.value, code));
        var removal := Remove(r, c.me);
        Transition(Sup(false, true, Some(waited), None, s.spawns), removal.0,
                   if removal.1.Pass? then Pass else Fail(HandlerNotRegistered))
  }

  /** `terminate`: refuse once killed, before any signal; otherwise SIGTERM and reap. */
  function TerminateStep(c: Config, s: Sup, r: RegState, code: int): (t: Transition)
    ensures s.killed ==> t == Transition(s, r, Fail(KilledProcessError))
    ensures !s.killed && s.proc.None? ==> t == Transition(s, r, Fail(NoProcess))
    ensures !s.killed && s.proc.Some? && !Signalable(s.proc.value) ==> t == Transition(s, r, Fail(ProcessLookupError))
    ensures !s.killed && s.proc.Some? && Signalable(s.proc.value) ==>
      t.sup.killed && !t.sup.running && t.sup.proc.Some? && t.sup.proc.value.child.received == s.proc.value.child.received + (if Live(s.proc.value.child) then [SigTerm] else [])
  {
    if s.killed then Transition(s, r, Fail(KilledProcessError))
    else SignalAndWaitStep(c, s, r, SigTerm, code)
  }

  /** `kill`: refuse once killed; otherwise the backend's kill signal and reap. */
  function KillStep(c: Config, s: Sup, r: RegState, code: int): (t: Transition)
    ensures s.killed ==> t == Transition(s, r, Fail(KilledProcessError))
    ensures !s.killed && s.proc.None? ==> t == Transition(s, r, Fail(NoProcess))
    ensures !s.killed && s.proc.Some? && !Signalable(s.proc.value) ==> t == Transition(s, r, Fail(ProcessLookupError))
    ensures !s.killed && s.proc.Some? && Signalable(s.proc.value) ==>
      t.sup.killed && !t.sup.running && t.sup.proc.Some? && t.sup.proc.value.child.received == s.proc.value.child.received + (if Live(s.proc.value.child) then [KillSignal(s.proc.value.backend)] else [])
  {
    if s.killed then Transition(s, r, Fail(KilledProcessError))
    else if s.proc.None? then Transition(s, r, Fail(NoProcess))
    else SignalAndWaitStep(c, s, r, KillSignal(s.proc.value.backend), code)
  }

  /**
    The bound `_handle_signal`: forward to the child and latch `_killed`;
    `running` is left alone. When the backend raises on the signal, the latch
    stays as it was.
   */
  function HandleSignalStep(c: Config, s: Sup, r: RegState, sig: Signal): (t: Transition)
    ensures s.proc.None? ==> t == Transition(s, r, Fail(NoProcess))
    ensures s.proc.Some? && !Signalable(s.proc.value) ==> t == Transition(s, r, Fail(ProcessLookupError))
    ensures s.proc.Some? && Signalable(s.proc.value) ==>
      && t.outcome == Pass && t.sup.killed && t.sup.running == s.running && t.reg == r
      && t.sup.spawns == s.spawns && t.sup.watcher == s.watcher
      && (Live(s.proc.value.child) ==> t.sup.proc.Some? && t.sup.proc.value.child.received == s.proc.value.child.received + [sig])
  {
    if s.proc.None? then Transition(s, r, Fail(NoProcess))
    else
      var p := s.proc.value;
      var sent := Send(HandleOf(p.backend), p.child, sig);
      if sent.None? then Transition(s, r, Fail(ProcessLookupError))
      else Transition(s.(killed := true, proc := Some(p.(child := sent.value))), r, Pass)
  }

  /** The guard at the top of each `ready` poll: give up at once when killed or never started. */
  function ReadyGivesUp(s: Sup): (giveUp: bool)
    ensures giveUp <==> s.killed || Pid(s).Err?
  {
    s.killed || s.proc.None?
  }

  /** `pid`: the current backend's pid; AttributeError before the first start. */
  function Pid(s: Sup): (r: Result<int, ProcessError>)
    ensures r.Ok? <==> s.proc.Some?
    ensures r.Ok? ==> r.value == s.proc.value.child.pid
  {
    if s.proc.None? then Err(NoProcess) else Ok(s.proc.value.child.pid)
  }

  /** `returncode`: None while the current child is live. */
  function ReturnCode(s: Sup): (r: Result<Option<int>, ProcessError>)
    ensures r.Ok? <==> s.proc.Some?
    ensures r.Ok? ==> (r.value.None? <==> Live(s.proc.value.child))
  {
    if s.proc.None? then Err(NoProcess) else Ok(s.proc.value.child.returncode)
  }

  // ---------------------------------------------------------------------------
  // The supervisor as an object with fields updated in place.

  class SupervisedProcess {
    const me: HandlerId
    const alwaysRestart: bool
    const platform: Platform
    const registry: Registry
    var running: bool
    var killed: bool
    var proc: Option<Proc>
    var restartFuture: Option<nat>
    var spawns: nat

    function Cfg(): Config {
      Config(me, alwaysRestart, platform)
    }

    function State(): Sup
      reads this
    {
      Sup(running, killed, proc, restartFuture, spawns)
    }

    constructor (me: HandlerId, alwaysRestart: bool, platform: Platform, registry: Registry)
      ensures State() == Idle
      ensures Cfg() == Config(me, alwaysRestart, platform) && this.registry == registry
    {
      this.me := me;
      this.alwaysRestart := alwaysRestart;
      this.platform := platform;
      this.registry := registry;
      running := false;
      killed := false;
      proc := None;
      restartFuture := None;
      spawns := 0;
    }

    method Start(pid: int) returns (r: Outcome<ProcessError>)
      modifies this, registry
      ensures Transition(State(), registry.Abs(), r) == StartStep(Cfg(), old(State()), old(registry.Abs()), pid)
    {
      if running {
        return Pass;
      }
      if killed {
        return Fail(KilledProcessError);
      }
      var backend := BackendFor(platform);
      spawns := spawns + 1;
      proc := Some(Proc(backend, Spawned(spawns, pid)));
      killed := false;
      running := true;
      restartFuture := Some(spawns);
      registry.AddHandler(me);
      r := Pass;
    }

    method RestartProcessIfNeeded(code: int, pid: int) returns (r: Outcome<ProcessError>)
      requires Watching(State())
      modifies this, registry
      ensures Transition(State(), registry.Abs(), r) == ExitStep(Cfg(), old(State()), old(registry.Abs()), code, pid)
    {
      var p := proc.value;
      proc := Some(p.(child := Reap(p.child, code)));
      restartFuture := None;
      var removed := registry.RemoveHandler(me);
      if removed.Fail? {
        return Fail(HandlerNotRegistered);
      }
      running := false;
      if !killed && (alwaysRestart || code != 0) {
        r := Start(pid);
      } else {
        r := Pass;
      }
    }

    method SignalAndWait(signum: Signal, code: int) returns (r: Outcome<ProcessError>)
      modifies this, registry
      ensures Transition(State(), registry.Abs(), r) == SignalAndWaitStep(Cfg(), old(State()), old(registry.Abs()), signum, code)
    {
      if proc.None? {
        return Fail(NoProcess);
      }
      var sent := Send(HandleOf(proc.value.backend), proc.value.child, signum);
      if sent.None? {
        return Fail(ProcessLookupError);
      }
      proc := Some(proc.value.(child := sent.value));
      killed := true;
      restartFuture := None;
      proc := Some(proc.value.(child := Reap(proc.value.child, code)));
      running := false;
      var removed := registry.RemoveHandler(me);
      r := if removed.Pass? then Pass else Fail(HandlerNotRegistered);
    }

    method Terminate(code: int) returns (r: Outcome<ProcessError>)
      modifies this, registry
      ensures Transition(State(), registry.Abs(), r) == TerminateStep(Cfg(), old(State()), old(registry.Abs()), code)
    {
      if killed {
        return Fail(KilledProcessError);
      }
      r := SignalAndWait(SigTerm, code);
    }

    method Kill(code: int) returns (r: Outcome<ProcessError>)
      modifies this, registry
      ensures Transition(State(), registry.Abs(), r) == KillStep(Cfg(), old(State()), old(registry.Abs()), code)
    {
      if killed {
        return Fail(KilledProcessError);
      }
      if proc.None? {
        return Fail(NoProcess);
      }
      var signum := KillSignal(proc.value.backend);
      r := SignalAndWait(signum, code);
    }

    method HandleSignal(sig: Signal) returns (r: Outcome<ProcessError>)
      modifies this
      ensures Transition(State(), registry.Abs(), r) == HandleSignalStep(Cfg(), old(State()), registry.Abs(), sig)
    {
      if proc.None? {
        return Fail(NoProcess);
      }
      var sent := Send(HandleOf(proc.value.backend), proc.value.child, sig);
      if sent.None? {
        return Fail(ProcessLookupError);
      }
      proc := Some(proc.value.(child := sent.value));
      killed := true;
      r := Pass;
    }
  }

  // ---------------------------------------------------------------------------
  // Everything that can happen to one supervisor, and runs of it.

  datatype Event =
    | StartEv(pid: int)                  // an owner calls start
    | ExitEv(code: int, pid: int)        // the child exits; restarting would spawn `pid`
    | TerminateEv(code: int)             // an owner calls terminate; the child exits with `code`
    | KillEv(code: int)                  // an owner calls kill
    | HostSignalEv(sig: Signal)          // the host receives a signal; only SIGINT and SIGTERM are hooked
    | ForeignAdd(h: HandlerId)           // another supervisor registers its handler
    | ForeignRemove(h: HandlerId)        // another supervisor unregisters its handler

  function Step(c: Config, s: Sup, r: RegState, e: Event): Transition {
    match e
    case StartEv(pid) => StartStep(c, s, r, pid)
    case ExitEv(code, pid) =>
      if Watching(s) then ExitStep(c, s, r, code, pid) else Transition(s, r, Pass)
    case TerminateEv(code) => TerminateStep(c, s, r, code)
    case KillEv(code) => KillStep(c, s, r, code)
    case HostSignalEv(sig) =>
      if c.me in r.handlers && (sig == SigInt || sig == SigTerm) then HandleSignalStep(c, s, r, Forwarded(sig, c.platform))
      else Transition(s, r, Pass)
    case ForeignAdd(h) =>
      if h == c.me then Transition(s, r, Pass) else Transition(s, Add(r, h), Pass)
    case ForeignRemove(h) =>
      if h == c.me then Transition(s, r, Pass) else Transition(s, Remove(r, h).0, Pass)
  }

  function Run(c: Config, s: Sup, r: RegState, evs: seq<Event>): (Sup, RegState)
    decreases |evs|
  {
    if evs == [] then (s, r)
    else
      var t := Step(c, s, r, evs[0]);
      Run(c, t.sup, t.reg, evs[1..])
  }

  /**
    What holds in every reachable state: a child runs exactly while
    `running`, the pending watcher is the current child's, the bound handler
    is registered once while running and not at all otherwise, and the
    current backend object is the latest one created.
   */
  ghost predicate Inv(c: Config, s: Sup, r: RegState) {
    && (s.proc.None? ==> s.spawns == 0 && !s.running && s.watcher.None?)
    && (s.proc.Some? ==> s.proc.value.child.gen == s.spawns && s.proc.value.backend == BackendFor(c.platform))
    && (s.running <==> Watching(s))
    && (!s.running ==> s.watcher.None?)
    && (s.proc.Some? && !s.running ==> !Live(s.proc.value.child))
    && multiset(r.handlers)[c.me] == (if s.running then 1 else 0)
  }

  lemma InvInitially(c: Config, r: RegState)
    requires c.me !in r.handlers
    ensures Inv(c, Idle, r)
  {
  }

  /**
    The effects of `start` in each of its three cases: a no-op while
    running (same backend, same pid, no second registration), an error that
    changes nothing once killed, and otherwise a fresh backend object whose
    child has the given pid, one watcher on it, and one more registration.
   */
  lemma StartEffects(c: Config, s: Sup, r: RegState, pid: int)
    requires Inv(c, s, r)
    ensures var t := StartStep(c, s, r, pid);
      && (s.running ==> t == Transition(s, r, Pass))
      && (!s.running && s.killed ==> t == Transition(s, r, Fail(KilledProcessError)))
      && (!s.running && !s.killed ==>
           && t.outcome == Pass && t.sup.running && !t.sup.killed
           && t.sup.spawns == s.spawns + 1
           && (s.proc.Some? ==> t.sup.proc.value.child.gen > s.proc.value.child.gen)
           && t.sup.proc.value.backend == BackendFor(c.platform)
           && Pid(t.sup) == Ok(pid) && ReturnCode(t.sup) == Ok(None)
           && Watching(t.sup)
           && t.reg.handlers == r.handlers + [c.me]
           && multiset(t.reg.handlers)[c.me] == 1
           && t.reg.installed)
  {
  }

  lemma CountAfterAdd(r: RegState, h: HandlerId, x: HandlerId)
    ensures multiset(Add(r, h).handlers)[x] == multiset(r.handlers)[x] + (if h == x then 1 else 0)
  {
  }

  lemma CountAfterRemove(r: RegState, h: HandlerId, x: HandlerId)
    requires h in r.handlers
    ensures multiset(Remove(r, h).0.handlers)[x] == multiset(r.handlers)[x] - (if h == x then 1 else 0)
  {
    RemoveFirstMultiset(r.handlers, h);
  }

  /** The watcher's wake-up under the invariant: it never raises, and it restarts exactly when the rule says. */
  lemma ExitRestartsIff(c: Config, s: Sup, r: RegState, code: int, pid: int)
    requires Inv(c, s, r) && Watching(s)
    ensures var t := ExitStep(c, s, r, code, pid);
      && t.outcome == Pass
      && (t.sup.running <==> ShouldRestart(s.killed, c.alwaysRestart, code))
      && (t.sup.running ==> t.sup.spawns == s.spawns + 1 && Pid(t.sup) == Ok(pid))
      && (!t.sup.running ==> t.sup.spawns == s.spawns && ReturnCode(t.sup) == Ok(Some(code)))
      && t.sup.killed == s.killed
      && Inv(c, t.sup, t.reg)
  {
    assert c.me in r.handlers;
    var removal := Remove(r, c.me);
    CountAfterRemove(r, c.me, c.me);
    if ShouldRestart(s.killed, c.alwaysRestart, code) {
      CountAfterAdd(removal.0, c.me, c.me);
    }
  }

  lemma {:induction false} StepPreservesInv(c: Config, s: Sup, r: RegState, e: Event)
    requires Inv(c, s, r)
    ensures var t := Step(c, s, r, e); Inv(c, t.sup, t.reg)
  {
    match e
    case StartEv(pid) =>
      if !s.running && !s.killed { CountAfterAdd(r, c.me, c.me); }
    case ExitEv(code, pid) =>
      if Watching(s) { ExitRestartsIff(c, s, r, code, pid); }
    case TerminateEv(code) => StopPreservesInv(c, s, r, code, false);
    case KillEv(code) => StopPreservesInv(c, s, r, code, true);
    case HostSignalEv(sig) =>
    case ForeignAdd(h) => ForeignAddPreservesInv(c, s, r, h);
    case ForeignRemove(h) => ForeignRemovePreservesInv(c, s, r, h);
  }

  lemma StopPreservesInv(c: Config, s: Sup, r: RegState, code: int, useKill: bool)
    requires Inv(c, s, r)
    ensures var t := if useKill then KillStep(c, s, r, code) else TerminateStep(c, s, r, code);
      Inv(c, t.sup, t.reg)
  {
    if !s.killed && s.proc.Some? && c.me in r.handlers { CountAfterRemove(r, c.me, c.me); }
  }

  /** The invariant depends on the relay only through this supervisor's registration count. */
  lemma InvOnlyNeedsOwnCount(c: Config, s: Sup, r: RegState, r': RegState)
    requires Inv(c, s, r) && multiset(r'.handlers)[c.me] == multiset(r.handlers)[c.me]
    ensures Inv(c, s, r')
  {
  }

  /** Another supervisor's add leaves this one's registration count alone. */
  lemma ForeignAddPreservesInv(c: Config, s: Sup, r: RegState, h: HandlerId)
    requires Inv(c, s, r)
    ensures var t := Step(c, s, r, ForeignAdd(h)); Inv(c, t.sup, t.reg)
  {
    if h != c.me {
      assert Step(c, s, r, ForeignAdd(h)) == Transition(s, Add(r, h), Pass);
      CountAfterAdd(r, h, c.me);
      InvOnlyNeedsOwnCount(c, s, r, Add(r, h));
    }
  }

  /** Another supervisor's remove leaves this one's registration count alone. */
  lemma ForeignRemovePreservesInv(c: Config, s: Sup, r: RegState, h: HandlerId)
    requires Inv(c, s, r)
    ensures var t := Step(c, s, r, ForeignRemove(h)); Inv(c, t.sup, t.reg)
  {
    if h != c.me {
      var r' := Remove(r, h).0;
      assert Step(c, s, r, ForeignRemove(h)) == Transition(s, r', Pass);
      if h in r.handlers {
        CountAfterRemove(r, h, c.me);
        InvOnlyNeedsOwnCount(c, s, r, r');
      } else {
        assert r' == r;
      }
    }
  }

  lemma {:induction false} RunPreservesInv(c: Config, s: Sup, r: RegState, evs: seq<Event>)
    requires Inv(c, s, r)
    ensures var w := Run(c, s, r, evs); Inv(c, w.0, w.1)
    decreases |evs|
  {
    if evs != [] {
      var t := Step(c, s, r, evs[0]);
      StepPreservesInv(c, s, r, evs[0]);
      RunPreservesInv(c, t.sup, t.reg, evs[1..]);
    }
  }

  /** Every state reachable from construction satisfies the invariant. */
  lemma Reachable(c: Config, r: RegState, evs: seq<Event>)
    requires c.me !in r.handlers
    ensures var w := Run(c, Idle, r, evs); Inv(c, w.0, w.1)
  {
    RunPreservesInv(c, Idle, r, evs);
  }

  /** `_killed` never goes back to False, whatever happens next. */
  lemma {:induction false} KilledIsLatched(c: Config, s: Sup, r: RegState, evs: seq<Event>)
    requires s.killed
    ensures Run(c, s, r, evs).0.killed
    decreases |evs|
  {
    if evs != [] {
      var t := Step(c, s, r, evs[0]);
      assert t.sup.killed;
      KilledIsLatched(c, t.sup, t.reg, evs[1..]);
    }
  }

  /**
    Once killed, no backend object is ever created again and a supervisor
    that is not running never runs again: no restart follows a kill, a
    terminate or a relayed signal, even with `always_restart`.
   */
  lemma {:induction false} KilledNeverRespawns(c: Config, s: Sup, r: RegState, evs: seq<Event>)
    requires Inv(c, s, r) && s.killed
    ensures var w := Run(c, s, r, evs);
      w.0.spawns == s.spawns && (w.0.running ==> s.running)
    decreases |evs|
  {
    if evs != [] {
      var t := Step(c, s, r, evs[0]);
      StepPreservesInv(c, s, r, evs[0]);
      assert t.sup.killed && t.sup.spawns == s.spawns && (t.sup.running ==> s.running);
      KilledNeverRespawns(c, t.sup, t.reg, evs[1..]);
    }
  }

  /** Once killed, every later `ready` poll gives up at its guard. */
  lemma {:induction false} ReadyGivesUpOnceKilled(c: Config, s: Sup, r: RegState, evs: seq<Event>)
    requires s.killed
    ensures ReadyGivesUp(Run(c, s, r, evs).0)
  {
    KilledIsLatched(c, s, r, evs);
  }

  /**
    `terminate` and `kill` on a running, not yet killed supervisor: the
    child receives exactly the method's signal (SIGTERM, or the backend's kill
    signal), the latch is set, nothing runs, the handler is gone, and neither
    raises.
   */
  lemma StopRunning(c: Config, s: Sup, r: RegState, code: int, useKill: bool)
    requires Inv(c, s, r) && s.running && !s.killed
    ensures var t := if useKill then KillStep(c, s, r, code) else TerminateStep(c, s, r, code);
      var sig := if useKill then KillSignal(BackendFor(c.platform)) else SigTerm;
      && t.outcome == Pass
      && t.sup.killed && !t.sup.running && t.sup.watcher.None?
      && t.sup.proc.value.child.received == s.proc.value.child.received + [sig]
      && ReturnCode(t.sup) == Ok(Some(code))
      && multiset(t.reg.handlers)[c.me] == 0
      && Inv(c, t.sup, t.reg)
  {
    assert c.me in r.handlers;
    CountAfterRemove(r, c.me, c.me);
  }

  /** After a successful terminate or kill, start, terminate and kill all raise KilledProcessError. */
  lemma AfterKillAllRaise(c: Config, s: Sup, r: RegState, pid: int, code: int)
    requires s.killed
    ensures StartStep(c, s, r, pid).outcome == Fail(KilledProcessError) || s.running
    ensures TerminateStep(c, s, r, code) == Transition(s, r, Fail(KilledProcessError))
    ensures KillStep(c, s, r, code) == Transition(s, r, Fail(KilledProcessError))
  {
  }

  /**
    A relayed host signal on a running supervisor: the child receives the
    forwarded signal, the latch is set and `running` is untouched; when that
    child later exits, nothing is restarted, even with `always_restart`.
   */
  lemma HostSignalStopsRestarts(c: Config, s: Sup, r: RegState, sig: Signal, code: int, pid: int)
    requires Inv(c, s, r) && s.running
    requires sig == SigInt || sig == SigTerm
    ensures var t := Step(c, s, r, HostSignalEv(sig));
      && t.outcome == Pass && t.sup.killed && t.sup.running && t.reg == r
      && t.sup.proc.value.child.received == s.proc.value.child.received + [Forwarded(sig, c.platform)]
      && var u := Step(c, t.sup, t.reg, ExitEv(code, pid));
         !u.sup.running && u.sup.spawns == s.spawns && u.outcome == Pass
  {
    assert c.me in r.handlers;
    var t := HandleSignalStep(c, s, r, Forwarded(sig, c.platform));
    assert Step(c, s, r, HostSignalEv(sig)) == t;
    assert t.sup == s.(killed := true, proc := Some(s.proc.value.(child := Deliver(s.proc.value.child, Forwarded(sig, c.platform)))));
    assert Inv(c, t.sup, t.reg) && Watching(t.sup);
    ExitRestartsIff(c, t.sup, t.reg, code, pid);
    assert Step(c, t.sup, t.reg, ExitEv(code, pid)) == ExitStep(c, t.sup, t.reg, code, pid);
  }

  /**
    `terminate` or `kill` after the child exited on its own and was not
    restarted. On Windows, Popen ignores the signal, the latch is set, and
    remove_handler raises ValueError because the watcher already removed the
    handler. On POSIX, asyncio raises ProcessLookupError at the signal, before
    the latch: nothing changes, and a later start spawns a new child.
   */
  lemma StopAfterNaturalExit(c: Config, s: Sup, r: RegState, code: int, pid: int)
    requires Inv(c, s, r) && !s.running && !s.killed && s.proc.Some?
    ensures c.platform == Win32 ==>
      var t := TerminateStep(c, s, r, code);
      t.outcome == Fail(HandlerNotRegistered) && t.sup.killed && t.reg == r
    ensures c.platform == Win32 ==>
      var t := KillStep(c, s, r, code);
      t.outcome == Fail(HandlerNotRegistered) && t.sup.killed && t.reg == r
    ensures c.platform == Posix ==> TerminateStep(c, s, r, code) == Transition(s, r, Fail(ProcessLookupError))
    ensures c.platform == Posix ==> KillStep(c, s, r, code) == Transition(s, r, Fail(ProcessLookupError))
    ensures c.platform == Posix ==>
      var t := StartStep(c, s, r, pid);
      t.outcome == Pass && t.sup.running && t.sup.spawns == s.spawns + 1
  {
    assert c.me !in multiset(r.handlers);
  }

  /**
    From construction, start and then a clean exit: with `always_restart` a
    second child runs under the new pid; without it the supervisor stays
    stopped with code 0 recorded.
   */
  lemma CleanExitRestartsIffAlways(c: Config, r: RegState, p1: int, p2: int)
    requires c.me !in r.handlers
    ensures var w := Run(c, Idle, r, [StartEv(p1), ExitEv(0, p2)]);
      && (w.0.running <==> c.alwaysRestart)
      && (c.alwaysRestart ==> Pid(w.0) == Ok(p2) && w.0.spawns == 2)
      && (!c.alwaysRestart ==> w.0.spawns == 1 && ReturnCode(w.0) == Ok(Some(0)))
  {
    var evs := [StartEv(p1), ExitEv(0, p2)];
    var t1 := StartStep(c, Idle, r, p1);
    CountAfterAdd(r, c.me, c.me);
    assert Watching(t1.sup) && Inv(c, t1.sup, t1.reg);
    var t2 := ExitStep(c, t1.sup, t1.reg, 0, p2);
    ExitRestartsIff(c, t1.sup, t1.reg, 0, p2);
    assert Step(c, Idle, r, StartEv(p1)) == t1;
    assert Step(c, t1.sup, t1.reg, ExitEv(0, p2)) == t2;
    assert evs[1..] == [ExitEv(0, p2)];
    assert [ExitEv(0, p2)][1..] == [];
    assert Run(c, t2.sup, t2.reg, []) == (t2.sup, t2.reg);
    assert Run(c, t1.sup, t1.reg, [ExitEv(0, p2)]) == (t2.sup, t2.reg);
    assert Run(c, Idle, r, evs) == Run(c, t1.sup, t1.reg, evs[1..]);
  }
}
