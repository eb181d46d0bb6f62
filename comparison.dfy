/**
  The three supervisors side by side. A package state is projected onto the
  early variant by forgetting the backend kind, and an early state onto the
  earliest variant by forgetting `_killed`; where the rules agree the
  projected steps coincide, and where they differ the lemmas say how.
 */
module Comparison {
  import opened Common
  import opened AtExitAsync
  import P = Supervisor
  import E = EarlySupervisor
  import F = EarliestSupervisor

  function ToEarly(s: P.Sup): (e: E.Sup)
    ensures e.running == s.running && e.killed == s.killed && e.spawns == s.spawns
    ensures e.proc.Some? <==> s.proc.Some?
  {
    E.Sup(s.running, s.killed, if s.proc.None? then None else Some(s.proc.value.child), s.watcher, s.spawns)
  }

  function ToEarliest(s: E.Sup): (f: F.Sup)
    ensures f.running == s.running && f.proc == s.proc && f.spawns == s.spawns
  {
    F.Sup(s.running, s.proc, if s.watcher.None? then {} else {s.watcher.value}, s.spawns)
  }

  /** Until a kill, `start` does the same to the supervisor's own fields in the package and in the early variant. */
  lemma StartAgreesUntilKilled(c: P.Config, s: P.Sup, r: RegState, pid: int)
    requires !s.killed
    ensures ToEarly(P.StartStep(c, s, r, pid).sup) == E.StartStep(ToEarly(s), pid)
    ensures P.StartStep(c, s, r, pid).outcome == Pass
  {
  }

  /**
    Start after a completed kill: the package raises and keeps its state,
    the early variant spawns, clears `_killed` and will restart again.
   */
  lemma StartAfterKillDiverges(c: P.Config, s: P.Sup, r: RegState, pid: int)
    requires s.killed && !s.running
    ensures P.StartStep(c, s, r, pid) == P.Transition(s, r, Fail(P.KilledProcessError))
    ensures var e := E.StartStep(ToEarly(s), pid);
      e.running && !e.killed && e.spawns == s.spawns + 1
  {
  }

  /** The watcher's wake-up in the package, projected, is the early variant's: the same restart rule. */
  lemma ExitAgrees(c: P.Config, s: P.Sup, r: RegState, code: int, pid: int)
    requires P.Inv(c, s, r) && P.Watching(s)
    ensures E.Watching(ToEarly(s))
    ensures ToEarly(P.ExitStep(c, s, r, code, pid).sup) == E.ExitStep(c.alwaysRestart, ToEarly(s), code, pid)
  {
    assert c.me in r.handlers;
    var removal := Remove(r, c.me);
    assert removal.1 == Pass;
    var p := s.proc.value;
    var stopped := s.(proc := Some(p.(child := Reap(p.child, code))), watcher := None, running := false);
    assert ToEarly(stopped) == E.Reaped(ToEarly(s), code);
    if P.ShouldRestart(s.killed, c.alwaysRestart, code) {
      assert P.ExitStep(c, s, r, code, pid) == P.StartStep(c, stopped, removal.0, pid);
      StartAgreesUntilKilled(c, stopped, removal.0, pid);
    } else {
      assert P.ExitStep(c, s, r, code, pid).sup == stopped;
    }
  }

  /** Without a kill, the early variant's wake-up is the earliest variant's wake-up of the current child's watcher. */
  lemma EarlyExitAgreesWithEarliest(alwaysRestart: bool, s: E.Sup, code: int, pid: int)
    requires E.Inv(s) && E.Watching(s) && !s.killed
    ensures s.spawns in ToEarliest(s).watchers
    ensures ToEarliest(E.ExitStep(alwaysRestart, s, code, pid)) == F.ExitStep(alwaysRestart, ToEarliest(s), s.spawns, code, pid)
  {
    var f := ToEarliest(s);
    assert f.watchers == {s.spawns};
    assert f.watchers - {s.spawns} == {};
  }

  /**
    A second `start` while running: a no-op in the package and in the early
    variant, a second child with a second watcher in the earliest one.
   */
  lemma RepeatedStart(c: P.Config, s: P.Sup, r: RegState, pid: int)
    requires P.Inv(c, s, r) && s.running
    ensures P.StartStep(c, s, r, pid).sup == s
    ensures E.StartStep(ToEarly(s), pid) == ToEarly(s)
    ensures var f := ToEarliest(ToEarly(s));
      var g := F.StartStep(f, pid);
      g.spawns == s.spawns + 1 && g.watchers == {s.spawns, s.spawns + 1}
  {
  }
}
