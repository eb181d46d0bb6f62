/**
  The process-wide signal relay: an ordered list of registered handlers, the
  prior host handlers worth chaining to, and a flag recording that the relay
  has hooked SIGINT and SIGTERM. Handlers are identified by a number (in the
  supervisor, one per bound `_handle_signal`, which Python compares by the
  instance it is bound to).
 */
module AtExitAsync {
  import opened Common

  type HandlerId = nat

  /** What `signal.getsignal` reports for SIGINT or SIGTERM. */
  datatype OsHandler =
    | SigDfl              // signal.SIG_DFL, an integer constant
    | SigIgn              // signal.SIG_IGN, an integer constant
    | NotFromPython       // None: a handler installed outside Python
    | DefaultIntHandler   // Python's own handler that raises KeyboardInterrupt
    | PyHandler(id: nat)  // any other Python callable
    | Relay               // this module's own dispatcher

  predicate IsCallable(h: OsHandler) {
    h.DefaultIntHandler? || h.PyHandler? || h.Relay?
  }

  /** The error `list.remove` raises when the handler is not in the list. */
  datatype RegError = ValueError

  /** One step of a dispatch: a registered handler, the chained prior handler, or `sys.exit`. */
  datatype Call =
    | Invoke(handler: HandlerId, sig: Signal)
    | ChainPrev(prior: OsHandler, sig: Signal)
    | Exit(code: int)

  /**
    The module's globals: `_handlers`, `_prev_handlers`, `signal_handler_set`,
    and what the host currently has installed for SIGINT and SIGTERM.
   */
  datatype RegState = RegState(
    handlers: seq<HandlerId>,
    prev: map<Signal, OsHandler>,
    installed: bool,
    onSigInt: OsHandler,
    onSigTerm: OsHandler)

  /** The state at import time, on a host whose handlers are `onSigInt` and `onSigTerm`. */
  function Initial(onSigInt: OsHandler, onSigTerm: OsHandler): RegState {
    RegState([], map[], false, onSigInt, onSigTerm)
  }

  /**
    The prior handlers that are kept: a callable SIGINT handler other than
    Python's default one, and a callable SIGTERM handler other than SIG_DFL.
   */
  function SavedPrev(onSigInt: OsHandler, onSigTerm: OsHandler): (m: map<Signal, OsHandler>)
    ensures m.Keys <= {SigInt, SigTerm}
    ensures SigInt in m <==> IsCallable(onSigInt) && onSigInt != DefaultIntHandler
    ensures SigTerm in m <==> IsCallable(onSigTerm) && onSigTerm != SigDfl
    ensures SigInt in m ==> m[SigInt] == onSigInt
    ensures SigTerm in m ==> m[SigTerm] == onSigTerm
  {
    var withInt: map<Signal, OsHandler> :=
      if IsCallable(onSigInt) && onSigInt != DefaultIntHandler then map[SigInt := onSigInt] else map[];
    if IsCallable(onSigTerm) && onSigTerm != SigDfl then withInt[SigTerm := onSigTerm] else withInt
  }

  /** `_ensure_signal_handlers_set`: hook both signals the first time only. */
  function EnsureSet(r: RegState): (r': RegState)
    ensures r'.installed && r'.handlers == r.handlers
    ensures r.installed ==> r' == r
    ensures !r.installed ==> r'.onSigInt == Relay && r'.onSigTerm == Relay
  {
    if r.installed then r
    else r.(prev := r.prev + SavedPrev(r.onSigInt, r.onSigTerm),
            installed := true, onSigInt := Relay, onSigTerm := Relay)
  }

  /** `add_handler`: make sure the hooks are set, then append. */
  function Add(r: RegState, h: HandlerId): (r': RegState)
    ensures r'.handlers == r.handlers + [h]
    ensures r'.installed
    ensures r' == EnsureSet(r).(handlers := r.handlers + [h])
  {
    var r1 := EnsureSet(r);
    r1.(handlers := r1.handlers + [h])
  }

  /** Index of the first entry equal to `x`. */
  function IndexOf(s: seq<HandlerId>, x: HandlerId): (i: nat)
    requires x in s
    ensures i < |s| && s[i] == x && x !in s[..i]
  {
    if s[0] == x then 0
    else
      var j := IndexOf(s[1..], x);
      assert s[1..][..j] == s[1..j + 1];
      1 + j
  }

  /** `list.remove`: drop the first entry equal to `x`, as Python scans. */
  function RemoveFirst(s: seq<HandlerId>, x: HandlerId): (t: seq<HandlerId>)
    requires x in s
    ensures t == s[..IndexOf(s, x)] + s[IndexOf(s, x) + 1..]
  {
    if s[0] == x then s[1..]
    else
      var j := IndexOf(s[1..], x);
      var rest := RemoveFirst(s[1..], x);
      assert IndexOf(s, x) == j + 1;
      assert [s[0]] + s[1..][..j] == s[..j + 1];
      assert s[1..][j + 1..] == s[j + 2..];
      [s[0]] + rest
  }

  /** Exactly one occurrence of `x` disappears; every other entry stays. */
  lemma RemoveFirstMultiset(s: seq<HandlerId>, x: HandlerId)
    requires x in s
    ensures multiset(RemoveFirst(s, x)) == multiset(s) - multiset{x}
  {
    var i := IndexOf(s, x);
    var pre, post := s[..i], s[i + 1..];
    assert s == pre + [x] + post;
    assert multiset(s) == multiset(pre) + multiset{x} + multiset(post);
    assert multiset(RemoveFirst(s, x)) == multiset(pre) + multiset(post);
  }

  /** `remove_handler`: list.remove semantics; the list is unchanged when it raises. */
  function Remove(r: RegState, h: HandlerId): (res: (RegState, Outcome<RegError>))
    ensures h !in r.handlers <==> res.1 == Fail(ValueError)
    ensures h !in r.handlers ==> res.0 == r
    ensures h in r.handlers ==> res.0 == r.(handlers := RemoveFirst(r.handlers, h))
  {
    if h in r.handlers then (r.(handlers := RemoveFirst(r.handlers, h)), Pass)
    else (r, Fail(ValueError))
  }

  /** The value handed to handlers: SIGINT becomes CTRL_C_EVENT on win32. */
  function Forwarded(s: Signal, p: Platform): (f: Signal)
    ensures s != SigInt ==> f == s
    ensures s == SigInt ==> (f == CtrlCEvent <==> p == Win32) && (f != CtrlCEvent ==> f == SigInt)
  {
    if s == SigInt && p == Win32 then CtrlCEvent else s
  }

  /** One call per registered handler, in list order, each given `s`. */
  function Calls(hs: seq<HandlerId>, s: Signal): (t: seq<Call>)
    ensures |t| == |hs|
    ensures forall i :: 0 <= i < |hs| ==> t[i] == Invoke(hs[i], s)
  {
    if hs == [] then [] else [Invoke(hs[0], s)] + Calls(hs[1..], s)
  }

  /**
    `_handle_signal`: every registered handler once, in registration order,
    with the forwarded signal; then the prior handler saved under the
    ORIGINAL signal, or `sys.exit(0)` when none was saved.
   */
  function Dispatch(r: RegState, s: Signal, p: Platform): (t: seq<Call>)
    ensures |t| == |r.handlers| + 1
    ensures forall i :: 0 <= i < |r.handlers| ==> t[i] == Invoke(r.handlers[i], Forwarded(s, p))
    ensures s in r.prev ==> t[|r.handlers|] == ChainPrev(r.prev[s], Forwarded(s, p))
    ensures s !in r.prev ==> t[|r.handlers|] == Exit(0)
  {
    Calls(r.handlers, Forwarded(s, p))
      + [if s in r.prev then ChainPrev(r.prev[s], Forwarded(s, p)) else Exit(0)]
  }

  /** The module state as an object whose methods update it in place. */
  class Registry {
    var handlers: seq<HandlerId>
    var prevHandlers: map<Signal, OsHandler>
    var signalHandlerSet: bool
    var sigintAction: OsHandler
    var sigtermAction: OsHandler

    function Abs(): RegState
      reads this
    {
      RegState(handlers, prevHandlers, signalHandlerSet, sigintAction, sigtermAction)
    }

    constructor (onSigInt: OsHandler, onSigTerm: OsHandler)
      ensures Abs() == Initial(onSigInt, onSigTerm)
    {
      handlers := [];
      prevHandlers := map[];
      signalHandlerSet := false;
      sigintAction := onSigInt;
      sigtermAction := onSigTerm;
    }

    method EnsureSignalHandlersSet()
      modifies this
      ensures Abs() == EnsureSet(old(Abs()))
    {
      if !signalHandlerSet {
        var prevSigint := sigintAction;
        var prevSigterm := sigtermAction;
        ghost var before := prevHandlers;
        if IsCallable(prevSigint) && prevSigint != DefaultIntHandler {
          prevHandlers := prevHandlers[SigInt := prevSigint];
        }
        if IsCallable(prevSigterm) && prevSigterm != SigDfl {
          prevHandlers := prevHandlers[SigTerm := prevSigterm];
        }
        assert prevHandlers == before + SavedPrev(prevSigint, prevSigterm);
        sigintAction := Relay;
        sigtermAction := Relay;
        signalHandlerSet := true;
      }
    }

    method AddHandler(h: HandlerId)
      modifies this
      ensures Abs() == Add(old(Abs()), h)
    {
      EnsureSignalHandlersSet();
      handlers := handlers + [h];
    }

    method RemoveHandler(h: HandlerId) returns (r: Outcome<RegError>)
      modifies this
      ensures (Abs(), r) == Remove(old(Abs()), h)
    {
      if h !in handlers {
        return Fail(ValueError);
      }
      handlers := RemoveFirst(handlers, h);
      r := Pass;
    }

    /** Dispatch on receipt of `signum`; the calls are returned in the order they are made. */
    method HandleSignal(signum: Signal, platform: Platform) returns (trace: seq<Call>)
      ensures trace == Dispatch(Abs(), signum, platform)
    {
      var prevHandler: Option<OsHandler> := if signum in prevHandlers then Some(prevHandlers[signum]) else None;
      var s := signum;
      if s == SigInt && platform == Win32 {
        s := CtrlCEvent;
      }
      trace := [];
      for i := 0 to |handlers|
        invariant trace == Calls(handlers[..i], s)
      {
        assert handlers[..i + 1] == handlers[..i] + [handlers[i]];
        CallsAppend(handlers[..i], handlers[i], s);
        trace := trace + [Invoke(handlers[i], s)];
      }
      assert handlers[..|handlers|] == handlers;
      match prevHandler {
        case Some(h) => trace := trace + [ChainPrev(h, s)];
        case None => trace := trace + [Exit(0)];
      }
    }
  }

  lemma {:induction false} CallsAppend(hs: seq<HandlerId>, h: HandlerId, s: Signal)
    ensures Calls(hs + [h], s) == Calls(hs, s) + [Invoke(h, s)]
  {
    var l, r := Calls(hs + [h], s), Calls(hs, s) + [Invoke(h, s)];
    assert |l| == |r|;
    forall i | 0 <= i < |l| ensures l[i] == r[i] {
      if i < |hs| { assert (hs + [h])[i] == hs[i]; }
    }
  }

  // ---------------------------------------------------------------------------
  // Properties of add and remove.

  /** Removing a handler that was just appended and was not registered before gives the old list back. */
  lemma {:induction false} RemoveFirstOfAppendedNew(s: seq<HandlerId>, h: HandlerId)
    requires h !in s
    ensures RemoveFirst(s + [h], h) == s
  {
    if s != [] {
      assert (s + [h])[1..] == s[1..] + [h];
      RemoveFirstOfAppendedNew(s[1..], h);
    }
  }

  /** With a duplicate already present, it is the EARLIER entry that goes. */
  lemma {:induction false} RemoveFirstOfAppendedDuplicate(s: seq<HandlerId>, h: HandlerId)
    requires h in s
    ensures RemoveFirst(s + [h], h) == RemoveFirst(s, h) + [h]
  {
    var u := s + [h];
    assert u[0] == s[0] && u[1..] == s[1..] + [h];
    if s[0] != h {
      assert h in s[1..];
      RemoveFirstOfAppendedDuplicate(s[1..], h);
      assert RemoveFirst(u, h) == [s[0]] + RemoveFirst(s[1..] + [h], h);
      assert RemoveFirst(s, h) == [s[0]] + RemoveFirst(s[1..], h);
    }
  }

  /** The entries other than the removed one keep their relative order: the result embeds in the list. */
  lemma RemoveFirstKeepsOthers(s: seq<HandlerId>, x: HandlerId, k: nat)
    requires x in s && k < |s| - 1
    ensures RemoveFirst(s, x)[k] == (if k < IndexOf(s, x) then s[k] else s[k + 1])
  {
    var i, t := IndexOf(s, x), RemoveFirst(s, x);
    var pre, post := s[..i], s[i + 1..];
    assert t == pre + post;
    assert |pre| == i;
    if k < i {
      assert t[k] == pre[k];
    } else {
      assert t[k] == post[k - i];
    }
  }

  /** The round trip of `add_handler` followed by `remove_handler` for a handler not yet registered. */
  lemma AddThenRemove(r: RegState, h: HandlerId)
    requires h !in r.handlers
    ensures Remove(Add(r, h), h) == (EnsureSet(r), Pass)
  {
    RemoveFirstOfAppendedNew(r.handlers, h);
  }

  // ---------------------------------------------------------------------------
  // Runs of registry operations: the hooks are set at most once.

  datatype RegOp = AddOp(h: HandlerId) | RemoveOp(h: HandlerId)

  function Apply(r: RegState, op: RegOp): RegState {
    match op
    case AddOp(h) => Add(r, h)
    case RemoveOp(h) => Remove(r, h).0
  }

  function Run(r: RegState, ops: seq<RegOp>): RegState
    decreases |ops|
  {
    if ops == [] then r else Run(Apply(r, ops[0]), ops[1..])
  }

  /** Once installed, no run of adds and removes changes the flag, the saved handlers or the hooks. */
  lemma {:induction false} InstalledIsFrozen(r: RegState, ops: seq<RegOp>)
    requires r.installed
    ensures var r' := Run(r, ops);
      r'.installed && r'.prev == r.prev && r'.onSigInt == r.onSigInt && r'.onSigTerm == r.onSigTerm
    decreases |ops|
  {
    if ops != [] {
      InstalledIsFrozen(Apply(r, ops[0]), ops[1..]);
    }
  }

  /**
    What a run started from a freshly imported module looks like: until the
    first add the host handlers are untouched and nothing is saved; from then
    on both hooks point to the relay and the saved handlers are exactly those
    `SavedPrev` keeps from the host's originals.
   */
  ghost predicate FromHost(r: RegState, onSigInt: OsHandler, onSigTerm: OsHandler) {
    if r.installed then
      r.prev == SavedPrev(onSigInt, onSigTerm) && r.onSigInt == Relay && r.onSigTerm == Relay
    else
      r.prev == map[] && r.onSigInt == onSigInt && r.onSigTerm == onSigTerm
  }

  lemma {:induction false} RunFromHost(r: RegState, onSigInt: OsHandler, onSigTerm: OsHandler, ops: seq<RegOp>)
    requires FromHost(r, onSigInt, onSigTerm)
    ensures FromHost(Run(r, ops), onSigInt, onSigTerm)
    ensures r.installed ==> Run(r, ops).installed
    decreases |ops|
  {
    if ops != [] {
      var r1 := Apply(r, ops[0]);
      if !r.installed && ops[0].AddOp? {
        assert map[] + SavedPrev(onSigInt, onSigTerm) == SavedPrev(onSigInt, onSigTerm);
      }
      assert FromHost(r1, onSigInt, onSigTerm);
      RunFromHost(r1, onSigInt, onSigTerm, ops[1..]);
    }
  }

  /** On a host running Python's defaults, a relayed SIGINT or SIGTERM always ends in `sys.exit(0)`. */
  lemma DefaultHostExits(ops: seq<RegOp>, s: Signal, p: Platform)
    requires s == SigInt || s == SigTerm
    ensures var r := Run(Initial(DefaultIntHandler, SigDfl), ops);
      Dispatch(r, s, p)[|r.handlers|] == Exit(0)
  {
    RunFromHost(Initial(DefaultIntHandler, SigDfl), DefaultIntHandler, SigDfl, ops);
  }

  /**
    On a host that had its own Python handler `f` for both signals, once any
    handler has been added, a relayed signal ends by chaining to `f` with the
    forwarded value.
   */
  lemma CustomHostChains(f: nat, ops: seq<RegOp>, s: Signal, p: Platform)
    requires s == SigInt || s == SigTerm
    requires Run(Initial(PyHandler(f), PyHandler(f)), ops).installed
    ensures var r := Run(Initial(PyHandler(f), PyHandler(f)), ops);
      Dispatch(r, s, p)[|r.handlers|] == ChainPrev(PyHandler(f), Forwarded(s, p))
  {
    RunFromHost(Initial(PyHandler(f), PyHandler(f)), PyHandler(f), PyHandler(f), ops);
  }

  /** Adding handlers one after another puts them at the end of the list, in that order. */
  lemma {:induction false} AddsInOrder(r: RegState, hs: seq<HandlerId>)
    ensures Run(r, AddOps(hs)).handlers == r.handlers + hs
    decreases |hs|
  {
    if hs != [] {
      AddsInOrder(Add(r, hs[0]), hs[1..]);
      assert r.handlers + [hs[0]] + hs[1..] == r.handlers + hs;
    }
  }

  function AddOps(hs: seq<HandlerId>): (ops: seq<RegOp>)
    ensures |ops| == |hs|
    ensures forall i :: 0 <= i < |hs| ==> ops[i] == AddOp(hs[i])
  {
    if hs == [] then [] else [AddOp(hs[0])] + AddOps(hs[1..])
  }
}
