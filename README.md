# simpervisor, modelled in Dafny

simpervisor is a small asyncio supervisor for OS child processes.
A `SupervisedProcess` starts a child and watches it.
When the child exits, the supervisor restarts it if `always_restart` is set or the exit code is nonzero, unless the supervisor has been explicitly killed.
`terminate` and `kill` stop the child for good.
The bound `_handle_signal` forwards the host's SIGINT and SIGTERM to the child through `atexitasync`.
`atexitasync` is a process-wide relay: it installs itself once as the host's handler for both signals, keeps an ordered list of registered callbacks, and on a signal calls each callback in order.
After the callbacks it chains to the host's previous Python handler, or calls `sys.exit(0)`.

The repository also keeps two earlier versions of the supervisor at its root.
`simpervisor.py` has a lock but no relay, and its `start` does not refuse a killed process.
`simperviser.py` has no lock and no kill.

The project models all four pieces.

- `common.dfy` (module `Common`) holds the shared vocabulary:
  - wrappers for a value or a raised error;
  - the signals the code names and the platform switch;
  - one child process as observed through its handle: a generation number, a pid, its return code once reaped, and the signals delivered to it.
- `atexitasync.dfy` (module `AtExitAsync`) models the relay.
  - The pure state `RegState` holds the handler list, the saved prior handlers and the install flag.
  - `Reg` functions define the operations, and the class `Registry` updates the same state in place.
  - Host handlers are abstract values: `SIG_DFL`, `SIG_IGN`, a non-Python handler, `default_int_handler`, a Python callable, or the relay itself.
  - Dispatch returns the trace of calls it makes.
- `supervisor.dfy` (module `Supervisor`) models `simpervisor/process.py`.
  - Each method is a step function from the supervisor's fields and the relay state to new ones plus an outcome: passed, or raised `KilledProcessError`, AttributeError, ProcessLookupError from the backend, or ValueError from the relay.
  - The class `SupervisedProcess` performs the same steps on its fields and on a shared `Registry`.
  - Runs of events check the reachable states. Events are: start, child exit, terminate, kill, host signal, and other supervisors adding or removing handlers.
- `early_supervisor.dfy` and `earliest_supervisor.dfy` model `simpervisor.py` and `simperviser.py` the same way.
- `comparison.dfy` projects the package's state onto the early variant's, and that one onto the earliest.
  - It proves where their steps coincide: the start rule until a kill, and the restart rule.
  - It proves where they differ: start after kill, and start while running.

Concurrency is modelled at the granularity the code's locks give.
Each block run under the supervisor's lock is one atomic step.
So is a watcher's wake-up: its wait returns, it removes the handler, clears `running`, and, when the rule says so, runs `start`, whose lock is free at that point.
Spawning and exit codes come from the environment as parameters: the pid a spawn yields, and the code a child exits with.
A backend object is identified by a generation counter, because every start creates a fresh one.

What a signal to a child that has already been reaped does depends on the handle.
asyncio's `Process` raises ProcessLookupError from `send_signal` and `kill`.
`subprocess.Popen` ignores the signal.
The package's POSIX backend and every spawn of `simpervisor.py` go through asyncio; the package's Windows backend goes through Popen.
Waiting on a reaped child again returns the code it recorded.
`get_kill_signal` is `KillSignal`: SIGKILL for the POSIX backend and SIGTERM for the Windows backend.
The backend is chosen by platform at every spawn (`BackendFor`).

One behaviour of the package version follows from the code as written.
Suppose the child exits on its own and is not restarted, so the watcher has already removed the bound handler.
A later `terminate` or `kill` then ends differently on the two backends.
On Windows, Popen ignores the signal, `_killed` is set, the child's recorded code is read back, and `remove_handler` raises ValueError because the handler is absent.
On POSIX, ProcessLookupError is raised at the signal, before `_killed` is set, so nothing changes and a later `start` spawns a new child.
`Supervisor.StopAfterNaturalExit` states both outcomes.
In `simpervisor.py`, `kill` after the child has exited sets `_killed` and then raises ProcessLookupError; `EarlySupervisor.KillAfterExitRaises` states this.

In `simpervisor.py`, both `kill` and the watcher wait on the same child, and asyncio wakes them in the order they started waiting.
`start` only schedules the watcher task, so a `kill` that follows `start` before the task has run is woken first.
It then returns the exit code while `running` is still set; a `start` at that point is a no-op, and the watcher then stops the supervisor without restarting.
If the watcher was waiting first, it has stopped the supervisor before `kill` returns.
The order is a parameter of the kill event (`watcherFirst`); `EarlySupervisor.KillRunning` and `EarlySupervisor.KillBeforeWatcherWaits` state both outcomes.

## Model

| member | source | states |
|---|---|---|
| Common.Send | simpervisor/process.py:55-60 | a signal to a live child is received, appended to what it already received; for a reaped child, asyncio's handle raises ProcessLookupError and Popen's leaves the child unchanged |
| Common.Reap | simpervisor/process.py:86-90 | after a wait the child is reaped; a live child records the exit code; waiting again changes nothing |
| AtExitAsync.SavedPrev | simpervisor/atexitasync.py:45-50 | SIGINT's prior handler is saved iff it is callable and not `default_int_handler`; SIGTERM's iff it is callable and not `SIG_DFL`; saved values are the originals |
| AtExitAsync.EnsureSet | simpervisor/atexitasync.py:30-55 | installing leaves the handler list alone, sets the flag, points both hooks to the relay, and does nothing once installed |
| AtExitAsync.Add | simpervisor/atexitasync.py:16-22 | `add_handler` installs the relay and appends the handler at the end; duplicates are allowed |
| AtExitAsync.IndexOf | simpervisor/atexitasync.py:25-27 | the index found holds the handler, and no earlier entry is equal to it |
| AtExitAsync.RemoveFirst | simpervisor/atexitasync.py:25-27 | `list.remove` deletes exactly the first equal entry and keeps the rest in order |
| AtExitAsync.RemoveFirstMultiset | simpervisor/atexitasync.py:25-27 | removal takes away one occurrence and no other entry |
| AtExitAsync.Remove | simpervisor/atexitasync.py:25-27 | `remove_handler` raises ValueError iff the handler is absent, and then changes nothing; otherwise it removes the first occurrence |
| AtExitAsync.Forwarded | simpervisor/atexitasync.py:65-68 | the value handed on is the signal itself, except that SIGINT becomes CTRL_C_EVENT exactly on win32 |
| AtExitAsync.Calls | simpervisor/atexitasync.py:70-71 | the loop calls every handler once, in list order, with the same signal |
| AtExitAsync.Dispatch | simpervisor/atexitasync.py:58-77 | handlers are called in registration order with the forwarded signal (CTRL_C_EVENT for SIGINT on win32); then the prior handler saved under the original signal is chained with the forwarded value, or else `exit(0)` |
| AtExitAsync.Registry.constructor | simpervisor/atexitasync.py:10-13 | a fresh module has no handlers, nothing saved, the flag down and the host's handlers in place |
| AtExitAsync.Registry.EnsureSignalHandlersSet | simpervisor/atexitasync.py:30-55 | the in-place update equals `EnsureSet` on the old state |
| AtExitAsync.Registry.AddHandler | simpervisor/atexitasync.py:16-22 | the in-place update equals `Add` on the old state |
| AtExitAsync.Registry.RemoveHandler | simpervisor/atexitasync.py:25-27 | the in-place update and the raised error equal `Remove` on the old state |
| AtExitAsync.Registry.HandleSignal | simpervisor/atexitasync.py:58-77 | the loop over the list produces exactly the `Dispatch` trace |
| AtExitAsync.CallsAppend | simpervisor/atexitasync.py:70-71 | one more handler at the end adds one more call at the end |
| AtExitAsync.RemoveFirstOfAppendedNew | simpervisor/atexitasync.py:16-27 | removing a handler just appended, if it was not in the list before, restores the list |
| AtExitAsync.RemoveFirstOfAppendedDuplicate | simpervisor/atexitasync.py:16-27 | if it was already present, the earlier copy is removed and the new one stays at the end |
| AtExitAsync.RemoveFirstKeepsOthers | simpervisor/atexitasync.py:25-27 | entries before the removed one keep their index; later ones move down by one |
| AtExitAsync.AddThenRemove | simpervisor/atexitasync.py:16-27 | for a handler not yet registered, add followed by remove succeeds and leaves the list as it was |
| AtExitAsync.InstalledIsFrozen | simpervisor/atexitasync.py:36-55 | once installed, no run of adds and removes changes the flag, the saved handlers or the hooks |
| AtExitAsync.RunFromHost | simpervisor/atexitasync.py:36-55 | before the first add the host's handlers are untouched and nothing is saved; afterwards both hooks are the relay and exactly the allowed originals are saved |
| AtExitAsync.DefaultHostExits | simpervisor/atexitasync.py:74-77 | on a host with Python's default handlers, every relayed SIGINT or SIGTERM ends in `exit(0)` |
| AtExitAsync.CustomHostChains | simpervisor/atexitasync.py:74-77 | on a host with its own Python handler, once installed, a relayed signal ends by chaining to that handler |
| AtExitAsync.AddsInOrder | simpervisor/atexitasync.py:16-22 | adding handlers one after another leaves them at the end of the list in that order |
| Supervisor.BackendFor | simpervisor/process.py:223-226 | every spawn picks the Windows backend exactly on win32, and the POSIX backend otherwise |
| Supervisor.KillSignal | simpervisor/process.py:92-135 | `get_kill_signal` is SIGKILL exactly for the backend that wraps asyncio's `Process` (POSIX), and SIGTERM otherwise |
| Supervisor.HandleOf | simpervisor/process.py:78-108 | the Windows backend wraps a `subprocess.Popen`, the POSIX backend asyncio's `Process` |
| Supervisor.ReadyGivesUp | simpervisor/process.py:329-330 | each `ready` poll gives up exactly when the supervisor is killed or `proc` is unset, the case in which `pid` raises AttributeError |
| Supervisor.StartStep | simpervisor/process.py:212-242 | `start` while running is a no-op; not running but killed raises `KilledProcessError` and changes nothing; `_killed` is never changed by it |
| Supervisor.ExitStep | simpervisor/process.py:251-259 | the watcher's wake-up leaves `_killed` as it was; when it does not raise, the supervisor runs afterwards iff not killed and (`always_restart` or the code is nonzero) |
| Supervisor.SignalAndWaitStep | simpervisor/process.py:272-285 | raises AttributeError before any start. Raises ProcessLookupError with nothing changed when the backend refuses the signal (POSIX, child already reaped). Otherwise: the latch is set, nothing runs, the watcher is gone, the child is reaped, no spawn happens, and it raises ValueError iff the handler was not registered |
| Supervisor.TerminateStep | simpervisor/process.py:293-297 | raises `KilledProcessError` once killed, before any signal, with nothing changed. Raises AttributeError before any start. Raises ProcessLookupError with nothing changed when the POSIX backend's child is already reaped. Otherwise it ends killed and not running, and a live child receives exactly SIGTERM |
| Supervisor.KillStep | simpervisor/process.py:303-308 | the same guard; AttributeError before any start; ProcessLookupError with nothing changed when the POSIX backend's child is already reaped; otherwise killed and not running, and a live child receives exactly the backend's kill signal |
| Supervisor.HandleSignalStep | simpervisor/process.py:192-198 | forwarding a host signal sets the latch, leaves `running`, the watcher and the relay alone, and delivers the signal to a live child. It raises AttributeError before any start, and ProcessLookupError, with the latch left unset, when the backend refuses the signal |
| Supervisor.Pid | simpervisor/process.py:368-370 | the current child's pid; AttributeError before the first start |
| Supervisor.ReturnCode | simpervisor/process.py:372-374 | None exactly while the current child is live; AttributeError before the first start |
| Supervisor.SupervisedProcess.constructor | simpervisor/process.py:149-173 | not running, not killed, no process, no watcher |
| Supervisor.SupervisedProcess.Start | simpervisor/process.py:201-242 | the in-place update of the fields and of the shared registry equals `StartStep` |
| Supervisor.SupervisedProcess.RestartProcessIfNeeded | simpervisor/process.py:244-259 | the in-place update equals `ExitStep` |
| Supervisor.SupervisedProcess.SignalAndWait | simpervisor/process.py:261-285 | the in-place update equals `SignalAndWaitStep` |
| Supervisor.SupervisedProcess.Terminate | simpervisor/process.py:287-297 | the in-place update equals `TerminateStep` |
| Supervisor.SupervisedProcess.Kill | simpervisor/process.py:299-308 | the in-place update equals `KillStep`, with the backend's kill signal |
| Supervisor.SupervisedProcess.HandleSignal | simpervisor/process.py:192-199 | the in-place update equals `HandleSignalStep` |
| Supervisor.InvInitially | simpervisor/process.py:155-165 | a freshly constructed supervisor satisfies the invariant |
| Supervisor.StartEffects | simpervisor/process.py:212-242 | running: a no-op with the same backend and no second registration. Killed: the error and nothing else. Otherwise: a fresh backend of the platform's kind, whose child has the given pid, a later generation and no return code; one watcher on it; the handler appended, registered exactly once; the relay installed |
| Supervisor.CountAfterAdd | simpervisor/atexitasync.py:16-22 | an add raises the count of that handler by one and leaves every other handler's count alone |
| Supervisor.CountAfterRemove | simpervisor/atexitasync.py:25-27 | a successful remove lowers the count of that handler by one and leaves every other handler's count alone |
| Supervisor.ExitRestartsIff | simpervisor/process.py:251-259 | under the invariant the wake-up never raises; it restarts iff the rule says so; a restart runs a new child with the new pid, and otherwise the exit code is recorded |
| Supervisor.StepPreservesInv | simpervisor/process.py:212-285 | every event keeps the invariant. While running, and only then, the current child is live and watched, and the bound handler is registered exactly once |
| Supervisor.RunPreservesInv | simpervisor/process.py:212-285 | the invariant holds after any run of events |
| Supervisor.Reachable | simpervisor/process.py:155-285 | every state reachable from construction satisfies the invariant |
| Supervisor.KilledIsLatched | simpervisor/process.py:216-232 | `_killed` never goes back to False |
| Supervisor.KilledNeverRespawns | simpervisor/process.py:212-259 | once killed, no backend is ever created again and a stopped supervisor never runs again, even with `always_restart` |
| Supervisor.ReadyGivesUpOnceKilled | simpervisor/process.py:326-330 | once killed, every later `ready` poll gives up at its guard |
| Supervisor.StopRunning | simpervisor/process.py:261-308 | terminate or kill on a running supervisor delivers exactly SIGTERM or the backend's kill signal, sets the latch, stops the child, records its code, leaves the handler unregistered, and raises nothing |
| Supervisor.AfterKillAllRaise | simpervisor/process.py:293-306 | once killed, terminate and kill raise `KilledProcessError` and change nothing, and start raises unless still running |
| Supervisor.HostSignalStopsRestarts | simpervisor/process.py:192-198 | a relayed SIGINT or SIGTERM reaches the running child with the forwarded value and sets the latch; the child's later exit is not restarted, even with `always_restart` |
| Supervisor.StopAfterNaturalExit | simpervisor/process.py:272-285 | after a natural exit without restart: on Windows, terminate and kill set the latch and then raise ValueError from `remove_handler`. On POSIX they raise ProcessLookupError and change nothing, and a later start spawns again |
| Supervisor.CleanExitRestartsIffAlways | simpervisor/process.py:251-259 | from construction, start then a clean exit restarts iff `always_restart`; the restart runs a second child under the new pid, and otherwise code 0 is recorded |
| EarlySupervisor.StartStep | simpervisor.py:23-38 | running: a no-op. Otherwise a spawn of a fresh child with the given pid that clears `_killed`, sets `running` and watches the new child |
| EarlySupervisor.Reaped | simpervisor.py:41-42 | the watcher's wait reaps the child, clears `running` and ends the watcher; a live child records the exit code, one already reaped by `kill` keeps its recorded code |
| EarlySupervisor.WaitCode | simpervisor.py:41 | the watcher's wait returns the exit code of a live child, or the code already recorded for a reaped one |
| EarlySupervisor.ExitStep | simpervisor.py:40-44 | afterwards the supervisor runs iff not killed and (`always_restart` or the code the wait returned is nonzero); once killed the wake-up only stops it |
| EarlySupervisor.KillSignalled | simpervisor.py:46-49 | `kill` up to its wait: AttributeError before any start; ProcessLookupError for a reaped child; otherwise `_killed` is set, SIGKILL is delivered, and `running` is left alone |
| EarlySupervisor.KillStep | simpervisor.py:46-50 | `kill` sets the latch and never spawns. Before any start it raises AttributeError after setting the latch. For a child already reaped it raises ProcessLookupError after setting the latch, and changes nothing else. On a live child it delivers SIGKILL, reaps it and returns its exit code; if the watcher was waiting first it has stopped the supervisor, otherwise `running` and the pending watcher are left as they were |
| EarlySupervisor.Pid | simpervisor.py:52-54 | the current child's pid; AttributeError before the first start |
| EarlySupervisor.EarlySupervisedProcess.constructor | simpervisor.py:8-21 | not running, not killed, no process |
| EarlySupervisor.EarlySupervisedProcess.Start | simpervisor.py:23-38 | the in-place update equals `StartStep` |
| EarlySupervisor.EarlySupervisedProcess.RestartProcessIfNeeded | simpervisor.py:40-44 | the in-place update equals `ExitStep` |
| EarlySupervisor.EarlySupervisedProcess.Kill | simpervisor.py:46-50 | the in-place update and the returned code equal `KillStep`, in the given wake-up order |
| EarlySupervisor.RunPreservesInv | simpervisor.py:23-50 | the early variant's invariant holds after any run: the current child's watcher is pending exactly while running; when stopped, the child has been reaped; a running supervisor whose child is reaped has been killed |
| EarlySupervisor.KillRunning | simpervisor.py:40-50 | kill on a running child delivers SIGKILL and returns its exit code. With the watcher woken first it ends stopped; otherwise it is still running when kill returns, and the watcher's later wake-up stops it with the recorded code and does not restart |
| EarlySupervisor.StartAfterKillReenablesRestarts | simpervisor.py:34-44 | start after kill spawns and clears `_killed`, so a later failing exit is restarted |
| EarlySupervisor.KillAfterExitRaises | simpervisor.py:46-50 | kill after the child already stopped sets the latch and raises ProcessLookupError; a later start still spawns and clears the latch |
| EarlySupervisor.StartKillStart | simpervisor.py:23-50 | start, kill with the watcher woken first, start from construction ends running, not killed, with the second child's pid |
| EarlySupervisor.KillBeforeWatcherWaits | simpervisor.py:23-50 | start, start, kill with no yield in between: kill returns the code while `running` is still set, a start then is a no-op, and the watcher's wake-up stops the supervisor although `always_restart` is set |
| EarliestSupervisor.StartStep | simperviser.py:15-23 | every start spawns a new child, sets `running` and adds a watcher for it |
| EarliestSupervisor.ExitStep | simperviser.py:25-29 | after any watcher's wake-up the supervisor runs iff `always_restart` or the code is nonzero, with one more spawn exactly then |
| EarliestSupervisor.Pid | simperviser.py:31-33 | the current child's pid; AttributeError before the first start |
| EarliestSupervisor.EarliestSupervisedProcess.constructor | simperviser.py:8-13 | not running, no process, no watcher |
| EarliestSupervisor.EarliestSupervisedProcess.Start | simperviser.py:15-23 | the in-place update equals `StartStep` |
| EarliestSupervisor.EarliestSupervisedProcess.RestartProcessIfNeeded | simperviser.py:25-29 | the in-place update equals `ExitStep` |
| EarliestSupervisor.RunPreservesInv | simperviser.py:15-29 | in every run the pending watchers belong to children spawned so far; the current child's watcher is pending exactly while that child is live; `running` implies the current child is live |
| EarliestSupervisor.FailingChildRestartsForever | simperviser.py:25-29 | after any number of nonzero exits the supervisor still runs, with one new spawn per exit and the latest pid |
| EarliestSupervisor.DoubleStartOrphans | simperviser.py:15-29 | after two starts, the first child's clean exit clears `running` while the second child is still live and watched; that child's failing exit starts a third |
| Comparison.StartAgreesUntilKilled | simpervisor/process.py:212-233 | until a kill, the package's start and the early variant's start do the same to the supervisor's fields, and the package's does not raise |
| Comparison.StartAfterKillDiverges | simpervisor/process.py:216-219 | after a kill, the package's start raises and changes nothing, while the early variant's spawns and clears `_killed` |
| Comparison.ExitAgrees | simpervisor/process.py:251-259 | the package's wake-up, projected, is exactly the early variant's |
| Comparison.EarlyExitAgreesWithEarliest | simpervisor.py:40-44 | without a kill, the early variant's wake-up, projected, is exactly the earliest variant's wake-up of the current child's watcher |
| Comparison.RepeatedStart | simpervisor/process.py:212-215 | start while running is a no-op in the package and in the early variant; in the earliest it spawns a second child with a second watcher |

## Left out

- Real process creation and waiting are not modelled: `asyncio.create_subprocess_exec`, `subprocess.Popen`, and the 0.5 s polling loop of the Windows backend's `wait`. A spawn always succeeds and yields the pid given as a parameter. An exit is an event carrying an integer code. Spawn failure, and a backend whose `start` is still pending when `pid` or `returncode` is read, are not modelled.
- The rule that a child killed by signal N reports -N belongs to the OS. Exit codes are arbitrary integers here.
- asyncio's `Lock`, `ensure_future` and task cancellation are not modelled as such. Each locked block is atomic, and cancelling the watcher means its wake-up never runs.
- Interleavings finer than a locked block are not modelled. This covers the watcher running while another coroutine holds the lock, and the guard of `terminate`/`kill`, which is checked outside the lock. It also covers an early-variant `kill` whose unlocked `_killed := True` lands while `start` awaits its spawn.
- EarlySupervisor.KillStep: which of `kill`'s wait and the watcher's wait is woken first is the parameter `watcherFirst`, not derived from when the watcher task first runs. A call of `kill` is one step: nothing else happens between its signal and its wait returning, and the watcher, when woken first, runs inside that step. The same applies to `EarlySupervisor.KillRunning` and `EarlySupervisor.EarlySupervisedProcess.Kill`.
- In the earliest variant each watcher is bound to the child spawned with it. The source reads `self.proc` when the watcher task first runs, so the binding can differ under other interleavings.
- `ready` is modelled only by its guard (`ReadyGivesUp`). Its timing, backoff, clamping and per-check timeout use wall-clock floating-point arithmetic.
- A signal sent through asyncio while the child has exited but its transport is still open is not modelled separately. The model treats a child as reaped once its exit has been observed, and from then on asyncio refuses the signal.
- An exception raised by a registered handler during dispatch would end the relay's loop early. This is not modelled: the dispatch trace lists every call. Under the supervisor's invariant its bound handler is registered only while its child is live, so that handler's signal does not raise.
- The OS signal API (`signal.getsignal`, `signal.signal`, `callable`, `__qualname__`) is abstracted to the `OsHandler` values. `sys.exit(0)` and the prior handler's own effects end the dispatch trace rather than running.
- Logging (`_debug_log`, the logger setup), the `name` argument and the command and keyword arguments passed to the spawn are left out. They do not affect any state the model tracks.
- The tests, child scripts and packaging files are not part of this model.
