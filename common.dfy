/**
  Vocabulary shared by the three supervisor variants and the signal relay:
  failure-compatible wrappers, the host signals the code names, the platform
  switch, and the abstract view of one child process as the OS reports it.
 */
module Common {

  datatype Option<T> = None | Some(value: T)

  datatype Result<T, E> = Ok(value: T) | Err(error: E)

  /** The result of a Python call that returns nothing or raises `error`. */
  datatype Outcome<E> = Pass | Fail(error: E)

  /** The signals the supervisor and the relay name. */
  datatype Signal = SigInt | SigTerm | SigKill | CtrlCEvent

  /** The value of `sys.platform` that the code branches on. */
  datatype Platform = Posix | Win32

  /**
    One OS child process, as observed through its handle: the generation
    counts backend objects created by one supervisor (a fresh object on every
    spawn), `pid` is what the OS assigned, `returncode` stays None until the
    child has been reaped, and `received` lists the signals delivered to it.
   */
  datatype Child = Child(gen: nat, pid: int, returncode: Option<int>, received: seq<Signal>)

  predicate Live(c: Child) {
    c.returncode.None?
  }

  /** A freshly spawned child of generation `gen`. */
  function Spawned(gen: nat, pid: int): (c: Child)
    ensures Live(c) && c.gen == gen && c.pid == pid && c.received == []
  {
    Child(gen, pid, None, [])
  }

  /**
    A signal reaching the OS: a live child receives it; for a child that
    has already been reaped there is no process left to receive it.
   */
  function Deliver(c: Child, s: Signal): (d: Child)
    ensures d.gen == c.gen && d.pid == c.pid && d.returncode == c.returncode
    ensures Live(c) ==> d.received == c.received + [s]
    ensures !Live(c) ==> d == c
  {
    if Live(c) then c.(received := c.received + [s]) else c
  }

  /**
    The kind of OS handle a child is reached through. asyncio's `Process`
    raises ProcessLookupError from `send_signal` and `kill` once the child has
    been reaped; `subprocess.Popen` ignores a signal to a child it has reaped.
   */
  datatype Handle = AsyncioProcess | PopenObject

  /** Whether a signal sent through handle `h` is accepted (does not raise). */
  predicate Accepts(h: Handle, c: Child) {
    Live(c) || h == PopenObject
  }

  /**
    Sending `s` to `c` through `h`: None stands for the ProcessLookupError
    asyncio raises for a reaped child; otherwise the child afterwards.
   */
  function Send(h: Handle, c: Child, s: Signal): (r: Option<Child>)
    ensures r.Some? <==> Live(c) || h == PopenObject
    ensures Live(c) ==> r.Some? && r.value.received == c.received + [s] && r.value.returncode == c.returncode
    ensures r.Some? ==> r.value.gen == c.gen && r.value.pid == c.pid
    ensures r.Some? && !Live(c) ==> r.value == c
  {
    if Accepts(h, c) then Some(Deliver(c, s)) else None
  }

  /**
    `wait()`: a live child exits with `code` and is reaped; waiting on a child
    that was already reaped returns its recorded code and changes nothing.
   */
  function Reap(c: Child, code: int): (d: Child)
    ensures !Live(d)
    ensures d.gen == c.gen && d.pid == c.pid && d.received == c.received
    ensures Live(c) ==> d.returncode == Some(code)
    ensures !Live(c) ==> d == c
  {
    if Live(c) then c.(returncode := Some(code)) else c
  }
}
