/** The operating system as the event loop sees it: descriptors, readiness
    interest and child processes.  Which answer a call gets is decided by a
    `World`, an arbitrary function of the number of the call, so a statement
    about every world is a statement about every behaviour of the system. */
module Kernel {
  import opened Bytes
  import opened Parser

  type Fd = int
  type Pid = int

  datatype Interest = Readable | Writable

  datatype ReadAnswer = Received(data: bytes) | EndOfFile | NothingToRead | ReadError

  datatype WriteAnswer = Wrote(count: nat) | NotWritable | WriteError

  datatype WaitAnswer = Exited(code: int) | Running | WaitError

  /** A serialized response; `Response.NeverEmpty` shows that it is not empty. */
  type Reply = b: bytes | |b| > 0 witness " "

  /** What `handle_request` decides. */
  datatype Outcome = Respond(reply: Reply) | StartCgi

  datatype Page = BadRequestPage | TooLargePage | TimeoutPage | ServerErrorPage

  /** A forked child and the parent's ends of its two pipes. */
  datatype Child = Child(pid: Pid, stdin: Fd, stdout: Fd)

  /** What becomes of `spawn_cgi`: a child; a failure that leaves nothing behind; an argument
      that cannot be passed on, found only when both pipes are open; or a pipe that cannot be
      made non-blocking, found only when the child is running. */
  datatype SpawnAnswer = Forked(child: Child) | NotForked | PipesLeft(fds: set<Fd>) | Orphaned(pid: Pid)

  datatype World = World(
    maxBody: nat,
    maxConnections: nat,
    accepted: nat -> Option<Fd>,
    spawned: nat -> SpawnAnswer,
    registers: nat -> bool,
    modifies_: nat -> bool,
    reads_: nat -> ReadAnswer,
    writes: nat -> WriteAnswer,
    exits: nat -> Option<int>,
    handle: (HttpRequest, nat) -> Outcome,
    cgiPage: (bytes, nat) -> Reply,
    page: (Page, nat) -> Reply,
    order: (nat, set<int>) -> seq<int>)

  /** Misuse of the system by its caller. */
  datatype Fault = ClosedTwice(fd: Fd) | KilledStranger(pid: Pid) | WaitedForStranger(pid: Pid)

  datatype Kernel = Kernel(
    open: set<Fd>,
    interest: map<Fd, Interest>,
    children: set<Pid>,
    killed: set<Pid>,
    calls: nat,
    faults: seq<Fault>)

  function Called(k: Kernel): Kernel { k.(calls := k.calls + 1) }

  /** A new connection's descriptor: any that is not in use. */
  function Accept(k: Kernel, w: World): (Kernel, Option<Fd>) {
    match w.accepted(k.calls)
    case Some(fd) => if fd in k.open then (Called(k), None) else (Called(k.(open := k.open + {fd})), Some(fd))
    case None => (Called(k), None)
  }

  predicate IsNew(k: Kernel, c: Child) {
    c.stdin !in k.open && c.stdout !in k.open && c.stdin != c.stdout && c.pid !in k.children
  }

  /** The four ends of two pipes. */
  predicate AreNew(k: Kernel, fds: set<Fd>) { AreFour(fds) && fds !! k.open }

  predicate AreFour(fds: set<Fd>) { |fds| == 4 }

  /** `spawn_cgi`; what it leaves behind is new. */
  function Spawn(k: Kernel, w: World): (Kernel, SpawnAnswer) {
    var answer := w.spawned(k.calls);
    if answer.Forked? && IsNew(k, answer.child) then
      (Called(k).(open := k.open + {answer.child.stdin, answer.child.stdout},
                 children := k.children + {answer.child.pid},
                 killed := k.killed - {answer.child.pid}),
       answer)
    else if answer.PipesLeft? && AreNew(k, answer.fds) then (Called(k).(open := k.open + answer.fds), answer)
    else if answer.Orphaned? && answer.pid !in k.children then
      (Called(k).(children := k.children + {answer.pid}, killed := k.killed - {answer.pid}), answer)
    else (Called(k), NotForked)
  }

  function Register(k: Kernel, w: World, fd: Fd, i: Interest): (Kernel, bool) {
    if w.registers(k.calls) && fd in k.open && fd !in k.interest
    then (Called(k.(interest := k.interest[fd := i])), true)
    else (Called(k), false)
  }

  function Modify(k: Kernel, w: World, fd: Fd, i: Interest): (Kernel, bool) {
    if w.modifies_(k.calls) && fd in k.interest
    then (Called(k.(interest := k.interest[fd := i])), true)
    else (Called(k), false)
  }

  function Deregister(k: Kernel, fd: Fd): Kernel {
    k.(interest := k.interest - {fd})
  }

  /** Closing also ends the interest in the descriptor. */
  function Close(k: Kernel, fd: Fd): Kernel {
    if fd in k.open then k.(open := k.open - {fd}, interest := k.interest - {fd})
    else k.(faults := k.faults + [ClosedTwice(fd)])
  }

  function Kill(k: Kernel, pid: Pid): Kernel {
    if pid in k.children then k.(killed := k.killed + {pid}) else k.(faults := k.faults + [KilledStranger(pid)])
  }

  /** `waitpid(pid, WNOHANG)`: reaps a child that has exited. */
  function Wait(k: Kernel, w: World, pid: Pid): (Kernel, WaitAnswer) {
    if pid !in k.children then
      (Called(k.(faults := k.faults + [WaitedForStranger(pid)])), WaitError)
    else
      match w.exits(k.calls)
      case Some(code) => (Called(k.(children := k.children - {pid})), Exited(code))
      case None => (Called(k), Running)
  }

  /** One read; zero bytes mean the end of the file. */
  function Read(k: Kernel, w: World): (Kernel, ReadAnswer) {
    var a := w.reads_(k.calls);
    (Called(k), if a == Received([]) then EndOfFile else a)
  }

  /** One write of non-empty data: at least one byte and no more than offered. */
  function Write(k: Kernel, w: World, data: bytes): (r: (Kernel, WriteAnswer))
    requires data != []
    ensures r.1.Wrote? ==> 1 <= r.1.count <= |data|
  {
    match w.writes(k.calls)
    case Wrote(n) =>
      if n == 0 then (Called(k), WriteError) else (Called(k), Wrote(if n <= |data| then n else |data|))
    case a => (Called(k), a)
  }

  // ------------------------------------------------------- hash-map iteration

  predicate IsLeast(x: int, s: set<int>) { x in s && forall y :: y in s ==> x <= y }

  function Least(s: set<int>): (x: int)
    requires s != {}
    ensures IsLeast(x, s)
  {
    LeastExists(s);
    var x :| IsLeast(x, s);
    x
  }

  lemma {:induction false} LeastExists(s: set<int>)
    requires s != {}
    ensures exists x :: IsLeast(x, s)
    decreases |s|
  {
    assert (forall x: int :: x !in s) ==> s == {};
    var x :| x in s;
    var rest := s - {x};
    assert forall y :: y in s ==> y == x || y in rest;
    if rest == {} {
      assert IsLeast(x, s);
    } else {
      LeastExists(rest);
      var z :| IsLeast(z, rest);
      assert x <= z ==> IsLeast(x, s);
      assert z <= x ==> IsLeast(z, s);
    }
  }

  /** Some order of the keys. */
  function Sorted(keys: set<int>): (r: seq<int>)
    ensures IsOrder(r, keys)
    decreases |keys|
  {
    if keys == {} then []
    else
      var x := Least(keys);
      [x] + Sorted(keys - {x})
  }

  predicate IsOrder(r: seq<int>, keys: set<int>) {
    && (forall x :: x in r ==> x in keys)
    && (forall x :: x in keys ==> x in r)
    && (forall i, j :: 0 <= i < j < |r| ==> r[i] != r[j])
  }

  /** The keys of a map in the order in which it happens to be walked. */
  function Listing(keys: set<int>, w: World, n: nat): (r: seq<int>)
    ensures forall x :: x in r <==> x in keys
    ensures forall i, j :: 0 <= i < j < |r| ==> r[i] != r[j]
    ensures keys == {} ==> r == []
  {
    if keys == {} then [] else if IsOrder(w.order(n, keys), keys) then w.order(n, keys) else Sorted(keys)
  }
}
