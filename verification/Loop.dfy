/** The event loop as a state machine (src/server/event_loop.rs): its tables, the
    kernel underneath, and what each handler does to both.  The class in
    EventLoop.dfy runs the program's statements and is proved to compute these
    functions; LoopInvariants.dfy proves what every run of them keeps. */
module Loop {
  import opened Bytes
  import opened Parser
  import opened Pipeline
  import opened Kernel

  // ------------------------------------------------------------------- tables

  /** Why a process is given up: its stdout reached the end or could not be read, it ran for
      too long, or its client has gone. */
  datatype Cause = AtEnd | ReadFailed | TookTooLong | ClientGone

  /** Where an answer came from: `handle_request`, the failure to start the CGI it asked
      for, or the process, as it was when it was given up, then and for that cause, and what
      waiting for it answered. */
  datatype Origin = Handled | Refused | Ran(cgi: Cgi, cause: Cause, answer: WaitAnswer, at: nat)

  /** What was put on a connection's write stream: the answer to a request, or a
      400, 413 or 408 that answers no parsed request.  `origin` is history. */
  datatype Item = Answer(request: HttpRequest, reply: bytes, origin: Origin) | Notice(page: Page, reply: bytes)

  /** The history of one connection instance; no handler's decision depends on it. */
  datatype Log = Log(
    serial: nat,
    input: bytes,
    parsed: seq<HttpRequest>,
    dispatched: seq<HttpRequest>,
    items: seq<Item>,
    sent: bytes,
    parseFailed: bool)

  datatype Conn = Conn(
    readBuf: bytes,
    requests: seq<HttpRequest>,
    writeBuf: bytes,
    writeOffset: nat,
    closeAfterWrite: bool,
    lastActivity: nat,
    awaitingCgi: bool,
    log: Log)
  {
    predicate WriteComplete() { writeOffset >= |writeBuf| }

    function PendingWrite(): bytes {
      if writeOffset <= |writeBuf| then writeBuf[writeOffset..] else []
    }
  }

  /** A running CGI process.  `request`, `serial`, `delivered` and `received`, the
      pieces read from its stdout, are history. */
  datatype Cgi = Cgi(
    pid: Pid,
    client: Fd,
    stdin: Option<Fd>,
    body: bytes,
    stdinWritten: nat,
    output: bytes,
    startedAt: nat,
    request: HttpRequest,
    serial: nat,
    delivered: bytes,
    received: seq<bytes>)
  {
    predicate StdinComplete() { stdinWritten >= |body| }

    function StdinRemaining(): bytes {
      if stdinWritten <= |body| then body[stdinWritten..] else []
    }
  }

  /** What is left open and unreaped without an owner, and how often that happened: stdout
      pipes that could not be watched, pipes left by `spawn_cgi`, children left by it. */
  datatype Lost = Lost(fds: set<Fd>, pids: set<Pid>, unwatched: nat, unpiped: nat, orphaned: nat)

  /** `lost`, `serials` and `ended`, the children given up because their stdout was at its end, are history. */
  datatype Loop = Loop(
    listeners: set<Fd>,
    conns: map<Fd, Conn>,
    cgis: map<Fd, Cgi>,
    stdinOf: map<Fd, Fd>,
    pendingReap: seq<Pid>,
    lastSweep: nat,
    clock: nat,
    k: Kernel,
    lost: Lost,
    serials: nat,
    ended: set<Pid>)

  const CGI_TIMEOUT := 10_000
  const IDLE_TIMEOUT := 10_000
  const IDLE_SWEEP_INTERVAL := 2_000
  const WAIT_CAP := 1_000

  // -------------------------------------------------------- connection buffers

  function NewConn(serial: nat, now: nat): Conn {
    Conn([], [], [], 0, false, now, false, Log(serial, [], [], [], [], [], false))
  }

  /** `queue_write`. */
  function QueueWrite(c: Conn, item: Item): Conn {
    var c' := c.(log := c.log.(items := c.log.items + [item]));
    if c.WriteComplete() then c'.(writeBuf := item.reply, writeOffset := 0)
    else c'.(writeBuf := c.writeBuf + item.reply)
  }

  /** `queue_write_and_close`. */
  function QueueWriteAndClose(c: Conn, item: Item): Conn {
    QueueWrite(c, item).(closeAfterWrite := true)
  }

  /** The first queued request leaves the queue. */
  function Popped(c: Conn): Conn
    requires c.requests != []
  {
    c.(requests := c.requests[1..], log := c.log.(dispatched := c.log.dispatched + [c.requests[0]]))
  }

  /** The first queued request leaves the queue and is answered at once. */
  function Answered(c: Conn, reply: bytes, origin: Origin): Conn
    requires c.requests != []
  {
    QueueWrite(Popped(c), Answer(c.requests[0], reply, origin))
  }

  function SetConn(s: Loop, id: Fd, c: Conn): Loop { s.(conns := s.conns[id := c]) }

  // -------------------------------------------------------- ending CGI processes

  /** Takes a CGI process out of the tables, closes its pipes, kills it unless it has come to
      its end, and tries once to reap it. */
  function Release(s: Loop, w: World, o: Fd, cause: Cause): (Loop, WaitAnswer)
    requires o in s.cgis
  {
    var cgi := s.cgis[o];
    var k1 := Close(Deregister(s.k, o), o);
    var k2 := if cgi.stdin.Some? then Close(Deregister(k1, cgi.stdin.value), cgi.stdin.value) else k1;
    var k3 := if cause.AtEnd? then k2 else Kill(k2, cgi.pid);
    var (k4, answer) := Wait(k3, w, cgi.pid);
    (s.(cgis := s.cgis - {o},
        stdinOf := if cgi.stdin.Some? then s.stdinOf - {cgi.stdin.value} else s.stdinOf,
        pendingReap := if answer.Running? then s.pendingReap + [cgi.pid] else s.pendingReap,
        ended := if cause.AtEnd? then s.ended + {cgi.pid} else s.ended,
        k := k4),
     answer)
  }

  function DropOrphans(s: Loop, w: World, orphans: seq<Fd>): Loop
    decreases |orphans|
  {
    if orphans == [] then s
    else
      var s' := if orphans[0] in s.cgis then Release(s, w, orphans[0], ClientGone).0 else s;
      DropOrphans(s', w, orphans[1..])
  }

  /** The CGI processes working for `id`. */
  function CgisOf(s: Loop, id: Fd): set<Fd> {
    set o | o in s.cgis && s.cgis[o].client == id
  }

  /** Dropping the socket closes it; the explicit deregistration comes after. */
  function Unhooked(s: Loop, id: Fd): Loop {
    if id in s.conns then s.(conns := s.conns - {id}, k := Deregister(Close(s.k, id), id)) else s
  }

  function RemoveConnection(s: Loop, w: World, id: Fd): Loop {
    var s' := Unhooked(s, id);
    DropOrphans(s', w, Listing(CgisOf(s', id), w, s'.k.calls))
  }

  // ------------------------------------------------------------------ answering

  function ArmWrite(s: Loop, w: World, id: Fd): (Loop, bool) {
    var (k, ok) := Modify(s.k, w, id, Writable);
    (s.(k := k), ok)
  }

  /** `queue_response_now`: a failure to re-arm is ignored here. */
  function AnswerNow(s: Loop, w: World, id: Fd, c: Conn): Loop {
    ArmWrite(SetConn(s, id, c), w, id).0
  }

  /** The answer to a request whose CGI could not be started. */
  function SpawnRefused(s: Loop, w: World, id: Fd): Loop
    requires id in s.conns && s.conns[id].requests != []
  {
    AnswerNow(s, w, id, Answered(s.conns[id], w.page(ServerErrorPage, s.k.calls), Refused))
  }

  /** Registers the child's stdin if there is a body to write, else closes it. */
  function OpenStdin(k: Kernel, w: World, child: Child, body: bytes): (Kernel, Option<Fd>) {
    if body == [] then (Close(k, child.stdin), None)
    else
      var (k', ok) := Register(k, w, child.stdin, Writable);
      if ok then (k', Some(child.stdin)) else (Close(k', child.stdin), None)
  }

  /** The kernel after both pipes have been dealt with, and whether stdout is watched. */
  function OpenPipes(k: Kernel, w: World, child: Child, body: bytes): (Kernel, Option<Fd>, bool) {
    var (k1, stdin) := OpenStdin(k, w, child, body);
    var (k2, ok) := Register(k1, w, child.stdout, Readable);
    (k2, stdin, ok)
  }

  /** Undoing the registrations of a child whose stdout could not be registered. */
  function GiveUp(k: Kernel, child: Child, stdin: Option<Fd>): Kernel {
    var k3 := Kill(k, child.pid);
    if stdin.Some? then Close(Deregister(k3, stdin.value), stdin.value) else k3
  }

  /** The child runs and its stdout is watched: the connection waits for it. */
  function Started(s: Loop, id: Fd, child: Child, stdin: Option<Fd>, k: Kernel): Loop
    requires id in s.conns && s.conns[id].requests != []
  {
    var c := s.conns[id];
    var request := c.requests[0];
    var cgi := Cgi(child.pid, id, stdin, request.body, 0, [], s.clock, request, c.log.serial, [], []);
    SetConn(s, id, Popped(c).(awaitingCgi := true)).(
      cgis := s.cgis[child.stdout := cgi],
      stdinOf := if stdin.Some? then s.stdinOf[child.stdin := child.stdout] else s.stdinOf,
      ended := s.ended - {child.pid},
      k := k)
  }

  /** The child runs but its stdout cannot be watched: it is killed, and neither
      its stdout nor its pid is kept anywhere. */
  function Forgotten(s: Loop, child: Child, stdin: Option<Fd>, k: Kernel): Loop {
    s.(stdinOf := if stdin.Some? then s.stdinOf[child.stdin := child.stdout] - {child.stdin} else s.stdinOf,
       lost := s.lost.(
         fds := s.lost.fds + {child.stdout}, pids := s.lost.pids + {child.pid}, unwatched := s.lost.unwatched + 1),
       k := GiveUp(k, child, stdin))
  }

  /** What a failed `spawn_cgi` leaves behind is known to nobody. */
  function Abandoned(lost: Lost, answer: SpawnAnswer): Lost {
    match answer
    case PipesLeft(fds) => lost.(fds := lost.fds + fds, unpiped := lost.unpiped + 1)
    case Orphaned(pid) => lost.(pids := lost.pids + {pid}, orphaned := lost.orphaned + 1)
    case _ => lost
  }

  /** `spawn_cgi_for_connection`, for the request at the head of the queue. */
  function SpawnCgi(s: Loop, w: World, id: Fd): Loop
    requires id in s.conns && s.conns[id].requests != []
  {
    var (k, answer) := Spawn(s.k, w);
    if !answer.Forked? then SpawnRefused(s.(k := k, lost := Abandoned(s.lost, answer)), w, id)
    else
      var (k2, stdin, ok) := OpenPipes(k, w, answer.child, s.conns[id].requests[0].body);
      if ok then Started(s, id, answer.child, stdin, k2)
      else SpawnRefused(Forgotten(s, answer.child, stdin, k2), w, id)
  }

  // --------------------------------------------------------- draining the queue

  /** Whether the dispatch loop of `process_queued_requests` has nothing to do. */
  predicate Idle(s: Loop, id: Fd) {
    id !in s.conns || s.conns[id].awaitingCgi || s.conns[id].requests == []
  }

  function Dispatch(s: Loop, w: World, id: Fd): Loop
    decreases if id in s.conns then |s.conns[id].requests| else 0
  {
    if Idle(s, id) then s
    else
      var c := s.conns[id];
      match w.handle(c.requests[0], s.k.calls)
      case Respond(reply) => Dispatch(SetConn(s.(k := Called(s.k)), id, Answered(c, reply, Handled)), w, id)
      case StartCgi => SpawnCgi(s.(k := Called(s.k)), w, id)
  }

  /** `process_queued_requests`. */
  function ProcessQueued(s: Loop, w: World, id: Fd): Loop {
    Arm(Dispatch(s, w, id), w, id)
  }

  function Arm(s: Loop, w: World, id: Fd): Loop {
    if id in s.conns && !s.conns[id].WriteComplete() then
      var (s', ok) := ArmWrite(s, w, id);
      if ok then s' else RemoveConnection(s', w, id)
    else s
  }

  /** What the client of a finished process is sent. */
  function OutcomeOf(w: World, cgi: Cgi, answer: WaitAnswer, cause: Cause, call: nat): Reply {
    var failed := !cause.AtEnd?;
    var exitOk := !failed && ((answer.Exited? && answer.code == 0) || answer.Running?);
    if failed || (!exitOk && cgi.output == []) then w.page(ServerErrorPage, call) else w.cgiPage(cgi.output, call)
  }

  /** The client of a released process stops waiting and gets its answer. */
  function Deliver(s: Loop, w: World, cgi: Cgi, reply: bytes, cause: Cause, answer: WaitAnswer): Loop
    requires cgi.client in s.conns
  {
    var item := Answer(cgi.request, reply, Ran(cgi, cause, answer, s.clock));
    AnswerNow(s, w, cgi.client, QueueWrite(s.conns[cgi.client].(awaitingCgi := false), item))
  }

  /** `finish_cgi`. */
  function FinishCgi(s: Loop, w: World, o: Fd, cause: Cause): Loop {
    if o !in s.cgis then s
    else
      var cgi := s.cgis[o];
      var (s1, answer) := Release(s, w, o, cause);
      if cgi.client !in s1.conns then s1
      else ProcessQueued(Deliver(s1, w, cgi, OutcomeOf(w, cgi, answer, cause, s1.k.calls), cause, answer), w, cgi.client)
  }

  // -------------------------------------------------------------------- handlers

  /** A newly accepted socket is registered and becomes a connection, or is closed again. */
  function Admitted(s: Loop, w: World, k: Kernel, id: Fd): Loop {
    var (k', ok) := Register(k, w, id, Readable);
    if ok then SetConn(s.(k := k'), id, NewConn(s.serials, s.clock)).(serials := s.serials + 1)
    else s.(k := Close(k', id))
  }

  /** `handle_listener_event`. */
  function ListenerEvent(s: Loop, w: World): Loop {
    if |s.conns| >= w.maxConnections then s
    else
      var (k, accepted) := Accept(s.k, w);
      if accepted.Some? then Admitted(s, w, k, accepted.value) else s.(k := k)
  }

  /** New bytes are appended, parsed and queued; an error empties the buffer. */
  function Ingest(c: Conn, w: World, data: bytes, now: nat): (Conn, Option<ParseError>) {
    var r := Drain(c.readBuf + data, w.maxBody);
    (c.(readBuf := r.rest,
        requests := c.requests + r.requests,
        lastActivity := now,
        log := c.log.(
          input := c.log.input + data,
          parsed := c.log.parsed + r.requests,
          parseFailed := c.log.parseFailed || r.failure.Some?)),
     r.failure)
  }

  function RejectionPage(e: ParseError): Page { if e.BodyTooLarge? then TooLargePage else BadRequestPage }

  /** The 400 or 413 for a request that could not be parsed; a failure to re-arm is ignored. */
  function Reject(s: Loop, w: World, id: Fd, e: ParseError): Loop {
    var page := RejectionPage(e);
    var notice := Notice(page, w.page(page, s.k.calls));
    var s' := if id in s.conns then SetConn(s, id, QueueWriteAndClose(s.conns[id], notice)) else s;
    ArmWrite(s', w, id).0
  }

  /** `handle_client_readable`. */
  function ClientReadable(s: Loop, w: World, id: Fd): Loop {
    if id !in s.conns then s
    else
      var (k, answer) := Read(s.k, w);
      var s' := s.(k := k);
      match answer
      case Received(data) =>
        var (c, failure) := Ingest(s.conns[id], w, data, s.clock);
        var s'' := ProcessQueued(SetConn(s', id, c), w, id);
        if failure.Some? then Reject(s'', w, id, failure.value) else s''
      case NothingToRead => s'
      case _ => RemoveConnection(s', w, id)
  }

  /** `count` more bytes of the pending data have been written. */
  function Advanced(c: Conn, count: nat, now: nat): Conn
    requires count <= |c.PendingWrite()|
  {
    c.(writeOffset := c.writeOffset + count, lastActivity := now,
       log := c.log.(sent := c.log.sent + c.PendingWrite()[..count]))
  }

  /** The write buffer, all of it sent, starts over. */
  function Emptied(c: Conn): Conn { c.(writeBuf := [], writeOffset := 0) }

  /** A connection that has nothing left to write goes back to reading. */
  function BackToReading(s: Loop, w: World, id: Fd, c: Conn): Loop {
    var (k, ok) := Modify(s.k, w, id, Readable);
    var s' := SetConn(s.(k := k), id, Emptied(c));
    if ok then s' else RemoveConnection(s', w, id)
  }

  function AfterWrite(s: Loop, w: World, id: Fd, count: nat): Loop
    requires id in s.conns && count <= |s.conns[id].PendingWrite()|
  {
    var c := Advanced(s.conns[id], count, s.clock);
    if !c.WriteComplete() then SetConn(s, id, c)
    else if c.closeAfterWrite then RemoveConnection(SetConn(s, id, c), w, id)
    else BackToReading(s, w, id, c)
  }

  /** `handle_client_writable`. */
  function ClientWritable(s: Loop, w: World, id: Fd): Loop {
    if id !in s.conns || s.conns[id].WriteComplete() then s
    else
      var (k, answer) := Write(s.k, w, s.conns[id].PendingWrite());
      var s' := s.(k := k);
      match answer
      case Wrote(count) => AfterWrite(s', w, id, count)
      case NotWritable => s'
      case WriteError => RemoveConnection(s', w, id)
  }

  /** More output of a process. */
  function WithOutput(cgi: Cgi, data: bytes): Cgi {
    cgi.(output := cgi.output + data, received := cgi.received + [data])
  }

  /** `handle_cgi_stdout_readable`. */
  function CgiStdoutReadable(s: Loop, w: World, o: Fd): Loop {
    var (k, answer) := Read(s.k, w);
    var s' := s.(k := k);
    match answer
    case Received(data) =>
      if o in s.cgis then s'.(cgis := s.cgis[o := WithOutput(s.cgis[o], data)]) else s'
    case EndOfFile => FinishCgi(s', w, o, AtEnd)
    case NothingToRead => s'
    case ReadError => FinishCgi(s', w, o, ReadFailed)
  }

  /** `close_cgi_stdin`. */
  function CloseCgiStdin(s: Loop, i: Fd): Loop {
    var k := Close(Deregister(s.k, i), i);
    var s' := s.(stdinOf := s.stdinOf - {i}, k := k);
    if i in s.stdinOf && s.stdinOf[i] in s.cgis then
      var o := s.stdinOf[i];
      s'.(cgis := s.cgis[o := s.cgis[o].(stdin := None)])
    else s'
  }

  /** `handle_cgi_stdin_writable`; nothing left to write counts as a completed write. */
  function CgiStdinWritable(s: Loop, w: World, i: Fd): Loop {
    if i !in s.stdinOf || s.stdinOf[i] !in s.cgis then s
    else
      var o := s.stdinOf[i];
      var cgi := s.cgis[o];
      var data := cgi.StdinRemaining();
      if data == [] then CloseCgiStdin(s, i)
      else
        var (k, answer) := Write(s.k, w, data);
        var s' := s.(k := k);
        match answer
        case Wrote(count) =>
          var cgi' := cgi.(stdinWritten := cgi.stdinWritten + count, delivered := cgi.delivered + data[..count]);
          var s'' := s'.(cgis := s.cgis[o := cgi']);
          if cgi'.StdinComplete() then CloseCgiStdin(s'', i) else s''
        case NotWritable => s'
        case WriteError => CloseCgiStdin(s', i)
  }

  // ---------------------------------------------------------------------- sweeps

  function FinishAll(s: Loop, w: World, os: seq<Fd>): Loop
    decreases |os|
  {
    if os == [] then s else FinishAll(FinishCgi(s, w, os[0], TookTooLong), w, os[1..])
  }

  function TimedOut(s: Loop): set<Fd> {
    set o | o in s.cgis && s.clock - s.cgis[o].startedAt > CGI_TIMEOUT
  }

  function SweepCgiTimeouts(s: Loop, w: World): Loop {
    FinishAll(s, w, Listing(TimedOut(s), w, s.k.calls))
  }

  /** `retain`: a pid stays only while its child is still running. */
  function Reap(k: Kernel, w: World, pids: seq<Pid>): (Kernel, seq<Pid>)
    decreases |pids|
  {
    if pids == [] then (k, [])
    else
      var (k1, answer) := Wait(k, w, pids[0]);
      var (k2, rest) := Reap(k1, w, pids[1..]);
      (k2, if answer.Running? then [pids[0]] + rest else rest)
  }

  function SweepPendingReaps(s: Loop, w: World): Loop {
    var (k, pids) := Reap(s.k, w, s.pendingReap);
    s.(k := k, pendingReap := pids)
  }

  /** One idle connection: a 408 if it has sent part of a request, else it is closed. */
  function ExpireConnection(s: Loop, w: World, id: Fd): Loop {
    if id in s.conns && s.conns[id].readBuf != [] then
      var c := QueueWriteAndClose(s.conns[id], Notice(TimeoutPage, w.page(TimeoutPage, s.k.calls)));
      ArmWrite(SetConn(s, id, c), w, id).0
    else RemoveConnection(s, w, id)
  }

  function ExpireAll(s: Loop, w: World, ids: seq<Fd>): Loop
    decreases |ids|
  {
    if ids == [] then s else ExpireAll(ExpireConnection(s, w, ids[0]), w, ids[1..])
  }

  function IdleConnections(s: Loop): set<Fd> {
    set id | id in s.conns && !s.conns[id].awaitingCgi && s.clock - s.conns[id].lastActivity >= IDLE_TIMEOUT
  }

  function SweepIdleConnections(s: Loop, w: World): Loop {
    ExpireAll(s, w, Listing(IdleConnections(s), w, s.k.calls))
  }

  // ------------------------------------------------------------------------ ticks

  datatype Event = Event(fd: Fd, readable: bool, writable: bool, error: bool, hup: bool)

  /** The body of the dispatch loop of `tick`; the event may be out of date. */
  function Handle(s: Loop, w: World, e: Event): Loop {
    if e.fd in s.listeners then ListenerEvent(s, w)
    else if e.fd in s.cgis then
      if e.error || e.hup || e.readable then CgiStdoutReadable(s, w, e.fd) else s
    else if e.fd in s.stdinOf then
      if e.writable then CgiStdinWritable(s, w, e.fd) else s
    else if e.fd !in s.conns then s
    else if e.error then RemoveConnection(s, w, e.fd)
    else if e.writable then ClientWritable(s, w, e.fd)
    else if e.readable then ClientReadable(s, w, e.fd)
    else if e.hup then RemoveConnection(s, w, e.fd)
    else s
  }

  function HandleAll(s: Loop, w: World, events: seq<Event>): Loop
    decreases |events|
  {
    if events == [] then s else HandleAll(Handle(s, w, events[0]), w, events[1..])
  }

  /** The bookkeeping `tick` does before it waits. */
  function Sweep(s: Loop, w: World): Loop {
    var s1 := SweepPendingReaps(SweepCgiTimeouts(s, w), w);
    if s1.clock - s1.lastSweep >= IDLE_SWEEP_INTERVAL
    then SweepIdleConnections(s1, w).(lastSweep := s1.clock)
    else s1
  }

  /** How long `tick` lets the kernel wait, in milliseconds; negative is for ever. */
  function WaitLimit(s: Loop, timeout: int): int {
    if (s.cgis != map[] || s.pendingReap != [] || s.conns != map[]) && (timeout < 0 || timeout > WAIT_CAP)
    then WAIT_CAP else timeout
  }

  /** One tick: sweeps, a wait of `waited` milliseconds, and the events it returned,
      of which there are none to handle if the wait failed. */
  datatype Tick = Tick(timeout: int, waited: nat, failed: bool, events: seq<Event>) {
    function Events(): seq<Event> { if failed then [] else events }
  }

  function RunTick(s: Loop, w: World, t: Tick): Loop {
    var s1 := Sweep(s, w);
    HandleAll(s1.(clock := s1.clock + t.waited), w, t.Events())
  }

  function Run(s: Loop, w: World, ticks: seq<Tick>): Loop
    decreases |ticks|
  {
    if ticks == [] then s else Run(RunTick(s, w, ticks[0]), w, ticks[1..])
  }

  /** A loop that has registered its listeners, one call for each. */
  function Start(listeners: set<Fd>, now: nat): Loop {
    Loop(
      listeners, map[], map[], map[], [], now, now,
      Kernel(listeners, map l | l in listeners :: Readable, {}, {}, |listeners|, []), Lost({}, {}, 0, 0, 0), 0, {})
  }

  /** Dropping the loop: every connection is removed, then the listeners are closed. */
  function Shutdown(s: Loop, w: World): Loop {
    var s1 := RemoveAll(s, w, Listing(s.conns.Keys, w, s.k.calls));
    s1.(listeners := {}, k := CloseAll(s1.k, Listing(s1.listeners, w, s1.k.calls)))
  }

  function RemoveAll(s: Loop, w: World, ids: seq<Fd>): Loop
    decreases |ids|
  {
    if ids == [] then s else RemoveAll(RemoveConnection(s, w, ids[0]), w, ids[1..])
  }

  function CloseAll(k: Kernel, fds: seq<Fd>): Kernel
    decreases |fds|
  {
    if fds == [] then k else CloseAll(Close(Deregister(k, fds[0]), fds[0]), fds[1..])
  }
}
