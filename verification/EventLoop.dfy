/** The event loop as the program has it: connection objects that handlers update in
    place, tables that they reassign, and the source's own loops.  Each method is
    proved to do to the tables exactly what the function of the same name in
    Loop.dfy says, for every answer the kernel gives. */
module EventLoop {
  import opened Bytes
  import opened Parser
  import opened Pipeline
  import opened Kernel
  import L = Loop
  import opened Sessions
  import opened LoopInvariants
  import opened LoopResults

  /** src/server/connection.rs; `log` is the connection's history. */
  class Connection {
    var readBuf: bytes
    var requests: seq<HttpRequest>
    var writeBuf: bytes
    var writeOffset: nat
    var closeAfterWrite: bool
    var lastActivity: nat
    var awaitingCgi: bool
    var log: L.Log

    function View(): L.Conn
      reads this
    {
      L.Conn(readBuf, requests, writeBuf, writeOffset, closeAfterWrite, lastActivity, awaitingCgi, log)
    }

    constructor (serial: nat, now: nat)
      ensures View() == L.NewConn(serial, now)
    {
      readBuf, requests, writeBuf, writeOffset := [], [], [], 0;
      closeAfterWrite, lastActivity, awaitingCgi := false, now, false;
      log := L.Log(serial, [], [], [], [], [], false);
    }

    predicate WriteComplete()
      reads this
    {
      writeOffset >= |writeBuf|
    }

    function PendingWrite(): bytes
      reads this
    {
      if writeOffset <= |writeBuf| then writeBuf[writeOffset..] else []
    }

    method QueueWrite(item: L.Item)
      modifies this
      ensures View() == L.QueueWrite(old(View()), item)
    {
      if WriteComplete() {
        writeBuf := item.reply;
        writeOffset := 0;
      } else {
        writeBuf := writeBuf + item.reply;
      }
      log := log.(items := log.items + [item]);
    }

    method QueueWriteAndClose(item: L.Item)
      modifies this
      ensures View() == L.QueueWriteAndClose(old(View()), item)
    {
      QueueWrite(item);
      closeAfterWrite := true;
    }

    /** `requests.pop_front()`. */
    method PopRequest() returns (request: HttpRequest)
      requires requests != []
      modifies this
      ensures request == old(requests[0]) && View() == L.Popped(old(View()))
    {
      request := requests[0];
      requests := requests[1..];
      log := log.(dispatched := log.dispatched + [request]);
    }

    /** `pop_front` until the queue is empty. */
    method PopAll() returns (popped: seq<HttpRequest>)
      modifies `requests
      ensures popped == old(requests) && requests == []
    {
      popped := [];
      while requests != []
        invariant popped + requests == old(requests)
        decreases |requests|
      {
        popped := popped + [requests[0]];
        requests := requests[1..];
      }
    }

    /** `push_front` in reverse order. */
    method PushBack(popped: seq<HttpRequest>)
      modifies `requests
      ensures requests == popped + old(requests)
    {
      var i := |popped|;
      while i > 0
        invariant 0 <= i <= |popped| && requests == popped[i..] + old(requests)
      {
        i := i - 1;
        requests := [popped[i]] + requests;
      }
    }

    /** Takes every queued request out and puts all of them back, in order. */
    method PopAllAndPushBack()
      modifies `requests
      ensures View() == old(View())
    {
      var popped := PopAll();
      PushBack(popped);
    }

    /** Appends what was read, and parses and queues every complete request. */
    method Ingest(w: World, data: bytes, now: nat) returns (failure: Option<ParseError>)
      modifies this
      ensures (View(), failure) == L.Ingest(old(View()), w, data, now)
    {
      var parsed, rest;
      parsed, rest, failure := ReadLoop(readBuf + data, w.maxBody);
      readBuf := rest;
      requests := requests + parsed;
      lastActivity := now;
      log := log.(
        input := log.input + data,
        parsed := log.parsed + parsed,
        parseFailed := log.parseFailed || failure.Some?);
    }

    /** `count` bytes of the pending data were written. */
    method Advance(count: nat, now: nat)
      requires count <= |PendingWrite()|
      modifies this
      ensures View() == L.Advanced(old(View()), count, now)
    {
      log := log.(sent := log.sent + PendingWrite()[..count]);
      writeOffset := writeOffset + count;
      lastActivity := now;
    }

    method Empty()
      modifies this
      ensures View() == L.Emptied(old(View()))
    {
      writeBuf, writeOffset := [], 0;
    }
  }

  lemma SetTwice(s: L.Loop, id: Fd, a: L.Conn, b: L.Conn)
    ensures L.SetConn(L.SetConn(s, id, a), id, b) == L.SetConn(s, id, b)
  {
    assert s.conns[id := a][id := b] == s.conns[id := b];
  }

  lemma AnswerOver(s: L.Loop, w: World, id: Fd, a: L.Conn, b: L.Conn)
    ensures L.AnswerNow(L.SetConn(s, id, a), w, id, b) == L.AnswerNow(s, w, id, b)
  {
    hide L.ArmWrite;
    SetTwice(s, id, a, b);
  }

  lemma AnsweredShorter(c: L.Conn, reply: bytes)
    requires c.requests != []
    ensures L.Answered(c, reply, L.Handled).requests == c.requests[1..]
  {}

  /** The loop after the 500 for a request, already off the queue of `c`, whose CGI could not be started. */
  ghost function Refused(s: L.Loop, w: World, id: Fd, request: HttpRequest, c: L.Conn): L.Loop {
    L.AnswerNow(s, w, id, L.QueueWrite(c, L.Answer(request, w.page(ServerErrorPage, s.k.calls), L.Refused)))
  }

  lemma RefusedOver(s: L.Loop, w: World, id: Fd, request: HttpRequest, c: L.Conn, a: L.Conn)
    ensures Refused(L.SetConn(s, id, a), w, id, request, c) == Refused(s, w, id, request, c)
  {
    hide L.ArmWrite, L.QueueWrite;
    SetTwice(s, id, a, L.QueueWrite(c, L.Answer(request, w.page(ServerErrorPage, s.k.calls), L.Refused)));
  }

  /** The loop after giving up on a child whose stdin may be registered already. */
  ghost function GaveUp(s: L.Loop, child: Child, stdin: Option<Fd>, k: Kernel): L.Loop {
    s.(k := L.GiveUp(k, child, stdin),
       stdinOf := if stdin.Some? then s.stdinOf - {stdin.value} else s.stdinOf,
       lost := s.lost.(
         fds := s.lost.fds + {child.stdout}, pids := s.lost.pids + {child.pid}, unwatched := s.lost.unwatched + 1))
  }

  /** The loop after the last step of starting a CGI, from a state in which the
      connection already waits and its stdin is dealt with. */
  ghost function StdoutWatched(s: L.Loop, w: World, id: Fd, request: HttpRequest, child: Child, stdin: Option<Fd>): L.Loop
    requires id in s.conns
  {
    var (k2, ok) := Register(s.k, w, child.stdout, Readable);
    var cgi := L.Cgi(child.pid, id, stdin, request.body, 0, [], s.clock, request, s.conns[id].log.serial, [], []);
    if ok then s.(cgis := s.cgis[child.stdout := cgi], ended := s.ended - {child.pid}, k := k2)
    else Refused(GaveUp(s, child, stdin, k2), w, id, request, s.conns[id].(awaitingCgi := false))
  }

  /** The order in which the program starts a CGI makes no difference to the outcome. */
  lemma SpawnSteps(s: L.Loop, w: World, id: Fd, child: Child, stdin: Option<Fd>, k1: Kernel, k2: Kernel)
    requires id in s.conns && s.conns[id].requests != [] && !s.conns[id].awaitingCgi
    requires Spawn(s.k, w) == (k1, Forked(child))
    requires (k2, stdin) == L.OpenStdin(k1, w, child, s.conns[id].requests[0].body)
    requires stdin.Some? ==> stdin.value == child.stdin
    ensures var waiting := L.SetConn(s, id, L.Popped(s.conns[id]).(awaitingCgi := true));
            var s1 := waiting.(
              stdinOf := if stdin.Some? then s.stdinOf[child.stdin := child.stdout] else s.stdinOf,
              k := k2);
            StdoutWatched(s1, w, id, s.conns[id].requests[0], child, stdin) == L.SpawnCgi(s, w, id)
  {
    var c := L.Popped(s.conns[id]);
    var waiting := L.SetConn(s, id, c.(awaitingCgi := true));
    var s1 := waiting.(stdinOf := if stdin.Some? then s.stdinOf[child.stdin := child.stdout] else s.stdinOf, k := k2);
    var (k3, ok) := Register(k2, w, child.stdout, Readable);
    assert c.(awaitingCgi := true).(awaitingCgi := false) == c;
    assert stdin.Some? ==> s.stdinOf[child.stdin := child.stdout] - {stdin.value} == s.stdinOf[child.stdin := child.stdout] - {child.stdin};
    assert GaveUp(s1, child, stdin, k3) == L.SetConn(L.Forgotten(s, child, stdin, k3), id, c.(awaitingCgi := true));
    assert L.OpenPipes(k1, w, child, s.conns[id].requests[0].body) == (k3, stdin, ok);
    hide L.GiveUp, Register, L.ArmWrite, L.QueueWrite, L.OpenStdin, Spawn, L.OpenPipes, L.Popped, L.Forgotten, GaveUp, Refused;
    if !ok {
      var s2 := L.Forgotten(s, child, stdin, k3);
      RefusedOver(s2, w, id, s.conns[id].requests[0], c, c.(awaitingCgi := true));
      RefusedIs(s2, w, id);
    }
  }

  lemma RefusedIs(s: L.Loop, w: World, id: Fd)
    requires id in s.conns && s.conns[id].requests != []
    ensures Refused(s, w, id, s.conns[id].requests[0], L.Popped(s.conns[id])) == L.SpawnRefused(s, w, id)
  {
    hide L.QueueWrite, L.AnswerNow;
  }

  const SESSION_SWEEP_INTERVAL := 60_000

  /** The sessions, and when they were last swept; the handlers of the loop do not touch them. */
  class SessionSweep {
    const store: SessionStore
    var lastSweep: nat

    constructor (now: nat)
      ensures lastSweep == now && store.sessions == map[] && fresh(store)
    {
      store := new SessionStore();
      lastSweep := now;
    }

    /** The expired sessions go, if it is time. */
    method SweepIfDue(now: nat)
      modifies this, store
      ensures var due := now - old(lastSweep) >= SESSION_SWEEP_INTERVAL;
              && store.sessions == (if due then Live(old(store.sessions), now) else old(store.sessions))
              && lastSweep == if due then now else old(lastSweep)
    {
      if now - lastSweep >= SESSION_SWEEP_INTERVAL {
        store.SweepExpired(now);
        lastSweep := now;
      }
    }
  }

  /** Sessions have only been removed. */
  predicate OnlyRemoved(before: Sessions, after: Sessions) {
    forall id :: id in after ==> id in before && after[id] == before[id]
  }

  class EventLoop {
    const w: World
    const sessions: SessionSweep
    var listeners: set<Fd>
    var connections: map<Fd, Connection>
    var cgiProcesses: map<Fd, L.Cgi>
    var cgiStdinToStdout: map<Fd, Fd>
    var pendingReap: seq<Pid>
    var lastConnectionSweep: nat
    var clock: nat
    var k: Kernel
    var lost: L.Lost
    var serials: nat
    var ended: set<Pid>
    /** Every connection object there has ever been. */
    ghost var made: set<Connection>

    ghost predicate Valid()
      reads `connections, `made
    {
      && (forall id :: id in connections ==> connections[id] in made)
      && (forall a, b :: a in connections && b in connections && a != b ==> connections[a] != connections[b])
    }

    ghost function Conns(): map<Fd, L.Conn>
      requires Valid()
      reads `connections, `made, made
    {
      map id | id in connections :: connections[id].View()
    }

    ghost function View(): L.Loop
      requires Valid()
      reads this, made
    {
      L.Loop(listeners, Conns(), cgiProcesses, cgiStdinToStdout, pendingReap, lastConnectionSweep, clock, k, lost, serials, ended)
    }

    /** A loop whose listeners have been registered with this kernel. */
    constructor (world: World, fds: set<Fd>, now: nat, kernel: Kernel)
      ensures Valid() && made == {} && w == world && View() == L.Start(fds, now).(k := kernel)
      ensures fresh(sessions) && fresh(sessions.store) && sessions.lastSweep == now && sessions.store.sessions == map[]
    {
      w := world;
      sessions := new SessionSweep(now);
      listeners, connections, cgiProcesses, cgiStdinToStdout, pendingReap := fds, map[], map[], map[], [];
      lastConnectionSweep, clock, k := now, now, kernel;
      lost, serials, ended := L.Start(fds, now).lost, 0, {};
      made := {};
    }

    // ----------------------------------------------------- single connections

    lemma Seen(id: Fd)
      requires Valid()
      ensures id in Conns() <==> id in connections
      ensures id in connections ==> Conns()[id] == connections[id].View()
    {}

    /** Only the object behind `id` has changed. */
    twostate lemma OneChanged(id: Fd)
      requires old(Valid()) && Valid() && connections == old(connections) && id in connections
      requires forall x :: x in connections && x != id ==> connections[x].View() == old(connections[x].View())
      ensures Conns() == old(Conns())[id := connections[id].View()]
    {}

    /** `queue_write` on one connection. */
    method QueueWrite(id: Fd, item: L.Item)
      requires Valid() && id in connections
      modifies made
      ensures Valid()
      ensures View() == L.SetConn(old(View()), id, L.QueueWrite(old(View()).conns[id], item))
    {
      connections[id].QueueWrite(item);
      OneChanged(id);
    }

    /** The next request leaves the queue. */
    method PopRequest(id: Fd) returns (request: HttpRequest)
      requires Valid() && id in connections && connections[id].requests != []
      modifies made
      ensures Valid() && request == old(connections[id].requests[0])
      ensures View() == L.SetConn(old(View()), id, L.Popped(old(View()).conns[id]))
    {
      request := connections[id].PopRequest();
      OneChanged(id);
    }

    method SetAwaiting(id: Fd, awaiting: bool)
      requires Valid() && id in connections
      modifies made
      ensures Valid()
      ensures View() == L.SetConn(old(View()), id, old(View()).conns[id].(awaitingCgi := awaiting))
    {
      connections[id].awaitingCgi := awaiting;
      OneChanged(id);
    }

    /** Takes every queued request out and puts all of them back, in order. */
    method PopAllAndPushBack(id: Fd)
      requires Valid() && id in connections
      modifies made
      ensures Valid() && View() == old(View())
    {
      if !connections[id].awaitingCgi {
        connections[id].PopAllAndPushBack();
        OneChanged(id);
      }
    }

    method Ingest(id: Fd, data: bytes) returns (failure: Option<ParseError>)
      requires Valid() && id in connections
      modifies made
      ensures Valid()
      ensures var (c, f) := L.Ingest(old(View()).conns[id], w, data, clock);
              View() == L.SetConn(old(View()), id, c) && failure == f
    {
      hide L.Ingest;
      failure := connections[id].Ingest(w, data, clock);
      OneChanged(id);
    }

    // ------------------------------------------------------------- the kernel

    /** `epoll.modify(id, Interest::WRITABLE)`. */
    method ArmWrite(id: Fd) returns (ok: bool)
      requires Valid()
      modifies `k
      ensures Valid() && (View(), ok) == L.ArmWrite(old(View()), w, id)
    {
      k, ok := Modify(k, w, id, Writable).0, Modify(k, w, id, Writable).1;
    }

    /** `queue_response_now`. */
    method QueueResponseNow(id: Fd, item: L.Item)
      requires Valid() && id in connections
      modifies this, made
      ensures Valid() && made == old(made) && connections == old(connections)
      ensures View() == L.AnswerNow(old(View()), w, id, L.QueueWrite(old(View()).conns[id], item))
    {
      hide L.ArmWrite, L.QueueWrite;
      QueueWrite(id, item);
      var _ := ArmWrite(id);
    }

    // ------------------------------------------------------------ CGI processes

    /** The end of a stdin that is still open. */
    method EndStdin(stdin: Option<Fd>)
      modifies `k, `cgiStdinToStdout
      ensures k == (if stdin.Some? then Close(Deregister(old(k), stdin.value), stdin.value) else old(k))
      ensures cgiStdinToStdout == (if stdin.Some? then old(cgiStdinToStdout) - {stdin.value} else old(cgiStdinToStdout))
    {
      hide Close, Deregister;
      if stdin.Some? {
        k := Deregister(k, stdin.value);
        cgiStdinToStdout := cgiStdinToStdout - {stdin.value};
        k := Close(k, stdin.value);
      }
    }

    method Release(o: Fd, cause: L.Cause) returns (answer: WaitAnswer)
      requires Valid() && o in cgiProcesses
      modifies this
      ensures Valid() && made == old(made)
      ensures (View(), answer) == L.Release(old(View()), w, o, cause)
    {
      hide Close, Deregister, Kill, Wait, Conns, Valid;
      var cgi := cgiProcesses[o];
      cgiProcesses := cgiProcesses - {o};
      k := Close(Deregister(k, o), o);
      EndStdin(cgi.stdin);
      if !cause.AtEnd? {
        k := Kill(k, cgi.pid);
      }
      var waited := Wait(k, w, cgi.pid);
      k, answer := waited.0, waited.1;
      NoteEnd(cgi.pid, cause, answer);
    }

    /** A child that is still running is to be reaped later. */
    method NoteEnd(pid: Pid, cause: L.Cause, answer: WaitAnswer)
      requires Valid()
      modifies `pendingReap, `ended
      ensures Valid()
      ensures View() == old(View()).(
                pendingReap := if answer.Running? then old(pendingReap) + [pid] else old(pendingReap),
                ended := if cause.AtEnd? then old(ended) + {pid} else old(ended))
    {
      if answer.Running? {
        pendingReap := pendingReap + [pid];
      }
      if cause.AtEnd? {
        ended := ended + {pid};
      }
    }

    /** `remove_connection`, with its loop over the orphaned CGI processes. */
    method RemoveConnection(id: Fd)
      requires Valid()
      modifies this, made
      ensures Valid() && made == old(made)
      ensures View() == L.RemoveConnection(old(View()), w, id)
    {
      hide L.Release, Listing, Close, Deregister;
      if id in connections {
        connections := connections - {id};
        k := Deregister(Close(k, id), id);
        assert Conns() == old(Conns()) - {id};
      }
      assert View() == L.Unhooked(old(View()), id);
      var serving := set o | o in cgiProcesses && cgiProcesses[o].client == id;
      var orphaned := Listing(serving, w, k.calls);
      assert L.DropOrphans(View(), w, orphaned) == L.RemoveConnection(old(View()), w, id);
      hide Conns, Valid, L.Unhooked;
      var i := 0;
      while i < |orphaned|
        invariant 0 <= i <= |orphaned| && Valid() && made == old(made)
        invariant L.DropOrphans(View(), w, orphaned[i..]) == L.RemoveConnection(old(View()), w, id)
      {
        if orphaned[i] in cgiProcesses {
          var _ := Release(orphaned[i], L.ClientGone);
        }
        i := i + 1;
      }
    }

    // --------------------------------------------------- starting CGI processes

    /** The 500 for a request, already off the queue, whose CGI could not be started. */
    method RefuseSpawn(id: Fd, request: HttpRequest)
      requires Valid() && id in connections
      modifies this, made
      ensures Valid() && made == old(made) && connections == old(connections)
      ensures View() == Refused(old(View()), w, id, request, old(View()).conns[id])
    {
      hide L.ArmWrite, L.QueueWrite, Conns, Valid;
      QueueWrite(id, L.Answer(request, w.page(ServerErrorPage, k.calls), L.Refused));
      var _ := ArmWrite(id);
    }

    /** The part of `spawn_cgi_for_connection` that deals with the child's stdin. */
    method OpenStdin(child: Child, body: bytes) returns (stdin: Option<Fd>)
      requires Valid()
      modifies `k, `cgiStdinToStdout
      ensures Valid() && (k, stdin) == L.OpenStdin(old(k), w, child, body)
      ensures stdin.Some? ==> stdin.value == child.stdin
      ensures cgiStdinToStdout ==
        if stdin.Some? then old(cgiStdinToStdout)[child.stdin := child.stdout] else old(cgiStdinToStdout)
    {
      stdin := None;
      if body == [] {
        k := Close(k, child.stdin);
      } else {
        var registered := Register(k, w, child.stdin, Writable);
        k := registered.0;
        if registered.1 {
          cgiStdinToStdout := cgiStdinToStdout[child.stdin := child.stdout];
          stdin := Some(child.stdin);
        } else {
          k := Close(k, child.stdin);
        }
      }
    }

    /** The part that gives up on a child whose stdout cannot be watched. */
    method GiveUp(child: Child, stdin: Option<Fd>)
      requires Valid()
      modifies this
      ensures Valid() && made == old(made) && connections == old(connections)
      ensures View() == GaveUp(old(View()), child, stdin, old(k))
    {
      hide Close, Deregister, Kill, Conns, Valid;
      k := Kill(k, child.pid);
      if stdin.Some? {
        k := Deregister(k, stdin.value);
        cgiStdinToStdout := cgiStdinToStdout - {stdin.value};
        k := Close(k, stdin.value);
      }
      lost := lost.(fds := lost.fds + {child.stdout}, pids := lost.pids + {child.pid}, unwatched := lost.unwatched + 1);
    }

    /** The other part, once the connection waits and stdin is dealt with. */
    method WatchStdout(id: Fd, request: HttpRequest, child: Child, stdin: Option<Fd>)
      requires Valid() && id in connections
      modifies this, made
      ensures Valid() && made == old(made) && connections == old(connections)
      ensures View() == StdoutWatched(old(View()), w, id, request, child, stdin)
    {
      hide Conns, Valid, Refused, Register;
      Seen(id);
      var registered := Register(k, w, child.stdout, Readable);
      k := registered.0;
      if registered.1 {
        cgiProcesses := cgiProcesses[child.stdout :=
          L.Cgi(child.pid, id, stdin, request.body, 0, [], clock, request, connections[id].log.serial, [], [])];
        ended := ended - {child.pid};
      } else {
        GiveUp(child, stdin);
        ghost var s1 := View();
        SetAwaiting(id, false);
        RefuseSpawn(id, request);
        RefusedOver(s1, w, id, request, s1.conns[id].(awaitingCgi := false), s1.conns[id].(awaitingCgi := false));
      }
    }

    /** `spawn_cgi_for_connection`, for the request at the head of the queue. */
    method SpawnCgi(id: Fd)
      requires Valid() && id in connections && connections[id].requests != [] && !connections[id].awaitingCgi
      modifies this, made
      ensures Valid() && made == old(made) && connections == old(connections)
      ensures View() == L.SpawnCgi(old(View()), w, id)
    {
      hide Conns, Valid, L.Popped, Refused, Spawn, L.OpenStdin, L.OpenPipes, StdoutWatched, L.SpawnRefused, L.Forgotten,
        L.Started, L.Abandoned;
      Seen(id);
      ghost var s := View();
      ghost var popped := L.Popped(s.conns[id]);
      var request := PopRequest(id);
      var spawned := Spawn(k, w);
      k := spawned.0;
      if !spawned.1.Forked? {
        lost := L.Abandoned(lost, spawned.1);
        ghost var s1 := s.(k := k, lost := lost);
        RefuseSpawn(id, request);
        RefusedOver(s1, w, id, request, popped, popped);
        RefusedIs(s1, w, id);
      } else {
        var child := spawned.1.child;
        SetAwaiting(id, true);
        SetTwice(s.(k := spawned.0), id, popped, popped.(awaitingCgi := true));
        var stdin := OpenStdin(child, request.body);
        SpawnSteps(s, w, id, child, stdin, spawned.0, k);
        WatchStdout(id, request, child, stdin);
      }
    }

    // ------------------------------------------------------- draining the queue

    /** Answers the request at the head of the queue at once. */
    method Respond(id: Fd, reply: bytes)
      requires Valid() && id in connections && connections[id].requests != []
      modifies made
      ensures Valid() && View() == L.SetConn(old(View()), id, L.Answered(old(View()).conns[id], reply, L.Handled))
    {
      hide Conns, Valid, L.Popped, L.QueueWrite;
      Seen(id);
      ghost var s := View();
      var request := PopRequest(id);
      QueueWrite(id, L.Answer(request, reply, L.Handled));
      SetTwice(s, id, L.Popped(s.conns[id]), L.Answered(s.conns[id], reply, L.Handled));
    }

    /** The dispatch loop of `process_queued_requests`. */
    method Dispatch(id: Fd)
      requires Valid()
      modifies this, made
      ensures Valid() && made == old(made) && connections == old(connections)
      ensures View() == L.Dispatch(old(View()), w, id)
    {
      hide Conns, Valid, L.Answered, L.SpawnCgi;
      while true
        invariant Valid() && made == old(made) && connections == old(connections)
        invariant L.Dispatch(View(), w, id) == L.Dispatch(old(View()), w, id)
        decreases if id in connections then |connections[id].requests| else 0
      {
        Seen(id);
        if id !in connections || connections[id].awaitingCgi || connections[id].requests == [] {
          break;
        }
        ghost var s := View();
        var outcome := w.handle(connections[id].requests[0], k.calls);
        k := Called(k);
        match outcome {
          case Respond(reply) =>
            Respond(id, reply);
            Seen(id);
            AnsweredShorter(s.conns[id], reply);
          case StartCgi =>
            SpawnCgi(id);
            break;
        }
      }
    }

    /** `process_queued_requests`. */
    method ProcessQueued(id: Fd)
      requires Valid()
      modifies this, made
      ensures Valid() && made == old(made)
      ensures View() == L.ProcessQueued(old(View()), w, id)
    {
      hide Conns, Valid, L.Dispatch, L.ArmWrite, L.RemoveConnection;
      Dispatch(id);
      Seen(id);
      if id in connections && !connections[id].WriteComplete() {
        var ok := ArmWrite(id);
        if !ok {
          RemoveConnection(id);
        }
      }
    }

    /** `finish_cgi`. */
    method FinishCgi(o: Fd, cause: L.Cause)
      requires Valid()
      modifies this, made
      ensures Valid() && made == old(made)
      ensures View() == L.FinishCgi(old(View()), w, o, cause)
    {
      hide Conns, Valid, L.Release, L.ProcessQueued, L.QueueWrite, L.ArmWrite;
      if o !in cgiProcesses {
        return;
      }
      var cgi := cgiProcesses[o];
      var answer := Release(o, cause);
      var failed, exitOk := !cause.AtEnd?, false;
      match answer {
        case Exited(code) => exitOk := !failed && code == 0;
        case Running => exitOk := !failed;
        case WaitError =>
      }
      var reply: Reply;
      if failed || (!exitOk && cgi.output == []) {
        reply := w.page(ServerErrorPage, k.calls);
      } else {
        reply := w.cgiPage(cgi.output, k.calls);
      }
      Seen(cgi.client);
      if cgi.client !in connections {
        return;
      }
      ghost var s := View();
      var item := L.Answer(cgi.request, reply, L.Ran(cgi, cause, answer, clock));
      SetAwaiting(cgi.client, false);
      ghost var c := s.conns[cgi.client].(awaitingCgi := false);
      QueueResponseNow(cgi.client, item);
      AnswerOver(s, w, cgi.client, c, L.QueueWrite(c, item));
      ProcessQueued(cgi.client);
    }

    // ------------------------------------------------------------------ handlers

    /** `handle_listener_event`: exactly one accept. */
    method HandleListenerEvent()
      requires Valid()
      modifies this
      ensures Valid() && old(made) <= made && fresh(made - old(made))
      ensures View() == L.ListenerEvent(old(View()), w)
    {
      hide Accept, L.Admitted, Valid, Conns;
      SameSize();
      if |connections| >= w.maxConnections {
        return;
      }
      var accepted := Accept(k, w);
      if accepted.1.Some? {
        Admit(accepted.1.value, accepted.0);
      } else {
        k := accepted.0;
      }
    }

    /** An accepted socket is registered and recorded, or closed again. */
    method Admit(id: Fd, kernel: Kernel)
      requires Valid()
      modifies this
      ensures Valid() && old(made) <= made && fresh(made - old(made))
      ensures View() == L.Admitted(old(View()), w, kernel, id)
    {
      hide Register, Close, Valid, Conns;
      var registered := Register(kernel, w, id, Readable);
      k := registered.0;
      if registered.1 {
        var connection := new Connection(serials, clock);
        Insert(id, connection);
        serials := serials + 1;
      } else {
        k := Close(k, id);
      }
    }

    lemma SameSize()
      requires Valid()
      ensures |Conns()| == |connections|
    {
      assert Conns().Keys == connections.Keys;
    }

    /** `connections.insert`. */
    method Insert(id: Fd, connection: Connection)
      requires Valid() && connection !in made
      modifies `connections, `made
      ensures Valid() && made == old(made) + {connection}
      ensures View() == L.SetConn(old(View()), id, connection.View())
    {
      connections := connections[id := connection];
      made := made + {connection};
      assert Conns() == old(Conns())[id := connection.View()];
    }

    /** `handle_client_readable`: exactly one read, then every complete request. */
    method HandleClientReadable(id: Fd)
      requires Valid()
      modifies this, made
      ensures Valid() && made == old(made)
      ensures View() == L.ClientReadable(old(View()), w, id)
    {
      hide Conns, Valid, L.Ingest, L.ProcessQueued, L.RemoveConnection, L.QueueWriteAndClose, L.ArmWrite, Read;
      Seen(id);
      if id !in connections {
        return;
      }
      var outcome := Read(k, w);
      k := outcome.0;
      match outcome.1 {
        case Received(data) =>
          var failure := Ingest(id, data);
          PopAllAndPushBack(id);
          ProcessQueued(id);
          if failure.Some? {
            Reject(id, failure.value);
          }
        case EndOfFile => RemoveConnection(id);
        case NothingToRead =>
        case ReadError => RemoveConnection(id);
      }
    }

    /** The 400 or 413 for a malformed request, if the connection is still there. */
    method Reject(id: Fd, e: ParseError)
      requires Valid()
      modifies this, made
      ensures Valid() && made == old(made)
      ensures View() == L.Reject(old(View()), w, id, e)
    {
      hide Conns, Valid, L.QueueWriteAndClose, L.ArmWrite;
      Seen(id);
      var page := L.RejectionPage(e);
      var reply := w.page(page, k.calls);
      if id in connections {
        QueueWriteAndClose(id, L.Notice(page, reply));
      }
      var _ := ArmWrite(id);
    }

    method QueueWriteAndClose(id: Fd, item: L.Item)
      requires Valid() && id in connections
      modifies made
      ensures Valid()
      ensures View() == L.SetConn(old(View()), id, L.QueueWriteAndClose(old(View()).conns[id], item))
    {
      hide L.QueueWriteAndClose;
      connections[id].QueueWriteAndClose(item);
      OneChanged(id);
    }

    /** `handle_client_writable`: exactly one write. */
    method HandleClientWritable(id: Fd)
      requires Valid()
      modifies this, made
      ensures Valid() && made == old(made)
      ensures View() == L.ClientWritable(old(View()), w, id)
    {
      hide Conns, Valid, L.AfterWrite, L.RemoveConnection, Write;
      Seen(id);
      if id !in connections || connections[id].WriteComplete() {
        return;
      }
      assert connections[id].PendingWrite() == View().conns[id].PendingWrite();
      var outcome := Write(k, w, connections[id].PendingWrite());
      k := outcome.0;
      match outcome.1 {
        case Wrote(count) =>
          Seen(id);
          Wrote(id, count);
        case NotWritable =>
        case WriteError => RemoveConnection(id);
      }
    }

    method Advance(id: Fd, count: nat)
      requires Valid() && id in connections && count <= |connections[id].PendingWrite()|
      modifies made
      ensures Valid() && id in old(View()).conns && count <= |old(View()).conns[id].PendingWrite()|
      ensures View() == L.SetConn(old(View()), id, L.Advanced(old(View()).conns[id], count, clock))
    {
      hide L.Advanced;
      connections[id].Advance(count, clock);
      OneChanged(id);
    }

    method Empty(id: Fd)
      requires Valid() && id in connections
      modifies made
      ensures Valid()
      ensures View() == L.SetConn(old(View()), id, L.Emptied(old(View()).conns[id]))
    {
      connections[id].Empty();
      OneChanged(id);
    }

    /** What follows a write of `count` bytes. */
    method Wrote(id: Fd, count: nat)
      requires Valid() && id in connections && count <= |connections[id].PendingWrite()|
      modifies this, made
      ensures Valid() && made == old(made) && id in old(View()).conns && count <= |old(View()).conns[id].PendingWrite()|
      ensures View() == L.AfterWrite(old(View()), w, id, count)
    {
      hide Conns, Valid, L.Advanced, L.Emptied, L.RemoveConnection, Modify;
      ghost var s := View();
      Advance(id, count);
      Seen(id);
      ghost var c := View().conns[id];
      if connections[id].WriteComplete() {
        if connections[id].closeAfterWrite {
          RemoveConnection(id);
        } else {
          Empty(id);
          var modified := Modify(k, w, id, Readable);
          SetTwice(s.(k := modified.0), id, c, L.Emptied(c));
          k := modified.0;
          if !modified.1 {
            RemoveConnection(id);
          }
        }
      }
    }

    /** `handle_cgi_stdout_readable`: exactly one read. */
    method HandleCgiStdoutReadable(o: Fd)
      requires Valid()
      modifies this, made
      ensures Valid() && made == old(made)
      ensures View() == L.CgiStdoutReadable(old(View()), w, o)
    {
      hide Conns, Valid, L.FinishCgi, Read;
      var outcome := Read(k, w);
      k := outcome.0;
      match outcome.1 {
        case Received(data) =>
          if o in cgiProcesses {
            var cgi := cgiProcesses[o];
            cgiProcesses := cgiProcesses[o := cgi.(output := cgi.output + data, received := cgi.received + [data])];
          }
        case EndOfFile => FinishCgi(o, L.AtEnd);
        case NothingToRead =>
        case ReadError => FinishCgi(o, L.ReadFailed);
      }
    }

    /** `close_cgi_stdin`. */
    method CloseCgiStdin(i: Fd)
      requires Valid()
      modifies this
      ensures Valid() && made == old(made)
      ensures View() == L.CloseCgiStdin(old(View()), i)
    {
      hide Conns, Valid, Close, Deregister;
      k := Deregister(k, i);
      if i in cgiStdinToStdout && cgiStdinToStdout[i] in cgiProcesses {
        var o := cgiStdinToStdout[i];
        cgiProcesses := cgiProcesses[o := cgiProcesses[o].(stdin := None)];
      }
      cgiStdinToStdout := cgiStdinToStdout - {i};
      k := Close(k, i);
    }

    /** `handle_cgi_stdin_writable`: exactly one write. */
    method HandleCgiStdinWritable(i: Fd)
      requires Valid()
      modifies this
      ensures Valid() && made == old(made)
      ensures View() == L.CgiStdinWritable(old(View()), w, i)
    {
      hide Conns, Valid, L.CloseCgiStdin, Write;
      if i !in cgiStdinToStdout || cgiStdinToStdout[i] !in cgiProcesses {
        return;
      }
      var o := cgiStdinToStdout[i];
      var cgi := cgiProcesses[o];
      var data := cgi.StdinRemaining();
      if data == [] {
        CloseCgiStdin(i);
        return;
      }
      var outcome := Write(k, w, data);
      k := outcome.0;
      match outcome.1 {
        case Wrote(count) =>
          cgi := cgi.(stdinWritten := cgi.stdinWritten + count, delivered := cgi.delivered + data[..count]);
          cgiProcesses := cgiProcesses[o := cgi];
          if cgi.StdinComplete() {
            CloseCgiStdin(i);
          }
        case NotWritable =>
        case WriteError => CloseCgiStdin(i);
      }
    }

    // -------------------------------------------------------------------- sweeps

    /** `sweep_cgi_timeouts`. */
    method SweepCgiTimeouts()
      requires Valid()
      modifies this, made
      ensures Valid() && made == old(made)
      ensures View() == L.SweepCgiTimeouts(old(View()), w)
    {
      hide Conns, Valid, L.FinishCgi, Listing;
      var late := set o | o in cgiProcesses && clock - cgiProcesses[o].startedAt > L.CGI_TIMEOUT;
      var timedOut := Listing(late, w, k.calls);
      assert late == L.TimedOut(View());
      var i := 0;
      while i < |timedOut|
        invariant 0 <= i <= |timedOut| && Valid() && made == old(made)
        invariant L.FinishAll(View(), w, timedOut[i..]) == L.SweepCgiTimeouts(old(View()), w)
      {
        FinishCgi(timedOut[i], L.TookTooLong);
        i := i + 1;
      }
    }

    /** `sweep_pending_reaps`: a pid is kept while its child is still running. */
    method SweepPendingReaps()
      requires Valid()
      modifies this
      ensures Valid() && made == old(made)
      ensures View() == L.SweepPendingReaps(old(View()), w)
    {
      hide Conns, Valid, Wait;
      var pids, kept := pendingReap, [];
      var i := 0;
      while i < |pids|
        invariant 0 <= i <= |pids| && Valid() && made == old(made)
        invariant View() == old(View()).(k := k)
        invariant L.Reap(old(k), w, pids).0 == L.Reap(k, w, pids[i..]).0
        invariant L.Reap(old(k), w, pids).1 == kept + L.Reap(k, w, pids[i..]).1
      {
        assert pids[i..][1..] == pids[i + 1..];
        var waited := Wait(k, w, pids[i]);
        k := waited.0;
        if waited.1.Running? {
          kept := kept + [pids[i]];
        }
        i := i + 1;
      }
      pendingReap := kept;
    }

    /** `sweep_idle_connections`. */
    method SweepIdleConnections()
      requires Valid()
      modifies this, made
      ensures Valid() && made == old(made)
      ensures View() == L.SweepIdleConnections(old(View()), w)
    {
      var idle := set id | id in connections && !connections[id].awaitingCgi
                           && clock - connections[id].lastActivity >= L.IDLE_TIMEOUT;
      assert forall id :: id in connections ==> Conns()[id] == connections[id].View();
      assert idle == L.IdleConnections(View());
      hide Conns, Valid, L.ExpireConnection, Listing, L.IdleConnections;
      var timedOut := Listing(idle, w, k.calls);
      var i := 0;
      while i < |timedOut|
        invariant 0 <= i <= |timedOut| && Valid() && made == old(made)
        invariant L.ExpireAll(View(), w, timedOut[i..]) == L.SweepIdleConnections(old(View()), w)
      {
        Expire(timedOut[i]);
        i := i + 1;
      }
    }

    method Expire(id: Fd)
      requires Valid()
      modifies this, made
      ensures Valid() && made == old(made)
      ensures View() == L.ExpireConnection(old(View()), w, id)
    {
      hide Conns, Valid, L.QueueWriteAndClose, L.ArmWrite, L.RemoveConnection;
      Seen(id);
      if id in connections && connections[id].readBuf != [] {
        QueueWriteAndClose(id, L.Notice(TimeoutPage, w.page(TimeoutPage, k.calls)));
        var _ := ArmWrite(id);
      } else {
        RemoveConnection(id);
      }
    }

    // ---------------------------------------------------------------------- ticks

    /** The body of the dispatch loop of `tick`. */
    method Handle(e: L.Event)
      requires Valid()
      modifies this, made
      ensures Valid() && old(made) <= made && fresh(made - old(made))
      ensures View() == L.Handle(old(View()), w, e)
    {
      hide Conns, Valid, L.ListenerEvent, L.CgiStdoutReadable, L.CgiStdinWritable, L.RemoveConnection,
        L.ClientReadable, L.ClientWritable;
      Seen(e.fd);
      if e.fd in listeners {
        HandleListenerEvent();
      } else if e.fd in cgiProcesses {
        if e.error || e.hup {
          HandleCgiStdoutReadable(e.fd);
        } else if e.readable {
          HandleCgiStdoutReadable(e.fd);
        }
      } else if e.fd in cgiStdinToStdout {
        if e.writable {
          HandleCgiStdinWritable(e.fd);
        }
      } else if e.fd in connections {
        if e.error {
          RemoveConnection(e.fd);
        } else if e.writable {
          HandleClientWritable(e.fd);
        } else if e.readable {
          HandleClientReadable(e.fd);
        } else if e.hup {
          RemoveConnection(e.fd);
        }
      }
    }

    method SweepSessions()
      requires Valid()
      modifies sessions, sessions.store
      ensures Valid() && View() == old(View())
      ensures var due := clock - old(sessions.lastSweep) >= SESSION_SWEEP_INTERVAL;
              && sessions.lastSweep == (if due then clock else old(sessions.lastSweep))
              && sessions.store.sessions ==
                   if due then Live(old(sessions.store.sessions), clock) else old(sessions.store.sessions)
    {
      sessions.SweepIfDue(clock);
    }

    /** The sweeps of processes, pids and connections. */
    method SweepTables()
      requires Valid()
      modifies this, made
      ensures Valid() && made == old(made) && View() == L.Sweep(old(View()), w)
    {
      hide Conns, Valid, L.SweepCgiTimeouts, L.SweepPendingReaps, L.SweepIdleConnections;
      SweepCgiTimeouts();
      SweepPendingReaps();
      if clock - lastConnectionSweep >= L.IDLE_SWEEP_INTERVAL {
        var now := clock;
        SweepIdleConnections();
        lastConnectionSweep := now;
      }
    }

    /** The loop over the copied events. */
    method HandleEvents(events: seq<L.Event>)
      requires Valid()
      modifies this, made
      ensures Valid() && old(made) <= made && fresh(made - old(made))
      ensures View() == L.HandleAll(old(View()), w, events)
    {
      hide Conns, Valid, L.Handle;
      var i := 0;
      while i < |events|
        invariant 0 <= i <= |events| && Valid() && old(made) <= made && fresh(made - old(made))
        invariant L.HandleAll(View(), w, events[i..]) == L.HandleAll(old(View()), w, events)
      {
        Handle(events[i]);
        i := i + 1;
      }
    }

    /** How long the wait may take. */
    method WaitLimit(timeout: int) returns (limit: int)
      requires Valid()
      ensures limit == L.WaitLimit(View(), timeout)
    {
      var cgiWorkPending := cgiProcesses != map[] || pendingReap != [];
      var connectionsPending := connections != map[];
      NoConns();
      if (cgiWorkPending || connectionsPending) && (timeout < 0 || timeout > L.WAIT_CAP) {
        return L.WAIT_CAP;
      }
      return timeout;
    }

    lemma NoConns()
      requires Valid()
      ensures connections == map[] <==> Conns() == map[]
    {
      if connections == map[] {
        assert (forall id :: id !in Conns()) ==> Conns() == map[];
      } else {
        assert (forall id :: id !in connections) ==> connections == map[];
        var id :| id in connections;
        assert id in Conns();
      }
    }

    /** `tick`: the sweeps, the wait and, unless it failed, the events it returned; `limit` is
        what the kernel is told about the wait. */
    method Tick(t: L.Tick) returns (count: Option<nat>, limit: int)
      requires Valid()
      modifies this, made, sessions, sessions.store
      ensures Valid() && old(made) <= made && fresh(made - old(made))
      ensures View() == L.RunTick(old(View()), w, t)
      ensures count == if t.failed then None else Some(|t.events|)
      ensures limit == L.WaitLimit(L.Sweep(old(View()), w), t.timeout)
      ensures var due := old(clock) - old(sessions.lastSweep) >= SESSION_SWEEP_INTERVAL;
              && sessions.lastSweep == (if due then old(clock) else old(sessions.lastSweep))
              && sessions.store.sessions ==
                   if due then Live(old(sessions.store.sessions), old(clock)) else old(sessions.store.sessions)
    {
      hide Conns, Valid, L.Sweep, L.Handle;
      SweepSessions();
      SweepTables();
      limit := WaitLimit(t.timeout);
      clock := clock + t.waited;
      if t.failed {
        return None, limit;
      }
      HandleEvents(t.events);
      return Some(|t.events|), limit;
    }

    /** `run`, for as many ticks as there are. */
    method Run(ticks: seq<L.Tick>)
      requires Valid()
      modifies this, made, sessions, sessions.store
      ensures Valid() && old(made) <= made && fresh(made - old(made))
      ensures View() == L.Run(old(View()), w, ticks)
      ensures OnlyRemoved(old(sessions.store.sessions), sessions.store.sessions)
    {
      hide Conns, Valid, L.RunTick;
      var i := 0;
      while i < |ticks|
        invariant 0 <= i <= |ticks| && Valid() && old(made) <= made && fresh(made - old(made))
        invariant L.Run(View(), w, ticks[i..]) == L.Run(old(View()), w, ticks)
        invariant OnlyRemoved(old(sessions.store.sessions), sessions.store.sessions)
      {
        var _, _ := Tick(ticks[i]);
        i := i + 1;
      }
    }

    // ---------------------------------------------------------------- destruction

    method RemoveAllConnections()
      requires Valid()
      modifies this, made
      ensures Valid() && made == old(made)
      ensures View() == L.RemoveAll(old(View()), w, Listing(old(View()).conns.Keys, w, old(k).calls))
    {
      assert connections.Keys == Conns().Keys;
      hide Conns, Valid, L.RemoveConnection, Listing;
      var ids := Listing(connections.Keys, w, k.calls);
      var i := 0;
      while i < |ids|
        invariant 0 <= i <= |ids| && Valid() && made == old(made)
        invariant L.RemoveAll(View(), w, ids[i..]) == L.RemoveAll(old(View()), w, ids)
      {
        RemoveConnection(ids[i]);
        i := i + 1;
      }
    }

    /** `drop`: every connection is removed, then the listeners go. */
    method Drop()
      requires Valid()
      modifies this, made
      ensures Valid() && made == old(made)
      ensures View() == L.Shutdown(old(View()), w)
    {
      hide Conns, Valid, Listing, Close, Deregister, L.RemoveAll;
      RemoveAllConnections();
      var fds := Listing(listeners, w, k.calls);
      ghost var k1 := k;
      var i := 0;
      while i < |fds|
        invariant 0 <= i <= |fds|
        invariant L.CloseAll(k, fds[i..]) == L.CloseAll(k1, fds)
        modifies `k
      {
        k := Close(Deregister(k, fds[i]), fds[i]);
        i := i + 1;
      }
      listeners := {};
    }
  }

  /** The listeners' descriptors, all open, the first `n` of them watched, each by one call. */
  function Listening(fds: seq<Fd>, n: nat): Kernel
    requires n <= |fds|
  {
    L.Start(Elems(fds), 0).k.(interest := map fd | fd in Elems(fds[..n]) :: Readable, calls := n)
  }

  lemma ListeningNext(w: World, fds: seq<Fd>, n: nat)
    requires n < |fds| && Different(fds)
    ensures var answer := Register(Listening(fds, n), w, fds[n], Readable);
            && answer.1 == w.registers(n)
            && (answer.1 ==> answer.0 == Listening(fds, n + 1))
  {
    var before, after := Elems(fds[..n]), Elems(fds[..n + 1]);
    assert fds[..n + 1] == fds[..n] + [fds[n]];
    assert after == before + {fds[n]};
    assert fds[n] !in before;
    assert (map fd | fd in before :: Readable)[fds[n] := Readable] == map fd | fd in after :: Readable;
  }

  lemma {:induction false} CountElems(fds: seq<Fd>)
    requires Different(fds)
    ensures |Elems(fds)| == |fds|
  {
    if fds != [] {
      var front, last := fds[..|fds| - 1], fds[|fds| - 1];
      CountElems(front);
      assert fds == front + [last];
      assert Elems(fds) == Elems(front) + {last};
      assert last !in Elems(front);
    }
  }

  predicate AllRegister(w: World, n: nat) { forall i :: 0 <= i < n ==> w.registers(i) }

  /** `with_max_connections`: each listener is registered, and the first failure is returned. */
  method Open(w: World, fds: seq<Fd>, now: nat) returns (loop: EventLoop?)
    requires Different(fds)
    ensures loop != null <==> AllRegister(w, |fds|)
    ensures loop != null ==>
              && fresh(loop) && fresh(loop.sessions) && fresh(loop.sessions.store) && loop.Valid() && loop.made == {}
              && loop.w == w && loop.View() == L.Start(Elems(fds), now)
              && loop.sessions.lastSweep == now && loop.sessions.store.sessions == map[]
  {
    hide Register, Listening, L.Start, Elems, Different;
    ListeningNone(fds);
    var k := L.Start(Elems(fds), 0).k.(interest := map[], calls := 0);
    var i := 0;
    while i < |fds|
      invariant 0 <= i <= |fds| && AllRegister(w, i)
      invariant k == Listening(fds, i)
    {
      ListeningNext(w, fds, i);
      var answer := Register(k, w, fds[i], Readable);
      k := answer.0;
      if !answer.1 {
        return null;
      }
      i := i + 1;
    }
    ListeningAll(fds, now);
    loop := new EventLoop(w, Elems(fds), now, k);
  }

  lemma ListeningNone(fds: seq<Fd>)
    ensures L.Start(Elems(fds), 0).k.(interest := map[], calls := 0) == Listening(fds, 0)
  {
    assert (map fd | fd in Elems(fds[..0]) :: Readable) == map[];
  }

  lemma ListeningAll(fds: seq<Fd>, now: nat)
    requires Different(fds)
    ensures Listening(fds, |fds|) == L.Start(Elems(fds), now).k
  {
    CountElems(fds);
    assert fds[..|fds|] == fds;
  }

  /** A loop that could be opened, run: the states of the objects are the reachable states. */
  method Serve(w: World, fds: seq<Fd>, now: nat, ticks: seq<L.Tick>) returns (loop: EventLoop?)
    requires Different(fds)
    ensures loop != null <==> AllRegister(w, |fds|)
    ensures loop != null ==> fresh(loop) && loop.Valid() && loop.w == w && Reachable(loop.View(), w)
  {
    hide L.Run, L.Start, Elems, Different;
    loop := Open(w, fds, now);
    if loop != null {
      loop.Run(ticks);
      assert loop.View() == L.Run(L.Start(Elems(fds), now), w, ticks);
    }
  }
}
