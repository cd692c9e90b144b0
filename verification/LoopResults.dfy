/** What every run of the event loop guarantees, and exactly when it guarantees more. */
module LoopResults {
  import opened Bytes
  import opened Parser
  import opened Pipeline
  import opened Kernel
  import opened Loop
  import opened LoopInvariants
  import opened LoopHandlers
  import opened LoopEvents
  import opened LoopRuns

  /** The states of all runs of `tick`, whatever the kernel answers and whichever events it reports. */
  ghost predicate Reachable(s: Loop, w: World) {
    exists listeners: set<Fd>, now: nat, ticks: seq<Tick> :: s == Run(Start(listeners, now), w, ticks)
  }

  lemma ReachableGood(s: Loop, w: World)
    requires Reachable(s, w)
    ensures Good(s, w)
  {
    hide Good, Run, Start;
    var listeners: set<Fd>, now: nat, ticks: seq<Tick> :| s == Run(Start(listeners, now), w, ticks);
    StartGood(listeners, now, w);
    RunGood(Start(listeners, now), w, ticks);
  }

  lemma GoodParts(s: Loop, w: World)
    requires Good(s, w)
    ensures Tables(s) && Families(s.cgis, s.pendingReap, s.lost.pids, s.k.children) && Linked(s.conns, s.cgis, None)
    ensures ConnsOk(s.conns, w) && CgisOk(s.cgis, w) && LostOk(s.lost) && Settled(s, w, None)
    ensures Stops(s.cgis, s.pendingReap, s.k.killed, s.ended)
  {}

  lemma GoodConn(s: Loop, w: World, id: Fd)
    requires Reachable(s, w) && id in s.conns
    ensures ConnOk(s.conns[id], w)
  {
    hide Reachable, Good, Tables, Families, Stops, Linked, ConnOk, CgisOk, LostOk, Settled;
    ReachableGood(s, w);
    GoodParts(s, w);
  }

  lemma GoodTables(s: Loop, w: World)
    requires Reachable(s, w)
    ensures Tables(s) && LostOk(s.lost)
    ensures Families(s.cgis, s.pendingReap, s.lost.pids, s.k.children) && Linked(s.conns, s.cgis, None)
    ensures Settled(s, w, None) && CgisOk(s.cgis, w)
    ensures Stops(s.cgis, s.pendingReap, s.k.killed, s.ended)
  {
    hide Reachable, Good, Tables, Families, Stops, Linked, ConnsOk, CgisOk, LostOk, Settled;
    ReachableGood(s, w);
    GoodParts(s, w);
  }

  // ------------------------------------------------------------------ connections

  /** Every answer on the stream is what became of its request, and every notice is a
      408 or follows a parse error. */
  ghost predicate StreamOk(c: Conn, w: World) {
    forall i :: 0 <= i < |c.log.items| ==>
      match c.log.items[i]
      case Answer(request, reply, origin) => Justified(w, request, reply, origin)
      case Notice(page, reply) =>
        IsPage(w, page, reply) && (page == TimeoutPage || (c.log.parseFailed && page in {BadRequestPage, TooLargePage}))
  }

  /** Requests are dispatched in the order they were parsed and answered in the order they
      were dispatched, each with what `handle_request` made of it; at most one, for which it
      asked for a CGI, is outstanding. */
  lemma ResponsesInOrder(s: Loop, w: World, id: Fd)
    requires Reachable(s, w) && id in s.conns
    ensures var c := s.conns[id];
            && c.log.parsed == c.log.dispatched + c.requests
            && (if c.awaitingCgi
                then exists r :: c.log.dispatched == AnsweredOf(c.log.items) + [r] && AsksCgi(w, r)
                else c.log.dispatched == AnsweredOf(c.log.items))
            && StreamOk(c, w)
  {
    hide Reachable, AnsweredOf, Conserved, Faithful, IsPage, Justified, AsksCgi;
    GoodConn(s, w, id);
    var c := s.conns[id];
    var d := c.log.dispatched;
    if c.awaitingCgi {
      assert d == d[..|d| - 1] + [d[|d| - 1]];
      OutstandingAsks(s, w, id);
    }
  }

  lemma OutstandingAsks(s: Loop, w: World, id: Fd)
    requires Reachable(s, w) && id in s.conns && s.conns[id].awaitingCgi
    ensures var d := s.conns[id].log.dispatched; d != [] && AsksCgi(w, d[|d| - 1])
  {
    hide Reachable, Tables, Families, Stops, LostOk, Settled, AsksCgi;
    GoodTables(s, w);
    assert IsServed(s.cgis, id);
    var o :| o in s.cgis && s.cgis[o].client == id;
    assert WorksFor(s.cgis[o], s.conns) && CgiOk(s.cgis[o], w);
  }

  /** What was sent and what is pending are together everything that was ever queued, in order. */
  lemma BytesConserved(s: Loop, w: World, id: Fd)
    requires Reachable(s, w) && id in s.conns
    ensures var c := s.conns[id];
            BytesOf(c.log.items) == c.log.sent + c.PendingWrite() && c.writeOffset <= |c.writeBuf|
  {
    hide Reachable, BytesOf, Ordered, Faithful;
    GoodConn(s, w, id);
  }

  /** A child has been given a prefix of the request body; its stdin is open only while some is left. */
  lemma StdinConserved(s: Loop, w: World, o: Fd)
    requires Reachable(s, w) && o in s.cgis
    ensures var cgi := s.cgis[o];
            && cgi.delivered <= cgi.request.body
            && cgi.delivered + cgi.StdinRemaining() == cgi.request.body
            && (cgi.stdin.Some? ==> cgi.StdinRemaining() != [])
  {
    hide Reachable, Tables, Families, Stops, Linked, LostOk, Settled;
    GoodTables(s, w);
    assert CgiOk(s.cgis[o], w);
  }

  /** Where descriptors can be registered and no write fails, a child's stdin is open exactly as
      long as some of the request body is still to be given to it. */
  lemma StdinOpenIff(s: Loop, w: World, o: Fd)
    requires Reachable(s, w) && Delivers(w) && o in s.cgis
    ensures s.cgis[o].stdin.Some? <==> s.cgis[o].StdinRemaining() != []
  {
    hide Reachable, Tables, Families, Stops, Linked, LostOk, Settled, Delivers, OutputOk, AsksCgi;
    GoodTables(s, w);
    assert CgiOk(s.cgis[o], w);
  }

  /** A process in the tables has not been killed; a child that is still to be reaped has been
      killed unless its stdout had come to its end. */
  lemma KilledIff(s: Loop, w: World)
    requires Reachable(s, w)
    ensures forall o :: o in s.cgis ==> s.cgis[o].pid !in s.k.killed
    ensures forall pid :: pid in s.pendingReap ==> (pid in s.k.killed <==> pid !in s.ended)
  {
    hide Reachable, Tables, Families, Linked, CgisOk, LostOk, Settled;
    GoodTables(s, w);
  }

  lemma {:induction false} NoticeIff(items: seq<Item>)
    ensures HasNotice(items) <==> exists i :: 0 <= i < |items| && items[i].Notice?
    decreases |items|
  {
    if items != [] {
      var front := items[..|items| - 1];
      NoticeIff(front);
      assert forall i :: 0 <= i < |front| ==> front[i] == items[i];
    }
  }

  /** A connection is to be closed exactly if a 400, 413 or 408 was put on its stream. */
  lemma ClosingIff(s: Loop, w: World, id: Fd)
    requires Reachable(s, w) && id in s.conns
    ensures var c := s.conns[id]; c.closeAfterWrite <==> exists i :: 0 <= i < |c.log.items| && c.log.items[i].Notice?
  {
    hide Reachable, Ordered, Conserved, Faithful, ItemsOk, HasNotice;
    GoodConn(s, w, id);
    NoticeIff(s.conns[id].log.items);
  }

  /** The output of a child is exactly what was read from its stdout, piece by piece. */
  lemma OutputConserved(s: Loop, w: World, o: Fd)
    requires Reachable(s, w) && o in s.cgis
    ensures var cgi := s.cgis[o];
            && cgi.output == Concat(cgi.received)
            && forall i :: 0 <= i < |cgi.received| ==> IsRead(w, cgi.received[i])
  {
    hide Reachable, Tables, Families, Stops, Linked, LostOk, Settled, IsRead;
    GoodTables(s, w);
    assert CgiOk(s.cgis[o], w);
  }

  /** The cap on connections holds, and every connection instance has its own number. */
  lemma ConnectionsBounded(s: Loop, w: World)
    requires Reachable(s, w)
    ensures |s.conns| <= w.maxConnections
    ensures forall a, b :: a in s.conns && b in s.conns && a != b ==> s.conns[a].log.serial != s.conns[b].log.serial
  {
    ReachableGood(s, w);
    hide Reachable, Sound;
  }

  /** Each CGI process works for a live, waiting connection, the very instance that asked,
      and each waiting connection has exactly one. */
  lemma CgiLinkage(s: Loop, w: World)
    requires Reachable(s, w)
    ensures forall o :: o in s.cgis ==>
              && s.cgis[o].client in s.conns && s.conns[s.cgis[o].client].awaitingCgi
              && s.conns[s.cgis[o].client].log.serial == s.cgis[o].serial
    ensures forall id :: id in s.conns && s.conns[id].awaitingCgi ==> |CgisOf(s, id)| == 1
  {
    hide Reachable, Tables, Families, Stops, CgisOk, LostOk, Settled, IsServed;
    GoodTables(s, w);
    forall id | id in s.conns && s.conns[id].awaitingCgi ensures |CgisOf(s, id)| == 1 {
      assert IsServed(s.cgis, id);
      ServedOnce(s, id);
    }
  }

  lemma ServedOnce(s: Loop, id: Fd)
    requires Linked(s.conns, s.cgis, None) && IsServed(s.cgis, id)
    ensures |CgisOf(s, id)| == 1
  {
    hide WorksFor;
    var o :| o in s.cgis && s.cgis[o].client == id;
    assert forall p :: p in CgisOf(s, id) ==> p == o;
    assert CgisOf(s, id) == {o};
  }

  // --------------------------------------------------------- descriptors, children

  /** The four tables are disjoint, the two pipe tables are inverse, exactly their
      descriptors are watched, and nothing was ever closed twice, killed after it
      was reaped, or reaped twice. */
  lemma DescriptorsOwned(s: Loop, w: World)
    requires Reachable(s, w)
    ensures s.listeners !! s.conns.Keys !! s.cgis.Keys !! s.stdinOf.Keys
    ensures forall i, o :: (i in s.stdinOf && s.stdinOf[i] == o) <==> (o in s.cgis && s.cgis[o].stdin == Some(i))
    ensures s.k.interest.Keys == s.listeners + s.conns.Keys + s.cgis.Keys + s.stdinOf.Keys
    ensures s.k.faults == []
  {
    hide Reachable, Families, Stops, Linked, CgisOk, LostOk, Settled;
    GoodTables(s, w);
  }

  /** Every open descriptor has an owner if and only if no stdout pipe ever failed to
      register and `spawn_cgi` never failed between opening its pipes and forking. */
  lemma NoLeakIff(s: Loop, w: World)
    requires Reachable(s, w)
    ensures s.k.open == s.listeners + s.conns.Keys + s.cgis.Keys + s.stdinOf.Keys
            <==> s.lost.unwatched == 0 && s.lost.unpiped == 0
  {
    hide Reachable, Families, Stops, Linked, CgisOk, Settled, Watched, Piped;
    GoodTables(s, w);
    Apart(s.listeners + s.conns.Keys + s.cgis.Keys + s.stdinOf.Keys, s.lost.fds);
  }

  lemma Apart<T>(known: set<T>, lost: set<T>)
    requires known !! lost
    ensures known + lost == known <==> lost == {}
  {
    if lost != {} {
      var x :| x in lost;
      assert x in known + lost && x !in known;
    }
  }

  ghost function PidsOf(cgis: map<Fd, Cgi>): set<Pid> { set o | o in cgis :: cgis[o].pid }

  /** Running processes and pids still to be reaped are all different; together they
      are all unreaped children if and only if no stdout pipe ever failed to register
      and `spawn_cgi` never failed after forking. */
  lemma ChildrenConserved(s: Loop, w: World)
    requires Reachable(s, w)
    ensures forall o, p :: o in s.cgis && p in s.cgis && o != p ==> s.cgis[o].pid != s.cgis[p].pid
    ensures forall i, j :: 0 <= i < j < |s.pendingReap| ==> s.pendingReap[i] != s.pendingReap[j]
    ensures PidsOf(s.cgis) !! Elems(s.pendingReap)
    ensures s.k.children == PidsOf(s.cgis) + Elems(s.pendingReap) <==> s.lost.unwatched == 0 && s.lost.orphaned == 0
  {
    hide Reachable, Families, Tables, Linked, CgisOk, Settled, LostOk;
    GoodTables(s, w);
    ChildrenListed(s.cgis, s.pendingReap, s.lost.pids, s.k.children);
    Apart(PidsOf(s.cgis) + Elems(s.pendingReap), s.lost.pids);
    LostPids(s.lost);
  }

  lemma LostPids(lost: Lost)
    requires LostOk(lost)
    ensures lost.pids == {} <==> lost.unwatched == 0 && lost.orphaned == 0
  {}

  lemma ChildrenListed(cgis: map<Fd, Cgi>, reap: seq<Pid>, lost: set<Pid>, children: set<Pid>)
    requires Families(cgis, reap, lost, children)
    ensures forall o, p :: o in cgis && p in cgis && o != p ==> cgis[o].pid != cgis[p].pid
    ensures forall i, j :: 0 <= i < j < |reap| ==> reap[i] != reap[j]
    ensures PidsOf(cgis) !! Elems(reap) && (PidsOf(cgis) + Elems(reap)) !! lost
    ensures children == PidsOf(cgis) + Elems(reap) + lost
  {
    forall pid: Pid ensures pid in PidsOf(cgis) <==> RunsChild(cgis, pid) { PidIff(cgis, pid); }
    hide PidsOf;
    var known := PidsOf(cgis) + Elems(reap);
    assert forall pid :: pid in known <==> RunsChild(cgis, pid) || pid in reap;
    assert forall pid :: pid in lost ==> pid !in known;
    assert forall pid :: pid in children <==> pid in known || pid in lost;
    assert forall pid :: pid in known + lost <==> pid in known || pid in lost;
    assert children == known + lost;
  }

  lemma PidIff(cgis: map<Fd, Cgi>, pid: Pid)
    ensures pid in PidsOf(cgis) <==> RunsChild(cgis, pid)
  {}

  /** If descriptors can always be registered and a child that cannot be started leaves
      nothing behind, nothing is ever lost. */
  lemma NothingLost(s: Loop, w: World)
    requires Reachable(s, w) && Tidy(w)
    ensures s.lost == Lost({}, {}, 0, 0, 0)
  {
    hide Good, Run, Tidy;
    var listeners: set<Fd>, now: nat, ticks: seq<Tick> :| s == Run(Start(listeners, now), w, ticks);
    StartGood(listeners, now, w);
    RunGood(Start(listeners, now), w, ticks);
  }

  /** The child was started, but the call that registers its stdout fails. */
  predicate Unwatchable(k: Kernel, w: World, body: bytes) {
    Spawn(k, w).1.Forked? && !w.registers(k.calls + if body == [] then 1 else 2)
  }

  /** What starting a CGI loses: the stdout and the pid of a child that cannot be watched,
      the four pipe ends of one that was not forked, the pid of one that was forked in vain,
      and nothing in all other cases. */
  lemma LosesIff(s: Loop, w: World, id: Fd)
    requires s.k.interest.Keys <= s.k.open && id in s.conns && s.conns[id].requests != []
    ensures var answer, unwatched := Spawn(s.k, w).1, Unwatchable(s.k, w, s.conns[id].requests[0].body);
            var lost := SpawnCgi(s, w, id).lost;
            && (lost != s.lost <==> unwatched || answer.PipesLeft? || answer.Orphaned?)
            && lost.fds == s.lost.fds + (if unwatched then {answer.child.stdout} else LeftOpen(answer))
            && lost.pids == s.lost.pids + (if unwatched then {answer.child.pid} else LeftRunning(answer))
  {
    hide SpawnCgi, OpenPipes, Spawn;
    SpawnLoses(s, w, id);
    if Spawn(s.k, w).1.Forked? {
      OpensIff(s.k, w, s.conns[id].requests[0].body);
    }
  }

  lemma SpawnLoses(s: Loop, w: World, id: Fd)
    requires id in s.conns && s.conns[id].requests != []
    ensures var (k, answer) := Spawn(s.k, w);
            SpawnCgi(s, w, id).lost ==
              if !answer.Forked? then Abandoned(s.lost, answer)
              else if OpenPipes(k, w, answer.child, s.conns[id].requests[0].body).2 then s.lost
              else s.lost.(fds := s.lost.fds + {answer.child.stdout}, pids := s.lost.pids + {answer.child.pid},
                           unwatched := s.lost.unwatched + 1)
  {
    hide SpawnRefused, OpenPipes, Spawn, GiveUp, Abandoned;
    var (k, answer) := Spawn(s.k, w);
    if !answer.Forked? {
      LostRefused(s.(k := k, lost := Abandoned(s.lost, answer)), w, id);
    } else {
      var (k2, stdin, ok) := OpenPipes(k, w, answer.child, s.conns[id].requests[0].body);
      if !ok { LostRefused(Forgotten(s, answer.child, stdin, k2), w, id); }
    }
  }

  lemma OpensIff(k: Kernel, w: World, body: bytes)
    requires k.interest.Keys <= k.open && Spawn(k, w).1.Forked?
    ensures var (k', answer) := Spawn(k, w);
            OpenPipes(k', w, answer.child, body).2 <==> w.registers(k.calls + if body == [] then 1 else 2)
  {
    hide OpenStdin, Spawn;
    SpawnShape(k, w);
    var (k', answer) := Spawn(k, w);
    OpenStdinShape(k', w, answer.child, body);
    OpenStdinCalls(k', w, answer.child, body);
  }

  lemma OpenStdinCalls(k: Kernel, w: World, child: Child, body: bytes)
    ensures OpenStdin(k, w, child, body).0.calls == k.calls + if body == [] then 0 else 1
  {}

  /** A child that cannot be watched is killed. */
  lemma UnwatchedKilled(s: Loop, w: World, id: Fd)
    requires s.k.interest.Keys <= s.k.open && id in s.conns && s.conns[id].requests != []
    requires Unwatchable(s.k, w, s.conns[id].requests[0].body)
    ensures Spawn(s.k, w).1.child.pid in SpawnCgi(s, w, id).k.killed
  {
    hide Spawn, OpenPipes, GiveUp, PipesOpened, SpawnRefused;
    var body := s.conns[id].requests[0].body;
    OpensIff(s.k, w, body);
    OpenPipesShape(s.k, w, body);
    var (k, answer) := Spawn(s.k, w);
    var (k2, stdin, ok) := OpenPipes(k, w, answer.child, body);
    GiveUpShape(s.k, k2, answer.child, stdin, body);
    RefusedKilled(Forgotten(s, answer.child, stdin, k2), w, id);
  }

  lemma RefusedKilled(s: Loop, w: World, id: Fd)
    requires id in s.conns && s.conns[id].requests != []
    ensures SpawnRefused(s, w, id).k.killed == s.k.killed
  {}

  /** A connection of its own has joined the others: nothing has been read from it and nothing is to be written. */
  ghost predicate Joined(s: Loop, s': Loop, id: Fd) {
    && s'.conns.Keys == s.conns.Keys + {id} && (forall x :: x in s.conns ==> s'.conns[x] == s.conns[x])
    && s'.conns[id].readBuf == [] && s'.conns[id].requests == [] && s'.conns[id].PendingWrite() == []
    && s'.conns[id].log.serial == s.serials && id in s'.k.interest && s'.k.interest[id] == Readable
  }

  predicate NobodyJoined(s: Loop, s': Loop) { s'.conns == s.conns && s'.k.open == s.k.open }

  /** Below the cap, a socket that is accepted and can be registered becomes a connection;
      otherwise nobody joins and nothing stays open. */
  lemma AcceptIff(s: Loop, w: World)
    requires Good(s, w)
    ensures var s', accepted := ListenerEvent(s, w), Accept(s.k, w).1;
            if |s.conns| < w.maxConnections && accepted.Some? && w.registers(s.k.calls + 1)
            then accepted.value !in s.conns && Joined(s, s', accepted.value)
            else NobodyJoined(s, s')
  {
    hide Good, Sound, Inv, Tables, Accept, Admitted, Joined;
    SoundOf(s, w);
    InvOf(s, w);
    InvBasics(s, w, None);
    ConnsOpen(s, w);
    AcceptCalls(s.k, w);
    var (k, accepted) := Accept(s.k, w);
    if accepted.Some? { AdmittedIff(s, w, k, accepted.value); }
  }

  lemma AdmittedIff(s: Loop, w: World, k: Kernel, id: Fd)
    requires id !in s.k.open && s.conns.Keys <= s.k.open && k.interest.Keys <= s.k.open && k.open == s.k.open + {id}
    ensures var s' := Admitted(s, w, k, id); if w.registers(k.calls) then Joined(s, s', id) else NobodyJoined(s, s')
  {
    CloseBack(s.k.open, k, id, w);
    hide Close;
  }

  lemma AcceptCalls(k: Kernel, w: World)
    ensures var (k', accepted) := Accept(k, w);
            && k'.calls == k.calls + 1 && k'.interest == k.interest
            && (accepted.None? ==> k'.open == k.open)
            && (accepted.Some? ==> accepted.value !in k.open && k'.open == k.open + {accepted.value})
  {}

  lemma CloseBack(open: set<Fd>, k: Kernel, id: Fd, w: World)
    requires id !in open && k.open == open + {id}
    ensures Close(Register(k, w, id, Readable).0, id).open == open
  {}

  lemma LostRefused(s: Loop, w: World, id: Fd)
    requires id in s.conns && s.conns[id].requests != []
    ensures SpawnRefused(s, w, id).lost == s.lost
  {}

  // ------------------------------------------------------------- wakeups, queues

  /** A connection waits for writability exactly while it has something to write, else for input. */
  lemma NoLostWakeup(s: Loop, w: World, id: Fd)
    requires Reachable(s, w) && Reliable(w) && id in s.conns
    ensures id in s.k.interest
    ensures s.k.interest[id] == if s.conns[id].PendingWrite() != [] then Writable else Readable
  {
    hide Reachable, Tables, Families, Stops, Linked, CgisOk, LostOk, Reliable, Moving;
    GoodTables(s, w);
  }

  /** Item `i` is the last answer on the stream: the 500 for the request dispatched last, which
      asked for a CGI that was refused. */
  ghost predicate RefusedAt(c: Conn, w: World, i: int) {
    && 0 <= i < |c.log.items| && c.log.dispatched != []
    && (match c.log.items[i]
        case Answer(request, reply, origin) =>
          && origin == Refused && request == c.log.dispatched[|c.log.dispatched| - 1]
          && AsksCgi(w, request) && IsPage(w, ServerErrorPage, reply)
        case Notice(_, _) => false)
    && forall j :: i < j < |c.log.items| ==> c.log.items[j].Notice?
  }

  ghost predicate RefusedLast(c: Conn, w: World) { exists i :: RefusedAt(c, w, i) }

  lemma {:induction false} LastRefusal(items: seq<Item>) returns (i: nat)
    requires EndsRefused(items)
    ensures i < |items| && items[i].Answer? && items[i].origin == Refused
    ensures forall j :: i < j < |items| ==> items[j].Notice?
    ensures AnsweredOf(items) != [] && AnsweredOf(items)[|AnsweredOf(items)| - 1] == items[i].request
    decreases |items|
  {
    var last := |items| - 1;
    if items[last].Answer? {
      i := last;
    } else {
      i := LastRefusal(items[..last]);
    }
  }

  lemma RefusalIsLast(c: Conn, w: World)
    requires ConnOk(c, w) && !c.awaitingCgi && EndsRefused(c.log.items)
    ensures RefusedLast(c, w)
  {
    hide Conserved, Faithful, AnsweredOf, AsksCgi, IsPage, IsResponse, OutputOk, EndsRefused;
    var i := LastRefusal(c.log.items);
    assert ItemOk(c.log.items[i], w, c.log.parseFailed);
    assert RefusedAt(c, w, i);
  }

  /** Requests wait only behind a running CGI, or behind a request whose CGI could not be started. */
  lemma QueuesMove(s: Loop, w: World, id: Fd)
    requires Reachable(s, w) && id in s.conns
    ensures s.conns[id].requests != [] ==> s.conns[id].awaitingCgi || RefusedLast(s.conns[id], w)
  {
    hide Reachable, Tables, Families, Stops, Linked, CgisOk, LostOk, Reliable, Calm, Alert, ConnOk, RefusedLast, EndsRefused;
    GoodTables(s, w);
    GoodConn(s, w, id);
    assert Moving(s.conns[id]);
    if s.conns[id].requests != [] && !s.conns[id].awaitingCgi { RefusalIsLast(s.conns[id], w); }
  }

  ghost predicate AlwaysResponds(w: World) { forall request: HttpRequest, n: nat :: w.handle(request, n).Respond? }

  /** Where no request is for a CGI, no request is ever left in a queue. */
  lemma QueuesEmpty(s: Loop, w: World, id: Fd)
    requires Reachable(s, w) && id in s.conns && AlwaysResponds(w)
    ensures s.conns[id].requests == [] && !s.conns[id].awaitingCgi
  {
    hide Reachable, RefusedLast;
    QueuesMove(s, w, id);
    if s.conns[id].awaitingCgi {
      OutstandingAsks(s, w, id);
      NobodyAsks(w, s.conns[id].log.dispatched[|s.conns[id].log.dispatched| - 1]);
      assert false;
    }
    if RefusedLast(s.conns[id], w) { RefusalAsked(s.conns[id], w); }
  }

  lemma NobodyAsks(w: World, request: HttpRequest)
    requires AlwaysResponds(w)
    ensures !AsksCgi(w, request)
  {}

  lemma RefusalAsked(c: Conn, w: World)
    requires RefusedLast(c, w)
    ensures !AlwaysResponds(w)
  {
    hide IsPage;
    var i :| RefusedAt(c, w, i);
    if AlwaysResponds(w) {
      NobodyAsks(w, c.log.items[i].request);
      assert false;
    }
  }

  /** Whether the kernel `k` refuses to run a CGI for a request with this body. */
  predicate Refuses(k: Kernel, w: World, body: bytes) {
    var (k', answer) := Spawn(k, w);
    !answer.Forked? || !OpenPipes(k', w, answer.child, body).2
  }

  /** Request `i`, not the last, is the first for a CGI, and that CGI is refused. */
  predicate StallsAt(requests: seq<HttpRequest>, k: Kernel, w: World, i: int) {
    && 0 <= i < |requests| - 1
    && (forall j :: 0 <= j < i ==> w.handle(requests[j], k.calls + j).Respond?)
    && w.handle(requests[i], k.calls + i).StartCgi?
    && Refuses(k.(calls := k.calls + i + 1), w, requests[i].body)
  }

  lemma SpawnEnds(s: Loop, w: World, id: Fd)
    requires id in s.conns && s.conns[id].requests != [] && !s.conns[id].awaitingCgi
    ensures var s' := SpawnCgi(s, w, id);
            && id in s'.conns && s'.conns[id].requests == s.conns[id].requests[1..]
            && (s'.conns[id].awaitingCgi <==> !Refuses(s.k, w, s.conns[id].requests[0].body))
  {
    hide OpenPipes, Spawn, GiveUp, SpawnRefused, Started, Abandoned;
    var (k, answer) := Spawn(s.k, w);
    if !answer.Forked? {
      RefusedEnds(s.(k := k, lost := Abandoned(s.lost, answer)), w, id);
    } else {
      var (k2, stdin, ok) := OpenPipes(k, w, answer.child, s.conns[id].requests[0].body);
      if ok { StartedEnds(s, id, answer.child, stdin, k2); } else { RefusedEnds(Forgotten(s, answer.child, stdin, k2), w, id); }
    }
  }

  lemma RefusedEnds(s: Loop, w: World, id: Fd)
    requires id in s.conns && s.conns[id].requests != []
    ensures var s' := SpawnRefused(s, w, id);
            && OnlyGrows(s, s', id) && s'.conns[id].requests == s.conns[id].requests[1..]
            && s'.conns[id].awaitingCgi == s.conns[id].awaitingCgi
  {}

  lemma StartedEnds(s: Loop, id: Fd, child: Child, stdin: Option<Fd>, k: Kernel)
    requires id in s.conns && s.conns[id].requests != []
    ensures var s' := Started(s, id, child, stdin, k);
            && OnlyGrows(s, s', id) && s'.conns[id].requests == s.conns[id].requests[1..] && s'.conns[id].awaitingCgi
  {}

  /** Draining the queue stops with requests left and no CGI to wait for exactly
      when the first CGI request, not being the last, is refused. */
  lemma {:induction false} StallIff(s: Loop, w: World, id: Fd)
    requires id in s.conns && !s.conns[id].awaitingCgi
    ensures var s' := Dispatch(s, w, id);
            && id in s'.conns
            && (s'.conns[id].requests != [] && !s'.conns[id].awaitingCgi
                <==> exists i :: StallsAt(s.conns[id].requests, s.k, w, i))
    decreases |s.conns[id].requests|
  {
    hide SpawnCgi, Refuses;
    var c := s.conns[id];
    var rs := c.requests;
    if rs != [] {
      var k1 := Called(s.k);
      assert k1 == s.k.(calls := s.k.calls + 0 + 1);
      match w.handle(rs[0], s.k.calls)
      case Respond(reply) =>
        var s1 := SetConn(s.(k := k1), id, Answered(c, reply, Handled));
        StallIff(s1, w, id);
        forall i ensures StallsAt(rs, s.k, w, i) <==> StallsAt(rs[1..], k1, w, i - 1) {
          StallsShift(rs, s.k, w, i);
        }
        if exists i :: StallsAt(rs[1..], k1, w, i) {
          var i :| StallsAt(rs[1..], k1, w, i);
          assert StallsAt(rs, s.k, w, i + 1);
        }
      case StartCgi =>
        SpawnEnds(s.(k := k1), w, id);
        assert StallsAt(rs, s.k, w, 0) <==> |rs| > 1 && Refuses(k1, w, rs[0].body);
        assert forall i :: StallsAt(rs, s.k, w, i) && 0 < i ==> w.handle(rs[0], s.k.calls + 0).Respond?;
    }
  }

  lemma StallsShift(rs: seq<HttpRequest>, k: Kernel, w: World, i: int)
    requires rs != [] && w.handle(rs[0], k.calls).Respond?
    ensures StallsAt(rs, k, w, i) <==> StallsAt(rs[1..], Called(k), w, i - 1)
  {
    hide Refuses;
    if StallsAt(rs, k, w, i) {
      assert i != 0;
      assert k.(calls := k.calls + i + 1) == Called(k).(calls := Called(k).calls + (i - 1) + 1);
      forall j | 0 <= j < i - 1 ensures w.handle(rs[1..][j], Called(k).calls + j).Respond? {
        assert w.handle(rs[j + 1], k.calls + (j + 1)).Respond?;
      }
    }
    if StallsAt(rs[1..], Called(k), w, i - 1) {
      assert k.(calls := k.calls + i + 1) == Called(k).(calls := Called(k).calls + (i - 1) + 1);
      forall j | 0 <= j < i ensures w.handle(rs[j], k.calls + j).Respond? {
        assert j > 0 ==> w.handle(rs[1..][j - 1], Called(k).calls + (j - 1)).Respond?;
      }
    }
  }

  /** Request `i` is the first for a CGI, and that CGI is started. */
  predicate WaitsAt(requests: seq<HttpRequest>, k: Kernel, w: World, i: int) {
    && 0 <= i < |requests|
    && (forall j :: 0 <= j < i ==> w.handle(requests[j], k.calls + j).Respond?)
    && w.handle(requests[i], k.calls + i).StartCgi?
    && !Refuses(k.(calls := k.calls + i + 1), w, requests[i].body)
  }

  /** Whether draining these requests ends with waiting for a CGI. */
  predicate Waits(requests: seq<HttpRequest>, k: Kernel, w: World) {
    exists i :: 0 <= i < |requests| && WaitsAt(requests, k, w, i)
  }

  lemma WaitsShift(rs: seq<HttpRequest>, k: Kernel, w: World)
    requires rs != [] && w.handle(rs[0], k.calls).Respond?
    ensures Waits(rs, k, w) <==> Waits(rs[1..], Called(k), w)
  {
    hide Refuses;
    if Waits(rs, k, w) {
      var i :| 0 <= i < |rs| && WaitsAt(rs, k, w, i);
      assert i != 0;
      assert k.(calls := k.calls + i + 1) == Called(k).(calls := Called(k).calls + (i - 1) + 1);
      forall j | 0 <= j < i - 1 ensures w.handle(rs[1..][j], Called(k).calls + j).Respond? {
        assert w.handle(rs[j + 1], k.calls + (j + 1)).Respond?;
      }
      assert WaitsAt(rs[1..], Called(k), w, i - 1);
    }
    if Waits(rs[1..], Called(k), w) {
      var i :| 0 <= i < |rs| - 1 && WaitsAt(rs[1..], Called(k), w, i);
      assert k.(calls := k.calls + (i + 1) + 1) == Called(k).(calls := Called(k).calls + i + 1);
      forall j | 0 <= j < i + 1 ensures w.handle(rs[j], k.calls + j).Respond? {
        assert j > 0 ==> w.handle(rs[1..][j - 1], Called(k).calls + (j - 1)).Respond?;
      }
      assert WaitsAt(rs, k, w, i + 1);
    }
  }

  lemma WaitsFirst(rs: seq<HttpRequest>, k: Kernel, w: World)
    requires rs != [] && w.handle(rs[0], k.calls).StartCgi?
    ensures Waits(rs, k, w) <==> !Refuses(Called(k), w, rs[0].body)
  {
    hide Refuses;
    assert k.(calls := k.calls + 0 + 1) == Called(k);
    forall i | WaitsAt(rs, k, w, i) ensures i == 0 {
      if i > 0 {
        FirstResponds(rs, k, w, i);
        assert false;
      }
    }
    if !Refuses(Called(k), w, rs[0].body) { assert WaitsAt(rs, k, w, 0); }
  }

  lemma FirstResponds(rs: seq<HttpRequest>, k: Kernel, w: World, i: int)
    requires i > 0 && WaitsAt(rs, k, w, i)
    ensures w.handle(rs[0], k.calls).Respond?
  {
    assert w.handle(rs[0], k.calls + 0).Respond?;
  }

  /** Draining the queue ends with waiting for a CGI exactly when the first CGI request is not refused. */
  lemma {:induction false} WaitIff(s: Loop, w: World, id: Fd)
    requires id in s.conns && !s.conns[id].awaitingCgi
    ensures var s' := Dispatch(s, w, id);
            id in s'.conns && (s'.conns[id].awaitingCgi <==> Waits(s.conns[id].requests, s.k, w))
    decreases |s.conns[id].requests|
  {
    hide SpawnCgi, Refuses, Waits;
    var c := s.conns[id];
    var rs := c.requests;
    if rs == [] {
      NoneWait(s.k, w);
    } else {
      var k1 := Called(s.k);
      match w.handle(rs[0], s.k.calls)
      case Respond(reply) =>
        WaitsShift(rs, s.k, w);
        WaitIff(SetConn(s.(k := k1), id, Answered(c, reply, Handled)), w, id);
      case StartCgi =>
        WaitsFirst(rs, s.k, w);
        SpawnEnds(s.(k := k1), w, id);
    }
  }

  lemma NoneWait(k: Kernel, w: World)
    ensures !Waits([], k, w)
  {}

  // ------------------------------------------------------------------- CGI results

  /** The stream goes on, and nothing is read. */
  predicate GrowsBy(c: Conn, c': Conn) {
    && c.log.items <= c'.log.items
    && c'.readBuf == c.readBuf && c'.lastActivity == c.lastActivity && c'.closeAfterWrite == c.closeAfterWrite
    && c'.log.input == c.log.input && c'.log.sent == c.log.sent
  }

  /** Only connection `id` changes, and its history only grows. */
  ghost predicate OnlyGrows(s: Loop, s': Loop, id: Fd) {
    && s'.conns.Keys == s.conns.Keys
    && (forall x :: x in s.conns && x != id ==> s'.conns[x] == s.conns[x])
    && (id in s.conns ==> GrowsBy(s.conns[id], s'.conns[id]))
  }

  lemma SpawnGrows(s: Loop, w: World, id: Fd)
    requires id in s.conns && s.conns[id].requests != []
    ensures OnlyGrows(s, SpawnCgi(s, w, id), id)
  {
    hide OpenPipes, Spawn, GiveUp, SpawnRefused, Started, Abandoned;
    var (k, answer) := Spawn(s.k, w);
    if !answer.Forked? {
      RefusedEnds(s.(k := k, lost := Abandoned(s.lost, answer)), w, id);
    } else {
      var (k2, stdin, ok) := OpenPipes(k, w, answer.child, s.conns[id].requests[0].body);
      if ok { StartedEnds(s, id, answer.child, stdin, k2); } else { RefusedEnds(Forgotten(s, answer.child, stdin, k2), w, id); }
    }
  }

  lemma {:induction false} DispatchGrows(s: Loop, w: World, id: Fd)
    ensures OnlyGrows(s, Dispatch(s, w, id), id)
    decreases if id in s.conns then |s.conns[id].requests| else 0
  {
    hide SpawnCgi;
    if !Idle(s, id) {
      var c, s1 := s.conns[id], s.(k := Called(s.k));
      match w.handle(c.requests[0], s.k.calls)
      case Respond(reply) => DispatchGrows(SetConn(s1, id, Answered(c, reply, Handled)), w, id);
      case StartCgi => SpawnGrows(s1, w, id);
    }
  }

  lemma ArmLocal(s: Loop, w: World, id: Fd)
    requires Inv(s, w, None)
    ensures var s' := Arm(s, w, id);
            && (s'.conns == s.conns || s'.conns == s.conns - {id})
            && (Reliable(w) ==> s'.conns == s.conns)
  {
    if id in s.conns && !s.conns[id].WriteComplete() {
      InvBasics(s, w, None);
      Interested(s, id);
      hide Inv, RemoveConnection, Tables;
      ArmShape(s, w, id);
      var (s1, ok) := ArmWrite(s, w, id);
      assert Reliable(w) ==> w.modifies_(s.k.calls);
      QuietKeeps(s, w, None, s1.k);
      if !ok { RemoveKeeps(s1, w, id); }
    }
  }

  /** The item answers the process's request with what the process, given up for this cause, amounts to. */
  ghost predicate AnswersFor(w: World, item: Item, cgi: Cgi, cause: Cause, at: nat) {
    && item.Answer? && item.request == cgi.request && item.origin.Ran?
    && item.origin.cgi == cgi && item.origin.cause == cause && item.origin.at == at
    && IsWait(w, item.origin.answer) && IsOutcome(w, cgi, cause, item.origin.answer, at, item.reply)
  }

  /** The answer to the process's request is the next item on the stream. */
  ghost predicate AnswerQueued(c: Conn, c': Conn, w: World, cgi: Cgi, cause: Cause, at: nat) {
    exists item: Item :: AnswersFor(w, item, cgi, cause, at) && c.log.items + [item] <= c'.log.items
  }

  lemma JustifiedAnswers(w: World, cgi: Cgi, reply: bytes, cause: Cause, answer: WaitAnswer, at: nat)
    requires Justified(w, cgi.request, reply, Ran(cgi, cause, answer, at))
    ensures AnswersFor(w, Answer(cgi.request, reply, Ran(cgi, cause, answer, at)), cgi, cause, at)
  {
    hide IsOutcome, IsWait, AsksCgi, OutputOk;
  }

  /** The outcome of a process goes to the connection instance that asked for it, as the
      answer to its request and right behind everything queued before; no other
      connection notices. */
  lemma OutcomeReachesAsker(s: Loop, w: World, o: Fd, cause: Cause)
    requires Good(s, w) && o in s.cgis && MayFinish(s, w, o, cause)
    ensures var cgi, s' := s.cgis[o], FinishCgi(s, w, o, cause);
            && cgi.client in s.conns && s.conns[cgi.client].log.serial == cgi.serial
            && (forall x :: x in s.conns && x != cgi.client ==> x in s'.conns && s'.conns[x] == s.conns[x])
            && (Reliable(w) ==> cgi.client in s'.conns)
            && (cgi.client in s'.conns ==>
                  && GrowsBy(s.conns[cgi.client], s'.conns[cgi.client])
                  && AnswerQueued(s.conns[cgi.client], s'.conns[cgi.client], w, cgi, cause, s.clock))
  {
    hide Good, Sound, Evolves, Released, Release, Deliver, Inv, Settled, OutcomeOf, Arm, Dispatch, Reliable, Justified, AsksCgi,
      OutputOk, IsWait, CauseOk, AnswersFor;
    var cgi, id := s.cgis[o], s.cgis[o].client;
    SoundOf(s, w);
    ReleaseGood(s, w, o, cause);
    var (s1, answer) := Release(s, w, o, cause);
    ReleasedClient(s1, w, cgi);
    var reply := OutcomeOf(w, cgi, answer, cause, s1.k.calls);
    OutcomeJustified(w, cgi, answer, cause, s.clock, s1.k.calls);
    JustifiedAnswers(w, cgi, reply, cause, answer, s.clock);
    DeliverGood(s1, w, cgi, reply, cause, answer);
    DeliverShape(s1, w, cgi, reply, cause, answer);
    var s2 := Deliver(s1, w, cgi, reply, cause, answer);
    DrainedGrows(s2, w, id);
    assert FinishCgi(s, w, o, cause) == ProcessQueued(s2, w, id);
    hide ProcessQueued, FinishCgi;
  }

  lemma DrainedGrows(s: Loop, w: World, id: Fd)
    requires Inv(s, w, None) && Settled(s, w, Some(id))
    ensures var s' := ProcessQueued(s, w, id);
            && (forall x :: x in s.conns && x != id ==> x in s'.conns && s'.conns[x] == s.conns[x])
            && s'.conns.Keys <= s.conns.Keys
            && (Reliable(w) ==> s'.conns.Keys == s.conns.Keys)
            && (id in s.conns && id in s'.conns ==> GrowsBy(s.conns[id], s'.conns[id]))
  {
    hide Inv, Settled, Arm, Dispatch, Reliable, Evolves;
    DispatchGood(s, w, id);
    DispatchGrows(s, w, id);
    ArmLocal(Dispatch(s, w, id), w, id);
  }

  lemma ReleasedClient(s: Loop, w: World, cgi: Cgi)
    requires Released(s, w, cgi)
    ensures cgi.client in s.conns && s.conns[cgi.client].log.serial == cgi.serial
  {}

  lemma DeliverShape(s: Loop, w: World, cgi: Cgi, reply: bytes, cause: Cause, answer: WaitAnswer)
    requires cgi.client in s.conns
    ensures var s' := Deliver(s, w, cgi, reply, cause, answer);
            && s'.conns.Keys == s.conns.Keys
            && (forall x :: x in s.conns && x != cgi.client ==> s'.conns[x] == s.conns[x])
            && s'.conns[cgi.client].log.items == s.conns[cgi.client].log.items + [Answer(cgi.request, reply, Ran(cgi, cause, answer, s.clock))]
            && GrowsBy(s.conns[cgi.client], s'.conns[cgi.client])
            && s'.conns[cgi.client].requests == s.conns[cgi.client].requests && !s'.conns[cgi.client].awaitingCgi
  {}

  lemma SoundOf(s: Loop, w: World)
    requires Good(s, w)
    ensures Sound(s, w)
  {}

  /** An error, or a hangup with nothing to read or write, ends the connection and the process
      that works for it, and nothing else. */
  lemma HangupsClose(s: Loop, w: World, e: Event)
    requires Reachable(s, w) && e.fd in s.conns && (e.error || (e.hup && !e.readable && !e.writable))
    ensures var s' := Handle(s, w, e);
            && s'.conns == s.conns - {e.fd}
            && s'.cgis == s.cgis - CgisOf(s, e.fd)
            && e.fd !in s'.k.open
  {
    hide Reachable, Good, Sound, Inv, RemoveConnection, KeptInterest;
    DescriptorsOwned(s, w);
    ReachableGood(s, w);
    SoundOf(s, w);
    InvOf(s, w);
    RemoveKeeps(s, w, e.fd);
    RemoveCloses(s, w, e.fd);
  }

  lemma InvOf(s: Loop, w: World)
    requires Sound(s, w)
    ensures Inv(s, w, None)
  {}
}
