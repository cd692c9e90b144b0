/** From the bytes a client sends to the answers it gets, and what is left when the
    loop is dropped. */
module LoopEndings {
  import opened Bytes
  import opened Parser
  import opened Printer
  import opened Pipeline
  import opened Kernel
  import opened Loop
  import opened LoopInvariants
  import opened LoopHandlers
  import opened LoopEvents
  import opened LoopRuns
  import opened LoopResults

  // --------------------------------------------------------------------- deadlines

  /** No CGI process is ever older than its timeout plus one second, whatever
      timeout `tick` is called with. */
  lemma CgiDeadline(listeners: set<Fd>, now: nat, w: World, ticks: seq<Tick>, o: Fd)
    requires AllOnTime(Start(listeners, now), w, ticks)
    requires o in Run(Start(listeners, now), w, ticks).cgis
    ensures var s := Run(Start(listeners, now), w, ticks); s.clock - s.cgis[o].startedAt <= CGI_TIMEOUT + WAIT_CAP
  {
    hide Good, Run, AllOnTime;
    StartGood(listeners, now, w);
    RunGood(Start(listeners, now), w, ticks);
  }

  /** Waits are as long as asked for, but never longer than a second while a connection, a process
      or a child to be reaped is there. */
  lemma WaitAtMostASecond(s: Loop, timeout: int)
    ensures var limit := WaitLimit(s, timeout);
            if s.conns.Keys == {} && s.cgis.Keys == {} && s.pendingReap == [] then limit == timeout
            else 0 <= limit <= 1_000 && (limit == 1_000 || limit == timeout)
  {
    if s.conns.Keys == {} { assert (forall id :: id !in s.conns) ==> s.conns == map[]; }
    if s.cgis.Keys == {} { assert (forall o :: o !in s.cgis) ==> s.cgis == map[]; }
  }

  // ------------------------------------------------------------------ reaping children

  ghost predicate AllExit(w: World) { forall n: nat :: w.exits(n).Some? }

  lemma WaitExits(k: Kernel, w: World, pid: Pid)
    requires AllExit(w)
    ensures !Wait(k, w, pid).1.Running?
  {}

  lemma ReleaseReaps(s: Loop, w: World, o: Fd, cause: Cause)
    requires AllExit(w) && o in s.cgis
    ensures Release(s, w, o, cause).0.pendingReap == s.pendingReap
  {
    hide Wait, Close, Deregister, Kill, AllExit;
    var cgi := s.cgis[o];
    var k1 := Close(Deregister(s.k, o), o);
    var k2 := if cgi.stdin.Some? then Close(Deregister(k1, cgi.stdin.value), cgi.stdin.value) else k1;
    WaitExits(if cause.AtEnd? then k2 else Kill(k2, cgi.pid), w, cgi.pid);
  }

  lemma {:induction false} DropReaps(s: Loop, w: World, orphans: seq<Fd>)
    requires AllExit(w)
    ensures DropOrphans(s, w, orphans).pendingReap == s.pendingReap
    decreases |orphans|
  {
    hide Release, AllExit;
    if orphans != [] {
      if orphans[0] in s.cgis { ReleaseReaps(s, w, orphans[0], ClientGone); }
      DropReaps(if orphans[0] in s.cgis then Release(s, w, orphans[0], ClientGone).0 else s, w, orphans[1..]);
    }
  }

  lemma RemoveReaps(s: Loop, w: World, id: Fd)
    requires AllExit(w)
    ensures RemoveConnection(s, w, id).pendingReap == s.pendingReap
  {
    hide DropOrphans, Listing, CgisOf, AllExit;
    var s1 := Unhooked(s, id);
    DropReaps(s1, w, Listing(CgisOf(s1, id), w, s1.k.calls));
  }

  lemma {:induction false} ExpireReaps(s: Loop, w: World, ids: seq<Fd>)
    requires AllExit(w)
    ensures ExpireAll(s, w, ids).pendingReap == s.pendingReap
    decreases |ids|
  {
    hide RemoveConnection, AllExit, QueueWriteAndClose;
    if ids != [] {
      RemoveReaps(s, w, ids[0]);
      ExpireReaps(ExpireConnection(s, w, ids[0]), w, ids[1..]);
    }
  }

  lemma {:induction false} ReapEmpties(k: Kernel, w: World, pids: seq<Pid>)
    requires AllExit(w)
    ensures Reap(k, w, pids).1 == []
    decreases |pids|
  {
    hide Wait, AllExit;
    if pids != [] {
      WaitExits(k, w, pids[0]);
      ReapEmpties(Wait(k, w, pids[0]).0, w, pids[1..]);
    }
  }

  /** Once the children exit, the sweeps of the next tick leave none to be reaped. */
  lemma AllReaped(s: Loop, w: World)
    requires AllExit(w)
    ensures Sweep(s, w).pendingReap == []
  {
    hide SweepCgiTimeouts, Reap, AllExit, ExpireAll, IdleConnections, Listing;
    var s1 := SweepCgiTimeouts(s, w);
    ReapEmpties(s1.k, w, s1.pendingReap);
    var s2 := SweepPendingReaps(s1, w);
    ExpireReaps(s2, w, Listing(IdleConnections(s2), w, s2.k.calls));
  }

  // -------------------------------------------------------------------- end to end

  lemma NotToBlame(input: bytes, rest: bytes, maxBody: nat)
    requires Smooth(input + rest, maxBody) && Drain(input + rest, maxBody).failure.None?
    ensures !Malformed(input, maxBody)
  {
    hide Drain, Smooth;
    forall n | 0 <= n <= |input| ensures Drain(input[..n], maxBody).failure.None? {
      assert input[..n] + (input[n..] + rest) == input + rest;
      DrainPrefix(input[..n], input[n..] + rest, maxBody);
    }
  }

  /** A connection whose client has so far sent the beginning of a list of well-formed
      requests has parsed the beginning of that list, all of it once all is sent. */
  lemma RequestsArrive(c: Conn, w: World, ms: seq<Message>, rest: bytes)
    requires Faithful(c, w) && c.log.input + rest == PrintAll(ms)
    requires forall i :: 0 <= i < |ms| ==> Fits(ms[i], w.maxBody)
    requires w.maxBody <= USIZE_MAX && |PrintAll(ms)| <= USIZE_MAX
    ensures !c.log.parseFailed && c.log.parsed <= Meanings(ms)
    ensures rest == [] ==> c.log.parsed == Meanings(ms) && c.readBuf == []
  {
    hide Drain, Fits, PrintAll, Meanings, Smooth, Malformed;
    DrainOfPrints(ms, w.maxBody);
    NotToBlame(c.log.input, rest, w.maxBody);
    DrainAppend(c.log.input, rest, w.maxBody);
    if rest == [] { assert c.log.input + rest == c.log.input; }
  }

  /** The stream consists of the answers to these requests, in order, each of them what
      `handle_request` or the CGI it asked for made of its request, and of 408s. */
  ghost predicate Answers(stream: bytes, requests: seq<HttpRequest>, w: World) {
    exists items: seq<Item> ::
      BytesOf(items) == stream && AnsweredOf(items) == requests && ItemsOk(items, w, false)
  }

  /** Whatever the kernel does, however the bytes are cut into reads and whatever else
      goes on: the bytes sent and still to be sent are the answers, in order, to a beginning
      of the requests the client sends; to all of them, once everything is sent and no CGI
      is running or was refused. */
  lemma EndToEnd(s: Loop, w: World, id: Fd, ms: seq<Message>, rest: bytes)
    requires Reachable(s, w) && id in s.conns && s.conns[id].log.input + rest == PrintAll(ms)
    requires forall i :: 0 <= i < |ms| ==> Fits(ms[i], w.maxBody)
    requires w.maxBody <= USIZE_MAX && |PrintAll(ms)| <= USIZE_MAX
    ensures var c := s.conns[id];
            exists answered :: answered <= Meanings(ms) && Answers(c.log.sent + c.PendingWrite(), answered, w)
              && (rest == [] && !c.awaitingCgi ==> answered == Meanings(ms) || RefusedLast(c, w))
  {
    hide Reachable, Fits, PrintAll, Meanings, AnsweredOf, Faithful, BytesOf, ItemsOk, RefusedLast;
    GoodConn(s, w, id);
    QueuesMove(s, w, id);
    var c := s.conns[id];
    RequestsArrive(c, w, ms, rest);
    var answered := AnsweredOf(c.log.items);
    assert BytesOf(c.log.items) == c.log.sent + c.PendingWrite();
    assert Answers(c.log.sent + c.PendingWrite(), answered, w);
  }

  // ------------------------------------------------------------------ dropping it

  lemma {:induction false} RemoveAllGood(s: Loop, w: World, ids: seq<Fd>)
    requires Sound(s, w) && s.conns.Keys <= Elems(ids)
    ensures var s' := RemoveAll(s, w, ids);
            Sound(s', w) && s'.conns == map[] && s'.lost == s.lost && s'.listeners == s.listeners
    decreases |ids|
  {
    hide Sound, RemoveConnection;
    if ids != [] {
      var s1 := RemoveConnection(s, w, ids[0]);
      RemovedLost(s, w, ids[0]);
      RemovedKeys(s, w, ids[0]);
      assert Elems(ids) == {ids[0]} + Elems(ids[1..]);
      RemoveAllGood(s1, w, ids[1..]);
    }
  }

  lemma RemovedKeys(s: Loop, w: World, id: Fd)
    requires Sound(s, w)
    ensures Sound(RemoveConnection(s, w, id), w) && RemoveConnection(s, w, id).conns.Keys == s.conns.Keys - {id}
  {
    hide Sound, Evolves, RemoveConnection;
    RemoveSound(s, w, id);
  }

  lemma RemovedLost(s: Loop, w: World, id: Fd)
    requires Sound(s, w)
    ensures RemoveConnection(s, w, id).lost == s.lost && RemoveConnection(s, w, id).listeners == s.listeners
  {
    hide Inv, RemoveConnection, Settled, KeptInterest;
    RemoveKeeps(s, w, id);
  }

  lemma {:induction false} CloseAllShape(k: Kernel, fds: seq<Fd>)
    requires Elems(fds) <= k.open && (forall i, j :: 0 <= i < j < |fds| ==> fds[i] != fds[j])
    ensures var k' := CloseAll(k, fds);
            && k'.open == k.open - Elems(fds) && k'.faults == k.faults && k'.children == k.children
            && k'.interest.Keys == k.interest.Keys - Elems(fds)
    decreases |fds|
  {
    if fds != [] {
      var k1 := Close(Deregister(k, fds[0]), fds[0]);
      assert fds[0] in Elems(fds);
      assert Elems(fds) == {fds[0]} + Elems(fds[1..]);
      assert k1.open == k.open - {fds[0]} && k1.interest.Keys == k.interest.Keys - {fds[0]};
      hide Close, Deregister;
      CloseAllShape(k1, fds[1..]);
    }
  }

  lemma NoProcesses(conns: map<Fd, Conn>, cgis: map<Fd, Cgi>, stdinOf: map<Fd, Fd>)
    requires Linked(conns, cgis, None) && Piped(cgis, stdinOf) && conns == map[]
    ensures cgis == map[] && stdinOf == map[]
  {
    hide IsServed;
    if exists o :: o in cgis { assert false; }
    forall i ensures i !in stdinOf {
      if i in stdinOf {
        Unpiped(cgis, stdinOf, i);
        assert false;
      }
    }
    NoKeys(stdinOf);
  }

  lemma Unpiped(cgis: map<Fd, Cgi>, stdinOf: map<Fd, Fd>, i: Fd)
    requires Piped(cgis, stdinOf) && i in stdinOf
    ensures cgis != map[]
  {
    assert stdinOf[i] in cgis;
  }

  lemma NoKeys(m: map<Fd, Fd>)
    requires forall i :: i !in m
    ensures m == map[]
  {
    assert (forall i: Fd :: i !in m) ==> m == map[];
  }

  /** With no connection there is no process either, and only listeners stay open. */
  lemma OnlyListeners(s: Loop, w: World)
    requires Sound(s, w) && s.conns == map[]
    ensures s.cgis == map[] && s.stdinOf == map[] && s.k.faults == []
    ensures s.k.open == s.listeners + s.lost.fds && s.listeners !! s.lost.fds && s.k.interest.Keys == s.listeners
    ensures s.k.children == Elems(s.pendingReap) + s.lost.pids
  {
    hide Settled, ConnsOk, CgisOk, LostOk, Families, Linked, Piped;
    NoProcesses(s.conns, s.cgis, s.stdinOf);
    ChildrenListed(s.cgis, s.pendingReap, s.lost.pids, s.k.children);
    assert PidsOf(s.cgis) == {};
  }

  /** Dropping the loop closes every descriptor but the lost ones, leaves nothing
      watched, and leaves unreaped only children that were about to be reaped, or lost. */
  lemma ShutdownReleases(s: Loop, w: World)
    requires Reachable(s, w)
    ensures var s' := Shutdown(s, w);
            && s'.conns == map[] && s'.cgis == map[] && s'.stdinOf == map[]
            && s'.k.open == s.lost.fds && s'.k.interest == map[] && s'.k.faults == []
            && s'.k.children == Elems(s'.pendingReap) + s.lost.pids
  {
    hide Reachable, Good, Sound, RemoveAll, Listing, CloseAll;
    ReachableGood(s, w);
    SoundOf(s, w);
    var ids := Listing(s.conns.Keys, w, s.k.calls);
    assert Elems(ids) == s.conns.Keys;
    RemoveAllGood(s, w, ids);
    var s1 := RemoveAll(s, w, ids);
    OnlyListeners(s1, w);
    var fds := Listing(s1.listeners, w, s1.k.calls);
    assert Elems(fds) == s1.listeners;
    CloseAllShape(s1.k, fds);
  }
}
