/** What becomes of a connection while nothing is read from it. */
module LoopQuiet {
  import opened Parser
  import opened Kernel
  import opened Loop
  import opened LoopInvariants
  import opened LoopHandlers
  import opened LoopEvents
  import opened LoopRuns
  import opened LoopResults
  import opened LoopIdle

  // --------------------------------------------------------- events of others

  lemma ArmedOthers(s: Loop, w: World, id: Fd, x: Fd)
    requires x in s.conns && x != id
    ensures Kept(s, Arm(s, w, id), x)
  {
    hide RemoveConnection;
    RemovedConns(ArmWrite(s, w, id).0, w, id);
  }

  lemma ProcessedOthers(s: Loop, w: World, id: Fd, x: Fd)
    requires x in s.conns && x != id
    ensures Kept(s, ProcessQueued(s, w, id), x)
  {
    hide Dispatch, Arm;
    DispatchGrows(s, w, id);
    ArmedOthers(Dispatch(s, w, id), w, id, x);
  }

  lemma FinishedOthers(s: Loop, w: World, o: Fd, cause: Cause, x: Fd)
    requires x in s.conns && (o in s.cgis ==> s.cgis[o].client != x)
    ensures Kept(s, FinishCgi(s, w, o, cause), x)
  {
    hide Release, OutcomeOf, ProcessQueued, Deliver;
    if o in s.cgis {
      ReleaseShape(s, w, o, cause);
      var cgi := s.cgis[o];
      var (s1, answer) := Release(s, w, o, cause);
      if cgi.client in s1.conns {
        var reply := OutcomeOf(w, cgi, answer, cause, s1.k.calls);
        DeliverShape(s1, w, cgi, reply, cause, answer);
        ProcessedOthers(Deliver(s1, w, cgi, reply, cause, answer), w, cgi.client, x);
      }
    }
  }

  lemma StdoutOthers(s: Loop, w: World, o: Fd, x: Fd)
    requires x in s.conns && (o in s.cgis ==> s.cgis[o].client != x)
    ensures Kept(s, CgiStdoutReadable(s, w, o), x)
  {
    hide FinishCgi, Read;
    var s1 := s.(k := Read(s.k, w).0);
    FinishedOthers(s1, w, o, AtEnd, x);
    FinishedOthers(s1, w, o, ReadFailed, x);
  }

  lemma StdinOthers(s: Loop, w: World, i: Fd)
    ensures CgiStdinWritable(s, w, i).conns == s.conns
  {
    hide Write, Close;
  }

  lemma AfterWriteOthers(s: Loop, w: World, id: Fd, count: nat, x: Fd)
    requires id in s.conns && count <= |s.conns[id].PendingWrite()| && x in s.conns && x != id
    ensures Kept(s, AfterWrite(s, w, id, count), x)
  {
    hide RemoveConnection, Modify, Advanced, Emptied, Conn.PendingWrite;
    var c := Advanced(s.conns[id], count, s.clock);
    RemovedConns(SetConn(s, id, c), w, id);
    RemovedConns(SetConn(s.(k := Modify(s.k, w, id, Readable).0), id, Emptied(c)), w, id);
  }

  lemma WritableOthers(s: Loop, w: World, id: Fd, x: Fd)
    requires x in s.conns && x != id
    ensures Kept(s, ClientWritable(s, w, id), x)
  {
    hide RemoveConnection, Write, AfterWrite, Conn.PendingWrite;
    if id in s.conns && !s.conns[id].WriteComplete() {
      PendingLeft(s.conns[id]);
      var (k, answer) := Write(s.k, w, s.conns[id].PendingWrite());
      RemovedConns(s.(k := k), w, id);
      if answer.Wrote? { AfterWriteOthers(s.(k := k), w, id, answer.count, x); }
    }
  }

  lemma PendingLeft(c: Conn)
    requires !c.WriteComplete()
    ensures c.PendingWrite() != []
  {}

  lemma ReadableOthers(s: Loop, w: World, id: Fd, x: Fd)
    requires x in s.conns && x != id
    ensures Kept(s, ClientReadable(s, w, id), x)
  {
    hide RemoveConnection, Read, Ingest, ProcessQueued, QueueWriteAndClose, ArmWrite;
    if id in s.conns {
      var (k, answer) := Read(s.k, w);
      var s1 := s.(k := k);
      RemovedConns(s1, w, id);
      if answer.Received? {
        var (c, failure) := Ingest(s.conns[id], w, answer.data, s.clock);
        ProcessedOthers(SetConn(s1, id, c), w, id, x);
        RejectedOthers(ProcessQueued(SetConn(s1, id, c), w, id), w, id, x);
      }
    }
  }

  lemma RejectedOthers(s: Loop, w: World, id: Fd, x: Fd)
    requires x in s.conns && x != id
    ensures forall e :: Kept(s, Reject(s, w, id, e), x)
  {
    hide QueueWriteAndClose;
  }

  lemma ListenerOthers(s: Loop, w: World, x: Fd)
    requires x in s.conns && s.conns.Keys <= s.k.open
    ensures Kept(s, ListenerEvent(s, w), x)
  {
    hide Register, Close, NewConn;
  }

  /** An event on a descriptor that is neither its own nor its CGI's does not touch a connection. */
  lemma HandleElsewhere(s: Loop, w: World, e: Event, x: Fd)
    requires Good(s, w) && x in s.conns && e.fd != x && (e.fd in s.cgis ==> s.cgis[e.fd].client != x)
    ensures Kept(s, Handle(s, w, e), x)
  {
    hide Good, Sound, ListenerEvent, CgiStdoutReadable, CgiStdinWritable, RemoveConnection, ClientWritable, ClientReadable;
    SoundOf(s, w);
    ConnsOpen(s, w);
    ListenerOthers(s, w, x);
    StdoutOthers(s, w, e.fd, x);
    StdinOthers(s, w, e.fd);
    RemovedConns(s, w, e.fd);
    WritableOthers(s, w, e.fd, x);
    ReadableOthers(s, w, e.fd, x);
  }

  lemma NotServed(s: Loop, w: World, o: Fd, x: Fd)
    requires Good(s, w) && x in s.conns && !s.conns[x].awaitingCgi
    ensures o in s.cgis ==> s.cgis[o].client != x
  {
    hide Sound;
    if o in s.cgis { AskerWaits(s, w, o); }
  }

  predicate NoTraffic(events: seq<Event>, id: Fd) { forall e :: e in events ==> e.fd != id }

  lemma {:induction false} HandleAllElsewhere(s: Loop, w: World, events: seq<Event>, x: Fd)
    requires Good(s, w) && x in s.conns && !s.conns[x].awaitingCgi && NoTraffic(events, x)
    ensures Kept(s, HandleAll(s, w, events), x)
    decreases |events|
  {
    hide Good, Handle, Passes;
    if events != [] {
      assert events[0] in events;
      NotServed(s, w, events[0].fd, x);
      HandleElsewhere(s, w, events[0], x);
      HandleGood(s, w, events[0]);
      assert NoTraffic(events[1..], x);
      HandleAllElsewhere(Handle(s, w, events[0]), w, events[1..], x);
    }
  }

  // --------------------------------------------------------------- counting 408s

  ghost predicate Is408(item: Item, w: World) {
    item.Notice? && item.page == TimeoutPage && IsPage(w, TimeoutPage, item.reply)
  }

  /** The connection got `n` more 408s and nothing else happened to its requests. */
  ghost predicate Got408s(c: Conn, c': Conn, w: World, n: nat) {
    && c'.awaitingCgi == c.awaitingCgi && c'.readBuf == c.readBuf && c'.lastActivity == c.lastActivity
    && c'.requests == c.requests && c'.log.serial == c.log.serial && c'.log.sent == c.log.sent
    && |c'.log.items| == |c.log.items| + n && c.log.items <= c'.log.items
    && (forall i :: |c.log.items| <= i < |c'.log.items| ==> Is408(c'.log.items[i], w))
  }

  lemma Got408sTrans(a: Conn, b: Conn, c: Conn, w: World, m: nat, n: nat)
    requires Got408s(a, b, w, m) && Got408s(b, c, w, n)
    ensures Got408s(a, c, w, m + n)
  {
    hide Is408;
    forall i | |a.log.items| <= i < |c.log.items| ensures Is408(c.log.items[i], w) {
      if i < |b.log.items| { assert c.log.items[i] == b.log.items[i]; }
    }
  }

  lemma ExpiredGot408(c: Conn, s: Loop, id: Fd, w: World)
    requires Expired(c, s, id, w) && c.readBuf != []
    ensures id in s.conns && Got408s(c, s.conns[id], w, 1)
  {
    hide IsPage;
  }

  predicate IsDue(s: Loop) { s.clock - s.lastSweep >= IDLE_SWEEP_INTERVAL }

  lemma SweepQuiet(s: Loop, w: World, id: Fd)
    requires Good(s, w) && id in s.conns && !s.conns[id].awaitingCgi && s.conns[id].readBuf != []
    ensures var c, s' := s.conns[id], Sweep(s, w);
            && id in s'.conns
            && Got408s(c, s'.conns[id], w, if IsDue(s) && IsIdle(s, c) then 1 else 0)
            && s'.clock == s.clock && s'.lastSweep == (if IsDue(s) then s.clock else s.lastSweep)
  {
    hide Good, Sound, FinishAll, Listing, TimedOut, AllLate, SweepPendingReaps, SweepIdleConnections, Got408s, Expired, Passes, Within;
    var c := s.conns[id];
    var s1 := SweepCgiTimeouts(s, w);
    ListedLate(s, w);
    BystanderKept(s, w, Listing(TimedOut(s), w, s.k.calls), id);
    ReapedConns(s1, w);
    var s2 := SweepPendingReaps(s1, w);
    AgedGood(s, w);
    FrameOf(s, w);
    SoundOf(s2, w);
    IdleSweepOutcome(s2, w, id);
    SweptSound(s2, w);
    Got408None(c, w);
    if IsDue(s) && IsIdle(s, c) {
      ExpiredGot408(c, SweepIdleConnections(s2, w), id, w);
    }
  }

  lemma Got408None(c: Conn, w: World)
    ensures Got408s(c, c, w, 0)
  {}

  lemma SweptSound(s: Loop, w: World)
    requires Sound(s, w)
    ensures Sound(SweepIdleConnections(s, w), w) && SweepIdleConnections(s, w).clock == s.clock
  {
    hide Sound, ExpireAll, Listing, IdleConnections, Ages, SameInstances;
    ExpireAllGood(s, w, Listing(IdleConnections(s), w, s.k.calls));
  }

  lemma TickQuiet(s: Loop, w: World, t: Tick, id: Fd)
    requires Good(s, w) && id in s.conns && !s.conns[id].awaitingCgi && s.conns[id].readBuf != []
    requires NoTraffic(t.events, id)
    ensures var c, s' := s.conns[id], RunTick(s, w, t);
            && id in s'.conns
            && Got408s(c, s'.conns[id], w, if IsDue(s) && IsIdle(s, c) then 1 else 0)
            && s'.clock == s.clock + t.waited && s'.lastSweep == (if IsDue(s) then s.clock else s.lastSweep)
            && Good(s', w)
  {
    hide Good, Sweep, HandleAll, Passes, Within, Instances, OnTime;
    SweepQuiet(s, w, id);
    SweepGood(s, w);
    var s1 := Sweep(s, w);
    var s2 := s1.(clock := s1.clock + t.waited);
    Got408sSame(s.conns[id], s1.conns[id], w, if IsDue(s) && IsIdle(s, s.conns[id]) then 1 else 0);
    hide Got408s;
    TimeGood(s1, w, s2.clock, s1.lastSweep);
    assert s2 == s1.(clock := s2.clock, lastSweep := s1.lastSweep);
    HandleAllElsewhere(s2, w, t.Events(), id);
    HandleAllGood(s2, w, t.Events());
    PassesAges(s2, HandleAll(s2, w, t.Events()), w);
  }

  lemma Got408sSame(c: Conn, c': Conn, w: World, n: nat)
    requires Got408s(c, c', w, n)
    ensures c'.awaitingCgi == c.awaitingCgi && c'.readBuf == c.readBuf && c'.lastActivity == c.lastActivity
  {}

  predicate AllQuiet(ticks: seq<Tick>, id: Fd) {
    forall i :: 0 <= i < |ticks| ==> NoTraffic(ticks[i].events, id)
  }

  /** How many of these ticks begin with an idle sweep that finds the last activity too long ago. */
  function Timeouts(clock: nat, lastSweep: nat, lastActivity: nat, ticks: seq<Tick>): nat
    decreases |ticks|
  {
    if ticks == [] then 0
    else
      var due := clock - lastSweep >= IDLE_SWEEP_INTERVAL;
      (if due && clock - lastActivity >= IDLE_TIMEOUT then 1 else 0)
      + Timeouts(clock + ticks[0].waited, if due then clock else lastSweep, lastActivity, ticks[1..])
  }

  /** A connection that has sent part of a request and waits for no CGI gets, over any ticks
      without traffic on it, one 408 for each idle sweep that comes too late for it. */
  lemma {:induction false} TimeoutsCounted(s: Loop, w: World, ticks: seq<Tick>, id: Fd)
    requires Good(s, w) && id in s.conns && !s.conns[id].awaitingCgi && s.conns[id].readBuf != []
    requires AllQuiet(ticks, id)
    ensures var c, s' := s.conns[id], Run(s, w, ticks);
            id in s'.conns && Got408s(c, s'.conns[id], w, Timeouts(s.clock, s.lastSweep, c.lastActivity, ticks))
    decreases |ticks|
  {
    hide Good, RunTick, Got408s, NoTraffic;
    var c := s.conns[id];
    if ticks == [] {
      Got408None(c, w);
    } else {
      var s1 := RunTick(s, w, ticks[0]);
      TickQuiet(s, w, ticks[0], id);
      var first := if IsDue(s) && IsIdle(s, c) then 1 else 0;
      Got408sSame(c, s1.conns[id], w, first);
      TimeoutsCounted(s1, w, ticks[1..], id);
      Got408sTrans(c, s1.conns[id], Run(s, w, ticks).conns[id], w, first,
        Timeouts(s1.clock, s1.lastSweep, c.lastActivity, ticks[1..]));
    }
  }

  /** The time that passes before the last of these ticks begins. */
  function Elapsed(ticks: seq<Tick>): nat {
    if |ticks| <= 1 then 0 else ticks[0].waited + Elapsed(ticks[1..])
  }

  /** After an idle sweep there is no other until the interval has passed, and then there is. */
  lemma {:induction false} NoTimeoutIff(clock: nat, lastSweep: nat, lastActivity: nat, ticks: seq<Tick>)
    requires clock >= lastSweep && lastSweep - lastActivity >= IDLE_TIMEOUT && ticks != []
    ensures Timeouts(clock, lastSweep, lastActivity, ticks) == 0 <==>
              clock + Elapsed(ticks) - lastSweep < IDLE_SWEEP_INTERVAL
    decreases |ticks|
  {
    if |ticks| > 1 && clock - lastSweep < IDLE_SWEEP_INTERVAL {
      NoTimeoutIff(clock + ticks[0].waited, lastSweep, lastActivity, ticks[1..]);
    }
  }

  /** The ticks from the first that begins with a 408 on. */
  function FromFirst(clock: nat, lastSweep: nat, lastActivity: nat, ticks: seq<Tick>): seq<Tick>
    decreases |ticks|
  {
    if ticks == [] then []
    else
      var due := clock - lastSweep >= IDLE_SWEEP_INTERVAL;
      if due && clock - lastActivity >= IDLE_TIMEOUT then ticks
      else FromFirst(clock + ticks[0].waited, if due then clock else lastSweep, lastActivity, ticks[1..])
  }

  lemma {:induction false} OneTimeoutIff(clock: nat, lastSweep: nat, lastActivity: nat, ticks: seq<Tick>)
    ensures Timeouts(clock, lastSweep, lastActivity, ticks) <= 1 <==>
              Elapsed(FromFirst(clock, lastSweep, lastActivity, ticks)) < IDLE_SWEEP_INTERVAL
    decreases |ticks|
  {
    if ticks != [] {
      var due := clock - lastSweep >= IDLE_SWEEP_INTERVAL;
      if due && clock - lastActivity >= IDLE_TIMEOUT {
        if |ticks| > 1 { NoTimeoutIff(clock + ticks[0].waited, clock, lastActivity, ticks[1..]); }
      } else {
        OneTimeoutIff(clock + ticks[0].waited, if due then clock else lastSweep, lastActivity, ticks[1..]);
      }
    }
  }

  /** Over ticks without traffic on it a connection gets at most one 408 exactly if the last
      of them begins before the sweep interval has passed since the one that begins with the first. */
  lemma AtMostOneIff(s: Loop, w: World, ticks: seq<Tick>, id: Fd)
    requires Reachable(s, w) && id in s.conns && !s.conns[id].awaitingCgi && s.conns[id].readBuf != []
    requires AllQuiet(ticks, id)
    ensures var c, s' := s.conns[id], Run(s, w, ticks);
            && id in s'.conns
            && (|s'.conns[id].log.items| <= |c.log.items| + 1 <==>
                  Elapsed(FromFirst(s.clock, s.lastSweep, c.lastActivity, ticks)) < IDLE_SWEEP_INTERVAL)
  {
    hide Reachable, Good, Run, Is408, Elapsed, FromFirst, Timeouts;
    ReachableGood(s, w);
    var c := s.conns[id];
    TimeoutsCounted(s, w, ticks, id);
    OneTimeoutIff(s.clock, s.lastSweep, c.lastActivity, ticks);
  }

  // ----------------------------------------------------------- stalled pipelines

  /** The events of a tick do not include one that is answered by reading from `id`. */
  predicate Unread(events: seq<Event>, id: Fd) {
    forall e :: e in events && e.fd == id ==> e.error || e.writable || !e.readable
  }

  /** If the instance numbered `serial` is still there, its queue is as it was. */
  predicate Asleep(s: Loop, id: Fd, serial: nat, requests: seq<HttpRequest>) {
    id in s.conns && s.conns[id].log.serial == serial ==> !s.conns[id].awaitingCgi && s.conns[id].requests == requests
  }

  lemma AfterWriteQueue(s: Loop, w: World, id: Fd, count: nat)
    requires id in s.conns && count <= |s.conns[id].PendingWrite()| && !s.conns[id].awaitingCgi
    ensures Asleep(AfterWrite(s, w, id, count), id, s.conns[id].log.serial, s.conns[id].requests)
  {
    hide RemoveConnection, Modify, Conn.PendingWrite;
    var c := Advanced(s.conns[id], count, s.clock);
    RemovedConns(SetConn(s, id, c), w, id);
    RemovedConns(SetConn(s.(k := Modify(s.k, w, id, Readable).0), id, Emptied(c)), w, id);
  }

  lemma WritableQueue(s: Loop, w: World, id: Fd)
    requires id in s.conns && !s.conns[id].awaitingCgi
    ensures Asleep(ClientWritable(s, w, id), id, s.conns[id].log.serial, s.conns[id].requests)
  {
    hide RemoveConnection, Write, AfterWrite, Conn.PendingWrite;
    if !s.conns[id].WriteComplete() {
      PendingLeft(s.conns[id]);
      var (k, answer) := Write(s.k, w, s.conns[id].PendingWrite());
      RemovedConns(s.(k := k), w, id);
      if answer.Wrote? { AfterWriteQueue(s.(k := k), w, id, answer.count); }
    }
  }

  lemma OnlyConn(s: Loop, w: World, id: Fd)
    requires Good(s, w) && id in s.conns
    ensures id !in s.listeners && id !in s.cgis && id !in s.stdinOf
  {
    hide Families, Stops, Linked, ConnsOk, CgisOk, LostOk, Settled, Numbered;
  }

  /** No event but one that reads from it wakes a connection that waits for no CGI. */
  lemma EventAsleep(s: Loop, w: World, e: Event, id: Fd)
    requires Good(s, w) && id in s.conns && !s.conns[id].awaitingCgi
    requires e.fd == id ==> e.error || e.writable || !e.readable
    ensures Asleep(Handle(s, w, e), id, s.conns[id].log.serial, s.conns[id].requests)
  {
    hide Good, ListenerEvent, CgiStdoutReadable, CgiStdinWritable, RemoveConnection, ClientWritable, ClientReadable;
    if e.fd == id {
      OnlyConn(s, w, id);
      RemovedConns(s, w, id);
      WritableQueue(s, w, id);
    } else {
      NotServed(s, w, e.fd, id);
      HandleElsewhere(s, w, e, id);
    }
  }

  /** An instance that is gone does not come back. */
  lemma StaysGone(s: Loop, s': Loop, id: Fd, serial: nat, requests: seq<HttpRequest>)
    requires Instances(s, s') && serial < s.serials && !(id in s.conns && s.conns[id].log.serial == serial)
    ensures Asleep(s', id, serial, requests)
  {}

  lemma {:induction false} EventsAsleep(s: Loop, w: World, events: seq<Event>, id: Fd, serial: nat, requests: seq<HttpRequest>)
    requires Good(s, w) && serial < s.serials && Asleep(s, id, serial, requests) && Unread(events, id)
    ensures Asleep(HandleAll(s, w, events), id, serial, requests)
    decreases |events|
  {
    hide Good, Handle, Passes, Instances;
    if events != [] {
      var s1 := Handle(s, w, events[0]);
      HandleGood(s, w, events[0]);
      PassesAges(s, s1, w);
      assert events[0] in events && Unread(events[1..], id);
      if id in s.conns && s.conns[id].log.serial == serial {
        EventAsleep(s, w, events[0], id);
      } else {
        StaysGone(s, s1, id, serial, requests);
      }
      hide Asleep, Unread;
      MoreSerials(s, s1);
      EventsAsleep(s1, w, events[1..], id, serial, requests);
    }
  }

  lemma MoreSerials(s: Loop, s': Loop)
    requires Instances(s, s')
    ensures s.serials <= s'.serials
  {}

  lemma SweepAsleep(s: Loop, w: World, id: Fd)
    requires Good(s, w) && id in s.conns && !s.conns[id].awaitingCgi
    ensures Asleep(Sweep(s, w), id, s.conns[id].log.serial, s.conns[id].requests)
  {
    hide Good, Sound, FinishAll, Listing, TimedOut, AllLate, SweepPendingReaps, SweepIdleConnections, Expired, Passes, Within;
    var c := s.conns[id];
    var s1 := SweepCgiTimeouts(s, w);
    ListedLate(s, w);
    BystanderKept(s, w, Listing(TimedOut(s), w, s.k.calls), id);
    ReapedConns(s1, w);
    var s2 := SweepPendingReaps(s1, w);
    AgedGood(s, w);
    SoundOf(s2, w);
    IdleSweepOutcome(s2, w, id);
    if IsIdle(s2, s2.conns[id]) { ExpiredAsleep(c, SweepIdleConnections(s2, w), id, w); }
  }

  lemma ExpiredAsleep(c: Conn, s: Loop, id: Fd, w: World)
    requires Expired(c, s, id, w) && !c.awaitingCgi
    ensures Asleep(s, id, c.log.serial, c.requests)
  {
    hide IsPage;
  }

  lemma TickAsleep(s: Loop, w: World, t: Tick, id: Fd, serial: nat, requests: seq<HttpRequest>)
    requires Good(s, w) && serial < s.serials && Asleep(s, id, serial, requests) && Unread(t.events, id)
    ensures Asleep(RunTick(s, w, t), id, serial, requests)
  {
    hide Good, Sweep, HandleAll, Passes, Within, Instances;
    var s1 := Sweep(s, w);
    var s2 := s1.(clock := s1.clock + t.waited);
    SweepGood(s, w);
    PassesAges(s, s1, w);
    if id in s.conns && s.conns[id].log.serial == serial {
      SweepAsleep(s, w, id);
    } else {
      StaysGone(s, s1, id, serial, requests);
    }
    MoreSerials(s, s1);
    TimeGood(s1, w, s2.clock, s1.lastSweep);
    assert s2 == s1.(clock := s2.clock, lastSweep := s1.lastSweep);
    EventsAsleep(s2, w, t.Events(), id, serial, requests);
  }

  predicate AllUnread(ticks: seq<Tick>, id: Fd) {
    forall i :: 0 <= i < |ticks| ==> Unread(ticks[i].events, id)
  }

  lemma {:induction false} RunAsleep(s: Loop, w: World, ticks: seq<Tick>, id: Fd, serial: nat, requests: seq<HttpRequest>)
    requires Good(s, w) && serial < s.serials && Asleep(s, id, serial, requests) && AllUnread(ticks, id)
    ensures Asleep(Run(s, w, ticks), id, serial, requests)
    decreases |ticks|
  {
    hide Good, RunTick, Asleep, Instances, Unread, OnTime, Within;
    if ticks != [] {
      var s1 := RunTick(s, w, ticks[0]);
      TickGood(s, w, ticks[0]);
      TickAsleep(s, w, ticks[0], id, serial, requests);
      MoreSerials(s, s1);
      RunAsleep(s1, w, ticks[1..], id, serial, requests);
    }
  }

  /** A connection that waits for no CGI keeps its queue, stalled if it is not empty, through
      every run in which nothing is read from it, for as long as it is there. */
  lemma OnlyReadsWake(s: Loop, w: World, ticks: seq<Tick>, id: Fd)
    requires Reachable(s, w) && id in s.conns && !s.conns[id].awaitingCgi && AllUnread(ticks, id)
    ensures var s' := Run(s, w, ticks);
            id in s'.conns && s'.conns[id].log.serial == s.conns[id].log.serial ==>
              !s'.conns[id].awaitingCgi && s'.conns[id].requests == s.conns[id].requests
  {
    hide Reachable, Good, Run, AllUnread;
    ReachableGood(s, w);
    SerialBelow(s, w, id);
    RunAsleep(s, w, ticks, id, s.conns[id].log.serial, s.conns[id].requests);
  }

  lemma SerialBelow(s: Loop, w: World, id: Fd)
    requires Good(s, w) && id in s.conns
    ensures s.conns[id].log.serial < s.serials
  {
    hide Sound;
  }
}
