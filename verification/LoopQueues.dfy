/** Runs in which no CGI is refused in front of further requests: nothing ever waits in vain. */
module LoopQueues {
  import opened Bytes
  import opened Parser
  import opened Printer
  import opened Pipeline
  import opened Kernel
  import opened Loop
  import opened LoopInvariants
  import opened LoopHandlers
  import opened LoopRuns
  import opened LoopResults
  import opened LoopEndings
  import opened LoopIdle
  import opened LoopQuiet
  import opened LoopNotices

  // ------------------------------------------------------------ the condition

  /** Draining the queue of `id` now does not stop behind a refused CGI. */
  ghost predicate Flows(s: Loop, w: World, id: Fd) {
    id in s.conns && !s.conns[id].awaitingCgi ==> !exists i :: StallsAt(s.conns[id].requests, s.k, w, i)
  }

  /** Ending process `o` leaves a queue that flows. */
  ghost predicate FinishFlows(s: Loop, w: World, o: Fd, cause: Cause) {
    o in s.cgis && s.cgis[o].client in s.conns ==> Flows(Concluded(s, w, o, cause), w, s.cgis[o].client)
  }

  ghost predicate FinishesFlow(s: Loop, w: World, os: seq<Fd>)
    decreases |os|
  {
    os != [] ==> FinishFlows(s, w, os[0], TookTooLong) && FinishesFlow(FinishCgi(s, w, os[0], TookTooLong), w, os[1..])
  }

  /** The requests read from `id` flow. */
  ghost predicate ReadFlows(s: Loop, w: World, id: Fd)
    requires id in s.conns
  {
    var (k, answer) := Read(s.k, w);
    answer.Received? ==> Flows(SetConn(s.(k := k), id, Ingest(s.conns[id], w, answer.data, s.clock).0), w, id)
  }

  ghost predicate OutputFlows(s: Loop, w: World, o: Fd) {
    var (k, answer) := Read(s.k, w);
    answer.EndOfFile? || answer.ReadError? ==> FinishFlows(s.(k := k), w, o, CauseOf(answer))
  }

  ghost predicate EventFlows(s: Loop, w: World, e: Event) {
    if e.fd in s.listeners then true
    else if e.fd in s.cgis then e.error || e.hup || e.readable ==> OutputFlows(s, w, e.fd)
    else e.fd !in s.stdinOf && e.fd in s.conns && !e.error && !e.writable && e.readable ==> ReadFlows(s, w, e.fd)
  }

  ghost predicate EventsFlow(s: Loop, w: World, events: seq<Event>)
    decreases |events|
  {
    events != [] ==> EventFlows(s, w, events[0]) && EventsFlow(Handle(s, w, events[0]), w, events[1..])
  }

  ghost predicate TickFlows(s: Loop, w: World, t: Tick) {
    FinishesFlow(s, w, Listing(TimedOut(s), w, s.k.calls)) && EventsFlow(Waited(s, w, t), w, t.Events())
  }

  /** Whenever the run drains a queue, it flows. */
  ghost predicate RunFlows(s: Loop, w: World, ticks: seq<Tick>)
    decreases |ticks|
  {
    ticks != [] ==> TickFlows(s, w, ticks[0]) && RunFlows(RunTick(s, w, ticks[0]), w, ticks[1..])
  }

  // ------------------------------------------------------------- step by step

  /** Where requests are queued, a CGI is running. */
  predicate Served(c: Conn) { c.requests != [] ==> c.awaitingCgi }

  predicate AllServed(s: Loop) { forall id :: id in s.conns ==> Served(s.conns[id]) }

  predicate OthersServed(s: Loop, busy: Fd) { forall id :: id in s.conns && id != busy ==> Served(s.conns[id]) }

  /** What is left of the connections has its queue as it was. */
  predicate SameQueues(s: Loop, s': Loop) {
    forall id :: id in s'.conns ==>
      id in s.conns && s'.conns[id].requests == s.conns[id].requests && s'.conns[id].awaitingCgi == s.conns[id].awaitingCgi
  }

  lemma SameServed(s: Loop, s': Loop)
    requires AllServed(s) && SameQueues(s, s')
    ensures AllServed(s')
  {}

  lemma DrainServed(s: Loop, w: World, id: Fd)
    requires OthersServed(s, id) && Flows(s, w, id)
    ensures AllServed(ProcessQueued(s, w, id))
  {
    hide StallsAt, Arm, GrowsBy, Dispatch;
    DispatchGrows(s, w, id);
    var s1 := Dispatch(s, w, id);
    if id in s.conns && !s.conns[id].awaitingCgi {
      StallIff(s, w, id);
    } else {
      assert s1 == s by { IdleStays(s, w, id); }
    }
    ArmQueues(s1, w, id);
    SameServed(s1, Arm(s1, w, id));
  }

  lemma IdleStays(s: Loop, w: World, id: Fd)
    requires Idle(s, id)
    ensures Dispatch(s, w, id) == s
  {}

  lemma ArmQueues(s: Loop, w: World, id: Fd)
    ensures SameQueues(s, Arm(s, w, id))
  {
    hide RemoveConnection;
    RemovedConns(ArmWrite(s, w, id).0, w, id);
  }

  lemma RemoveQueues(s: Loop, w: World, id: Fd)
    ensures SameQueues(s, RemoveConnection(s, w, id))
  {
    hide RemoveConnection;
    RemovedConns(s, w, id);
  }

  lemma FinishServed(s: Loop, w: World, o: Fd, cause: Cause)
    requires Good(s, w) && AllServed(s) && FinishFlows(s, w, o, cause) && MayFinish(s, w, o, cause)
    ensures AllServed(FinishCgi(s, w, o, cause))
  {
    hide Good, Sound, Inv, Settled, Concluded, ProcessQueued, Flows, Release, OutcomeOf, Deliver;
    if o in s.cgis {
      SoundOf(s, w);
      AskerWaits(s, w, o);
      ConcludedGood(s, w, o, cause);
      ConcludedOthers(s, w, o, cause);
      DrainServed(Concluded(s, w, o, cause), w, s.cgis[o].client);
    }
  }

  lemma ConcludedOthers(s: Loop, w: World, o: Fd, cause: Cause)
    requires o in s.cgis && s.cgis[o].client in s.conns && AllServed(s)
    ensures OthersServed(Concluded(s, w, o, cause), s.cgis[o].client)
  {
    hide Release, OutcomeOf, Deliver, GrowsBy;
    ReleaseShape(s, w, o, cause);
    var (s1, answer) := Release(s, w, o, cause);
    DeliverShape(s1, w, s.cgis[o], OutcomeOf(w, s.cgis[o], answer, cause, s1.k.calls), cause, answer);
  }

  lemma {:induction false} FinishAllServed(s: Loop, w: World, os: seq<Fd>)
    requires Good(s, w) && AllServed(s) && FinishesFlow(s, w, os) && AllLate(s, os)
    ensures AllServed(FinishAll(s, w, os))
    decreases |os|
  {
    hide Good, AllServed, FinishCgi, FinishFlows, AllLate, MayFinish;
    if os != [] {
      LateStep(s, w, os);
      FinishServed(s, w, os[0], TookTooLong);
      FinishAllServed(FinishCgi(s, w, os[0], TookTooLong), w, os[1..]);
    }
  }

  lemma IdleQueues(s: Loop, w: World)
    requires Sound(s, w)
    ensures SameQueues(s, SweepIdleConnections(s, w))
  {
    hide Sound, SweepIdleConnections, Expired, IsIdle, Ages;
    IdleKeys(s, w);
    var s' := SweepIdleConnections(s, w);
    forall id | id in s'.conns
      ensures s'.conns[id].requests == s.conns[id].requests && s'.conns[id].awaitingCgi == s.conns[id].awaitingCgi
    {
      IdleSweepOutcome(s, w, id);
      if IsIdle(s, s.conns[id]) { ExpiredQueue(s.conns[id], s', id, w); }
    }
  }

  lemma IdleKeys(s: Loop, w: World)
    requires Sound(s, w)
    ensures SweepIdleConnections(s, w).conns.Keys <= s.conns.Keys
  {
    hide Sound, ExpireAll, Listing, IdleConnections, Ages;
    ExpireAllGood(s, w, Listing(IdleConnections(s), w, s.k.calls));
  }

  lemma ExpiredQueue(c: Conn, s: Loop, id: Fd, w: World)
    requires Expired(c, s, id, w) && id in s.conns
    ensures s.conns[id].requests == c.requests && s.conns[id].awaitingCgi == c.awaitingCgi
  {
    hide IsPage;
  }

  lemma SweepServed(s: Loop, w: World)
    requires Good(s, w) && AllServed(s) && FinishesFlow(s, w, Listing(TimedOut(s), w, s.k.calls))
    ensures AllServed(Sweep(s, w))
  {
    hide Good, Sound, AllServed, FinishesFlow, SweepPendingReaps, SweepIdleConnections, FinishAll, Listing, TimedOut, AllLate,
      Within, Passes;
    ListedLate(s, w);
    FinishAllServed(s, w, Listing(TimedOut(s), w, s.k.calls));
    var s1 := SweepCgiTimeouts(s, w);
    var s2 := SweepPendingReaps(s1, w);
    ReapedConns(s1, w);
    SameConnsServed(s1, s2);
    AgedGood(s, w);
    SoundOf(s2, w);
    IdleQueues(s2, w);
    SameServed(s2, SweepIdleConnections(s2, w));
    SameConnsServed(SweepIdleConnections(s2, w), Sweep(s, w));
  }

  lemma SameConnsServed(s: Loop, s': Loop)
    ensures s'.conns == s.conns && AllServed(s) ==> AllServed(s')
  {}

  // ------------------------------------------------------------------ events

  lemma WritableQueues(s: Loop, w: World, id: Fd)
    ensures SameQueues(s, ClientWritable(s, w, id))
  {
    hide RemoveConnection, Write, AfterWrite, Conn.PendingWrite;
    if id in s.conns && !s.conns[id].WriteComplete() {
      PendingLeft(s.conns[id]);
      var (k, answer) := Write(s.k, w, s.conns[id].PendingWrite());
      RemovedConns(s.(k := k), w, id);
      if answer.Wrote? { AfterWriteQueues(s.(k := k), w, id, answer.count); }
    }
  }

  lemma AfterWriteQueues(s: Loop, w: World, id: Fd, count: nat)
    requires id in s.conns && count <= |s.conns[id].PendingWrite()|
    ensures SameQueues(s, AfterWrite(s, w, id, count))
  {
    hide RemoveConnection, Modify, Conn.PendingWrite;
    var c := Advanced(s.conns[id], count, s.clock);
    RemovedConns(SetConn(s, id, c), w, id);
    RemovedConns(SetConn(s.(k := Modify(s.k, w, id, Readable).0), id, Emptied(c)), w, id);
  }

  lemma ReadableServed(s: Loop, w: World, id: Fd)
    requires AllServed(s) && id in s.conns && ReadFlows(s, w, id)
    ensures AllServed(ClientReadable(s, w, id))
  {
    hide RemoveConnection, Read, Ingest, ProcessQueued, Reject, Flows, Served;
    var (k, answer) := Read(s.k, w);
    RemoveQueues(s.(k := k), w, id);
    if answer.Received? {
      var (c, failure) := Ingest(s.conns[id], w, answer.data, s.clock);
      var s1 := SetConn(s.(k := k), id, c);
      DrainServed(s1, w, id);
      if failure.Some? {
        RejectQueues(ProcessQueued(s1, w, id), w, id, failure.value);
        SameServed(ProcessQueued(s1, w, id), Reject(ProcessQueued(s1, w, id), w, id, failure.value));
      }
    } else if !answer.NothingToRead? {
      SameServed(s.(k := k), RemoveConnection(s.(k := k), w, id));
    }
  }

  lemma RejectQueues(s: Loop, w: World, id: Fd, e: ParseError)
    ensures SameQueues(s, Reject(s, w, id, e))
  {
    hide ArmWrite;
    ArmShape(s, w, id);
    if id in s.conns {
      var page := RejectionPage(e);
      ArmShape(SetConn(s, id, QueueWriteAndClose(s.conns[id], Notice(page, w.page(page, s.k.calls)))), w, id);
    }
  }

  lemma ListenerServed(s: Loop, w: World)
    requires AllServed(s)
    ensures AllServed(ListenerEvent(s, w))
  {
    hide Register, Close, Accept;
  }

  lemma OutputServed(s: Loop, w: World, o: Fd)
    requires Good(s, w) && AllServed(s) && OutputFlows(s, w, o)
    ensures AllServed(CgiStdoutReadable(s, w, o))
  {
    hide Good, Read, FinishCgi, FinishFlows, Served;
    var (k, answer) := Read(s.k, w);
    ReadGood(s, w);
    SameConnsServed(s, s.(k := k));
    if answer.EndOfFile? || answer.ReadError? { EndMayFinish(s, w, o); }
    if answer.EndOfFile? || answer.ReadError? { FinishServed(s.(k := k), w, o, CauseOf(answer)); }
  }

  lemma HandleServed(s: Loop, w: World, e: Event)
    requires Good(s, w) && AllServed(s) && EventFlows(s, w, e)
    ensures AllServed(Handle(s, w, e))
  {
    hide Good, AllServed, SameQueues, ListenerEvent, CgiStdoutReadable, CgiStdinWritable, RemoveConnection, ClientWritable,
      ClientReadable, OutputFlows, ReadFlows;
    if e.fd in s.listeners {
      ListenerServed(s, w);
    } else if e.fd in s.cgis {
      if e.error || e.hup || e.readable { OutputServed(s, w, e.fd); }
    } else {
      StdinOthers(s, w, e.fd);
      SameConnsServed(s, CgiStdinWritable(s, w, e.fd));
      WritableQueues(s, w, e.fd);
      SameServed(s, ClientWritable(s, w, e.fd));
      RemoveQueues(s, w, e.fd);
      SameServed(s, RemoveConnection(s, w, e.fd));
      if e.fd !in s.stdinOf && e.fd in s.conns && !e.error && !e.writable && e.readable { ReadableServed(s, w, e.fd); }
    }
  }

  lemma {:induction false} HandleAllServed(s: Loop, w: World, events: seq<Event>)
    requires Good(s, w) && AllServed(s) && EventsFlow(s, w, events)
    ensures AllServed(HandleAll(s, w, events))
    decreases |events|
  {
    hide Good, AllServed, Handle, EventFlows, Passes;
    if events != [] {
      HandleServed(s, w, events[0]);
      HandleGood(s, w, events[0]);
      HandleAllServed(Handle(s, w, events[0]), w, events[1..]);
    }
  }

  // -------------------------------------------------------------------- runs

  lemma TickServed(s: Loop, w: World, t: Tick)
    requires Good(s, w) && AllServed(s) && TickFlows(s, w, t)
    ensures AllServed(RunTick(s, w, t))
  {
    hide Good, AllServed, FinishesFlow, EventsFlow, Sweep, HandleAll, Waited, RunTick, Instances, Listing, TimedOut;
    SweepServed(s, w);
    WaitedGood(s, w, t);
    SameConnsServed(Sweep(s, w), Waited(s, w, t));
    HandleAllServed(Waited(s, w, t), w, t.Events());
  }

  lemma {:induction false} RunServed(s: Loop, w: World, ticks: seq<Tick>)
    requires Good(s, w) && AllServed(s) && RunFlows(s, w, ticks)
    ensures AllServed(Run(s, w, ticks))
    decreases |ticks|
  {
    hide Good, AllServed, TickFlows, RunTick, Instances, OnTime, Within;
    if ticks != [] {
      TickServed(s, w, ticks[0]);
      TickGood(s, w, ticks[0]);
      RunServed(RunTick(s, w, ticks[0]), w, ticks[1..]);
    }
  }

  /** In a run in which no CGI is refused in front of further requests, requests are queued
      only while a CGI is running for their connection. */
  lemma QueuesServed(listeners: set<Fd>, now: nat, w: World, ticks: seq<Tick>, id: Fd)
    requires RunFlows(Start(listeners, now), w, ticks)
    ensures var s := Run(Start(listeners, now), w, ticks);
            id in s.conns && s.conns[id].requests != [] ==> s.conns[id].awaitingCgi
  {
    hide Good, Run, RunFlows;
    StartGood(listeners, now, w);
    assert AllServed(Start(listeners, now));
    RunServed(Start(listeners, now), w, ticks);
  }

  /** And then a client that has sent all its requests has, once no CGI runs for it, all the
      answers, sent or about to be sent. */
  lemma AllAnswered(listeners: set<Fd>, now: nat, w: World, ticks: seq<Tick>, id: Fd, ms: seq<Message>)
    requires RunFlows(Start(listeners, now), w, ticks)
    requires var s := Run(Start(listeners, now), w, ticks);
             id in s.conns && s.conns[id].log.input == PrintAll(ms) && !s.conns[id].awaitingCgi
    requires forall i :: 0 <= i < |ms| ==> Fits(ms[i], w.maxBody)
    requires w.maxBody <= USIZE_MAX && |PrintAll(ms)| <= USIZE_MAX
    ensures var c := Run(Start(listeners, now), w, ticks).conns[id];
            Answers(c.log.sent + c.PendingWrite(), Meanings(ms), w)
  {
    hide Run, RunFlows, Start, Fits, PrintAll, Meanings, AnsweredOf, Faithful, BytesOf, ItemsOk, Reachable, Conn.PendingWrite;
    var s := Run(Start(listeners, now), w, ticks);
    assert Reachable(s, w) by { RunIsReachable(listeners, now, w, ticks); }
    QueuesServed(listeners, now, w, ticks, id);
    GoodConn(s, w, id);
    BytesConserved(s, w, id);
    var c := s.conns[id];
    assert c.log.input + [] == PrintAll(ms);
    RequestsArrive(c, w, ms, []);
    assert c.log.dispatched + [] == c.log.dispatched;
  }

  lemma RunIsReachable(listeners: set<Fd>, now: nat, w: World, ticks: seq<Tick>)
    ensures Reachable(Run(Start(listeners, now), w, ticks), w)
  {
    hide Run, Start;
  }
}
