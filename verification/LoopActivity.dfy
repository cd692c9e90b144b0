/** A connection is idle once neither side has sent anything on it for ten seconds, and not before. */
module LoopActivity {
  import opened Bytes
  import opened Parser
  import opened Pipeline
  import opened Kernel
  import opened Loop
  import opened LoopInvariants
  import opened LoopHandlers
  import opened LoopEvents
  import opened LoopRuns
  import opened LoopResults
  import opened LoopIdle
  import opened LoopQuiet
  import opened LoopNotices

  // ------------------------------------------------------- traffic and activity

  /** More has been read from the connection, or written to it. */
  predicate Grew(c: Conn, c': Conn) { |c'.log.input| > |c.log.input| || |c'.log.sent| > |c.log.sent| }

  predicate Forward(c: Conn, c': Conn) { |c.log.input| <= |c'.log.input| && |c.log.sent| <= |c'.log.sent| }

  /** What handlers at the time `now` make of the last activity. */
  predicate Follows(c: Conn, c': Conn, now: nat) {
    Forward(c, c') && c'.lastActivity == if Grew(c, c') then now else c.lastActivity
  }

  predicate SameInstance(s: Loop, s': Loop, id: Fd) {
    id in s.conns && id in s'.conns && s'.conns[id].log.serial == s.conns[id].log.serial
  }

  /** The last activity is set by reads, writes and accepts, and by nothing else. */
  predicate Paces(s: Loop, s': Loop) {
    && s'.clock == s.clock
    && forall id :: id in s'.conns ==>
         if SameInstance(s, s', id) then Follows(s.conns[id], s'.conns[id], s.clock)
         else s'.conns[id].log.serial >= s.serials && s'.conns[id].lastActivity == s.clock
  }

  /** No connection has had traffic. */
  predicate Still(s: Loop, s': Loop) {
    && s'.clock == s.clock
    && forall id :: id in s'.conns ==> SameInstance(s, s', id) && SamePace(s.conns[id], s'.conns[id])
  }

  predicate SamePace(c: Conn, c': Conn) {
    c'.lastActivity == c.lastActivity && c'.log.input == c.log.input && c'.log.sent == c.log.sent
  }

  lemma StillPaces(s: Loop, s': Loop)
    requires Still(s, s')
    ensures Paces(s, s')
  {}

  lemma StillTrans(a: Loop, b: Loop, c: Loop)
    requires Still(a, b) && Still(b, c)
    ensures Still(a, c)
  {}

  lemma GrowsPace(c: Conn, c': Conn)
    requires GrowsBy(c, c')
    ensures SamePace(c, c')
  {}

  // -------------------------------------------------------------------- handlers

  lemma RemoveStill(s: Loop, w: World, id: Fd)
    requires Sound(s, w)
    ensures Still(s, RemoveConnection(s, w, id))
  {
    hide Sound, RemoveConnection, Ages;
    RemovedConns(s, w, id);
    RemoveSound(s, w, id);
  }

  lemma FinishStill(s: Loop, w: World, o: Fd, cause: Cause)
    requires Good(s, w) && MayFinish(s, w, o, cause)
    ensures Still(s, FinishCgi(s, w, o, cause))
  {
    hide Good, Sound, FinishCgi, AnswerQueued, GrowsBy, Ages, MayFinish;
    SoundOf(s, w);
    FinishGood(s, w, o, cause);
    if o in s.cgis {
      OutcomeReachesAsker(s, w, o, cause);
      var s', client := FinishCgi(s, w, o, cause), s.cgis[o].client;
      if client in s'.conns { GrowsPace(s.conns[client], s'.conns[client]); }
    } else {
      NotFinished(s, w, o, cause);
    }
  }

  lemma NotFinished(s: Loop, w: World, o: Fd, cause: Cause)
    requires o !in s.cgis
    ensures FinishCgi(s, w, o, cause) == s
  {}

  lemma OutputStill(s: Loop, w: World, o: Fd)
    requires Good(s, w)
    ensures Still(s, CgiStdoutReadable(s, w, o))
  {
    hide Good, Read, FinishCgi, MayFinish;
    var (k, answer) := Read(s.k, w);
    ReadGood(s, w);
    if answer.EndOfFile? || answer.ReadError? {
      EndMayFinish(s, w, o);
      FinishStill(s.(k := k), w, o, CauseOf(answer));
    }
  }

  lemma WritablePaces(s: Loop, w: World, id: Fd)
    requires Sound(s, w)
    ensures Paces(s, ClientWritable(s, w, id))
  {
    hide Sound, RemoveConnection, Write, AfterWrite, Conn.PendingWrite, Ages;
    if id in s.conns && !s.conns[id].WriteComplete() {
      PendingLeft(s.conns[id]);
      var (k, answer) := Write(s.k, w, s.conns[id].PendingWrite());
      RemovedConns(s.(k := k), w, id);
      RemoveClock(s.(k := k), w, id);
      if answer.Wrote? { AfterWritePaces(s.(k := k), w, id, answer.count); }
    }
  }

  lemma RemoveClock(s: Loop, w: World, id: Fd)
    ensures RemoveConnection(s, w, id).clock == s.clock
  {
    hide DropOrphans, Listing, CgisOf;
    var s1 := Unhooked(s, id);
    DropOrphansShape(s1, w, Listing(CgisOf(s1, id), w, s1.k.calls));
  }

  lemma AfterWritePaces(s: Loop, w: World, id: Fd, count: nat)
    requires id in s.conns && 1 <= count <= |s.conns[id].PendingWrite()|
    ensures Paces(s, AfterWrite(s, w, id, count))
  {
    hide RemoveConnection, Modify, Conn.PendingWrite;
    var c := Advanced(s.conns[id], count, s.clock);
    var s1 := SetConn(s, id, c);
    var s2 := SetConn(s.(k := Modify(s.k, w, id, Readable).0), id, Emptied(c));
    RemovedConns(s1, w, id);
    RemovedConns(s2, w, id);
    RemoveClock(s1, w, id);
    RemoveClock(s2, w, id);
  }

  lemma ReadablePaces(s: Loop, w: World, id: Fd)
    requires Good(s, w)
    ensures Paces(s, ClientReadable(s, w, id))
  {
    hide Good, RemoveConnection, Read, ProcessQueued, Reject, Ingest;
    if id in s.conns {
      var (k, answer) := Read(s.k, w);
      RemovedConns(s.(k := k), w, id);
      RemoveClock(s.(k := k), w, id);
      if answer.Received? {
        ReceivedData(s.k, w);
        var (c, failure) := Ingest(s.conns[id], w, answer.data, s.clock);
        IngestFollows(s.conns[id], w, answer.data, s.clock);
        var s1 := SetConn(s.(k := k), id, c);
        ProcessStill(s1, w, id);
        var s2 := ProcessQueued(s1, w, id);
        if failure.Some? { RejectStill(s2, w, id, failure.value); }
        PacedThen(s, s1, s2);
        PacedThen(s, s1, ClientReadable(s, w, id));
      }
    }
  }

  lemma ReceivedData(k: Kernel, w: World)
    ensures Read(k, w).1.Received? ==> Read(k, w).1.data != []
  {}

  lemma IngestFollows(c: Conn, w: World, data: bytes, now: nat)
    requires data != []
    ensures Follows(c, Ingest(c, w, data, now).0, now) && Ingest(c, w, data, now).0.log.serial == c.log.serial
  {
    hide Drain;
  }

  /** The connections of `s1` but possibly some, none of which has had traffic since. */
  lemma PacedThen(s: Loop, s1: Loop, s2: Loop)
    requires s1.clock == s.clock && Paces(s, s1)
    ensures Still(s1, s2) ==> Paces(s, s2)
  {}

  lemma ProcessStill(s: Loop, w: World, id: Fd)
    ensures Still(s, ProcessQueued(s, w, id))
  {
    hide Dispatch, RemoveConnection, GrowsBy;
    DispatchGrows(s, w, id);
    var d := Dispatch(s, w, id);
    if id in s.conns { GrowsPace(s.conns[id], d.conns[id]); }
    DispatchSerial(s, w, id);
    RemovedConns(ArmWrite(d, w, id).0, w, id);
    RemoveClock(ArmWrite(d, w, id).0, w, id);
  }

  lemma {:induction false} DispatchSerial(s: Loop, w: World, id: Fd)
    ensures var d := Dispatch(s, w, id);
            d.clock == s.clock && (id in s.conns && id in d.conns ==> d.conns[id].log.serial == s.conns[id].log.serial)
    decreases if id in s.conns then |s.conns[id].requests| else 0
  {
    hide SpawnCgi;
    if !Idle(s, id) {
      var c, s1 := s.conns[id], s.(k := Called(s.k));
      match w.handle(c.requests[0], s.k.calls)
      case Respond(reply) => DispatchSerial(SetConn(s1, id, Answered(c, reply, Handled)), w, id);
      case StartCgi => SpawnSerial(s1, w, id);
    }
  }

  lemma SpawnSerial(s: Loop, w: World, id: Fd)
    requires id in s.conns && s.conns[id].requests != []
    ensures var d := SpawnCgi(s, w, id);
            d.clock == s.clock && id in d.conns && d.conns[id].log.serial == s.conns[id].log.serial
  {
    hide Spawn, OpenPipes, GiveUp, Abandoned;
  }

  lemma RejectStill(s: Loop, w: World, id: Fd, e: ParseError)
    ensures Still(s, Reject(s, w, id, e)) && SameClocks(s, Reject(s, w, id, e))
  {
    hide ArmWrite;
    ArmShape(s, w, id);
    if id in s.conns {
      var page := RejectionPage(e);
      ArmShape(SetConn(s, id, QueueWriteAndClose(s.conns[id], Notice(page, w.page(page, s.k.calls)))), w, id);
    }
  }

  predicate SameClocks(s: Loop, s': Loop) { s'.clock == s.clock }

  lemma ListenerPaces(s: Loop, w: World)
    requires Sound(s, w)
    ensures Paces(s, ListenerEvent(s, w))
  {
    hide Sound, Register, Close;
    ConnsOpen(s, w);
  }

  lemma HandlePaces(s: Loop, w: World, e: Event)
    requires Good(s, w)
    ensures Paces(s, Handle(s, w, e))
  {
    hide Good, Sound, Paces, Still, ListenerEvent, CgiStdoutReadable, CgiStdinWritable, RemoveConnection, ClientWritable, ClientReadable;
    SoundOf(s, w);
    SelfStill(s);
    StillPaces(s, s);
    if e.fd in s.listeners {
      ListenerPaces(s, w);
    } else if e.fd in s.cgis {
      OutputStill(s, w, e.fd);
      StillPaces(s, CgiStdoutReadable(s, w, e.fd));
    } else if e.fd in s.stdinOf {
      StdinStill(s, w, e.fd);
      StillPaces(s, CgiStdinWritable(s, w, e.fd));
    } else {
      RemoveStill(s, w, e.fd);
      StillPaces(s, RemoveConnection(s, w, e.fd));
      WritablePaces(s, w, e.fd);
      ReadablePaces(s, w, e.fd);
    }
  }

  lemma SelfStill(s: Loop)
    ensures Still(s, s)
  {}

  lemma StdinStill(s: Loop, w: World, i: Fd)
    ensures Still(s, CgiStdinWritable(s, w, i))
  {
    StdinOthers(s, w, i);
    hide Write, Close;
  }

  // ------------------------------------------------------------------- over time

  /** What any sequence of handlers, sweeps and waits makes of a connection's last activity. */
  predicate Since(c: Conn, c': Conn, from: nat) {
    && Forward(c, c')
    && (!Grew(c, c') ==> c'.lastActivity == c.lastActivity)
    && (c'.lastActivity == c.lastActivity || from <= c'.lastActivity)
  }

  ghost predicate Tracks(s: Loop, s': Loop) {
    && s.clock <= s'.clock
    && forall id :: SameInstance(s, s', id) ==> Since(s.conns[id], s'.conns[id], s.clock)
  }

  lemma PacesTracks(s: Loop, s': Loop)
    requires Paces(s, s')
    ensures Tracks(s, s')
  {}

  lemma StillTracks(s: Loop, s': Loop)
    requires Still(s, s')
    ensures Tracks(s, s')
  {}

  /** An instance that is there before and after is there in between. */
  lemma Between(a: Loop, b: Loop, c: Loop, w: World, id: Fd)
    requires Good(a, w) && Instances(a, b) && Instances(b, c) && SameInstance(a, c, id)
    ensures SameInstance(a, b, id) && SameInstance(b, c, id)
  {
    hide Sound;
  }

  lemma TracksTrans(a: Loop, b: Loop, c: Loop, w: World)
    requires Good(a, w) && Instances(a, b) && Instances(b, c) && Tracks(a, b) && Tracks(b, c)
    ensures Tracks(a, c)
  {
    hide Good, Instances;
    forall id | SameInstance(a, c, id) ensures Since(a.conns[id], c.conns[id], a.clock) {
      Between(a, b, c, w, id);
    }
  }

  lemma SelfTracks(s: Loop)
    ensures Tracks(s, s)
  {}

  lemma {:induction false} HandleAllTracks(s: Loop, w: World, events: seq<Event>)
    requires Good(s, w)
    ensures var s' := HandleAll(s, w, events); Tracks(s, s') && s'.clock == s.clock
    decreases |events|
  {
    hide Good, Handle, Tracks, Passes, Instances;
    if events == [] {
      SelfTracks(s);
    } else {
      var s1, s2 := Handle(s, w, events[0]), HandleAll(s, w, events);
      HandleGood(s, w, events[0]);
      PassesAges(s, s1, w);
      HandlePaces(s, w, events[0]);
      PacesTracks(s, s1);
      HandleAllGood(s1, w, events[1..]);
      PassesAges(s1, s2, w);
      HandleAllTracks(s1, w, events[1..]);
      TracksTrans(s, s1, s2, w);
    }
  }

  lemma {:induction false} FinishAllStill(s: Loop, w: World, os: seq<Fd>)
    requires Good(s, w) && AllLate(s, os)
    ensures Still(s, FinishAll(s, w, os))
    decreases |os|
  {
    hide Good, FinishCgi, Still, AllLate, MayFinish;
    if os == [] {
      SelfStill(s);
    } else {
      var s1 := FinishCgi(s, w, os[0], TookTooLong);
      LateStep(s, w, os);
      FinishStill(s, w, os[0], TookTooLong);
      FinishAllStill(s1, w, os[1..]);
      StillTrans(s, s1, FinishAll(s1, w, os[1..]));
    }
  }

  /** The loop when the idle sweep begins. */
  function BeforeIdle(s: Loop, w: World): Loop { SweepPendingReaps(SweepCgiTimeouts(s, w), w) }

  lemma BeforeStill(s: Loop, w: World)
    requires Good(s, w)
    ensures Still(s, BeforeIdle(s, w)) && Good(BeforeIdle(s, w), w)
  {
    hide Good, FinishAll, Listing, TimedOut, SweepPendingReaps, AllLate, Passes, Within;
    ListedLate(s, w);
    FinishAllStill(s, w, Listing(TimedOut(s), w, s.k.calls));
    ReapedConns(SweepCgiTimeouts(s, w), w);
    AgedGood(s, w);
  }

  lemma IdleStill(s: Loop, w: World)
    requires Good(s, w)
    ensures Still(s, SweepIdleConnections(s, w))
  {
    hide Good, Sound, SweepIdleConnections, Expired, IsIdle;
    SoundOf(s, w);
    SweptSound(s, w);
    var s' := SweepIdleConnections(s, w);
    IdleKeys(s, w);
    forall id | id in s'.conns ensures SameInstance(s, s', id) && SamePace(s.conns[id], s'.conns[id]) {
      IdleSweepOutcome(s, w, id);
      if IsIdle(s, s.conns[id]) { ExpiredPace(s.conns[id], s', id, w); }
    }
  }

  lemma IdleKeys(s: Loop, w: World)
    requires Sound(s, w)
    ensures SweepIdleConnections(s, w).conns.Keys <= s.conns.Keys
  {
    hide Sound, ExpireAll, Listing, IdleConnections, Ages;
    ExpireAllGood(s, w, Listing(IdleConnections(s), w, s.k.calls));
  }

  lemma ExpiredPace(c: Conn, s: Loop, id: Fd, w: World)
    requires Expired(c, s, id, w) && id in s.conns
    ensures s.conns[id].log.serial == c.log.serial && SamePace(c, s.conns[id])
  {
    hide IsPage;
  }

  lemma SweepTracks(s: Loop, w: World)
    requires Good(s, w)
    ensures Tracks(s, Sweep(s, w)) && Sweep(s, w).clock == s.clock
  {
    hide Good, Still, SweepCgiTimeouts, SweepPendingReaps, SweepIdleConnections;
    BeforeStill(s, w);
    var s1 := BeforeIdle(s, w);
    IdleStill(s1, w);
    StillTrans(s, s1, SweepIdleConnections(s1, w));
    StillTracks(s, s1);
    StillTracks(s, SweepIdleConnections(s1, w));
    SameSwept(s, SweepIdleConnections(s1, w), s1.clock);
    StillClock(s, s1);
    StillClock(s, SweepIdleConnections(s1, w));
  }

  lemma StillClock(s: Loop, s': Loop)
    requires Still(s, s')
    ensures s'.clock == s.clock
  {}

  lemma SameSwept(s: Loop, s': Loop, lastSweep: nat)
    requires Tracks(s, s')
    ensures Tracks(s, s'.(lastSweep := lastSweep))
  {}

  lemma WaitedTracks(s: Loop, w: World, t: Tick)
    requires Good(s, w)
    ensures Tracks(s, Waited(s, w, t))
  {
    hide Good, Sweep;
    SweepTracks(s, w);
  }

  lemma TickTracks(s: Loop, w: World, t: Tick)
    requires Good(s, w)
    ensures Tracks(s, RunTick(s, w, t))
  {
    hide Good, Tracks, RunTick, HandleAll, Passes, Instances;
    WaitedTracks(s, w, t);
    WaitedGood(s, w, t);
    HandleAllTracks(Waited(s, w, t), w, t.Events());
    HandleAllGood(Waited(s, w, t), w, t.Events());
    PassesAges(Waited(s, w, t), RunTick(s, w, t), w);
    TracksTrans(s, Waited(s, w, t), RunTick(s, w, t), w);
  }

  lemma {:induction false} RunTracks(s: Loop, w: World, ticks: seq<Tick>)
    requires Good(s, w)
    ensures Tracks(s, Run(s, w, ticks))
    decreases |ticks|
  {
    hide Good, Tracks, RunTick, Instances, OnTime, Within;
    if ticks == [] {
      SelfTracks(s);
    } else {
      var s1 := RunTick(s, w, ticks[0]);
      TickGood(s, w, ticks[0]);
      TickTracks(s, w, ticks[0]);
      RunGood(s1, w, ticks[1..]);
      RunTracks(s1, w, ticks[1..]);
      TracksTrans(s, s1, Run(s1, w, ticks[1..]), w);
    }
  }

  // ------------------------------------------------------------------ the sweep

  /** The loop after the first `n` events of the tick. */
  function Midway(s: Loop, w: World, t: Tick, n: nat): Loop
    requires n <= |t.Events()|
  {
    HandleAll(Waited(s, w, t), w, t.Events()[..n])
  }

  /** Between these two states the connection was accepted, or something was read from it or written to it. */
  predicate Traffic(s: Loop, s': Loop, id: Fd) {
    id in s'.conns && (SameInstance(s, s', id) ==> Grew(s.conns[id], s'.conns[id]))
  }

  lemma TrafficNow(s: Loop, s': Loop, id: Fd)
    requires Paces(s, s') && Traffic(s, s', id)
    ensures s'.conns[id].lastActivity == s.clock == s'.clock
  {}

  lemma {:induction false} HandleAllSplit(s: Loop, w: World, events: seq<Event>, n: nat)
    requires n <= |events|
    ensures HandleAll(s, w, events) == HandleAll(HandleAll(s, w, events[..n]), w, events[n..])
    decreases n
  {
    hide Handle;
    if n == 0 {
      assert events[..0] == [] && events[0..] == events;
    } else {
      assert events[..n][0] == events[0] && events[..n][1..] == events[1..][..n - 1] && events[n..] == events[1..][n - 1..];
      HandleAllSplit(Handle(s, w, events[0]), w, events[1..], n - 1);
    }
  }

  lemma SplitGood(s: Loop, w: World, t: Tick, n: nat)
    requires Good(s, w) && n < |t.Events()|
    ensures var a, events := Midway(s, w, t, n), t.Events();
            var b := Handle(a, w, events[n]);
            && Good(a, w) && Good(b, w) && RunTick(s, w, t) == HandleAll(b, w, events[n + 1..])
  {
    hide Good, Handle, HandleAll, Waited, RunTick, Passes, Instances;
    var s1, events := Waited(s, w, t), t.Events();
    WaitedGood(s, w, t);
    HandleAllGood(s1, w, events[..n]);
    var a := HandleAll(s1, w, events[..n]);
    HandleGood(a, w, events[n]);
    HandleAllSplit(s1, w, events, n);
    assert events[n..][0] == events[n] && events[n..][1..] == events[n + 1..];
    assert HandleAll(a, w, events[n..]) == HandleAll(Handle(a, w, events[n]), w, events[n..][1..]) by { HandleAllStep(a, w, events[n..]); }
  }

  lemma HandleAllStep(s: Loop, w: World, events: seq<Event>)
    requires events != []
    ensures HandleAll(s, w, events) == HandleAll(Handle(s, w, events[0]), w, events[1..])
  {
    hide Handle;
  }

  /** From an event on, through the rest of its tick and any further ticks, up to the next idle sweep. */
  lemma LaterTracks(b: Loop, w: World, events: seq<Event>, ticks: seq<Tick>)
    requires Good(b, w)
    ensures var d := BeforeIdle(Run(HandleAll(b, w, events), w, ticks), w);
            Good(d, w) && Tracks(b, d) && d.clock == Run(HandleAll(b, w, events), w, ticks).clock
  {
    hide Good, HandleAll, Run, BeforeIdle, Tracks, Still, Passes, Instances, OnTime, Within, AllOnTime;
    var c := HandleAll(b, w, events);
    HandleAllTracks(b, w, events);
    HandleAllGood(b, w, events);
    PassesAges(b, c, w);
    RunTracks(c, w, ticks);
    RunGood(c, w, ticks);
    var d := Run(c, w, ticks);
    TracksTrans(b, c, d, w);
    InstancesTrans(b, c, d);
    BeforeStill(d, w);
    StillTracks(d, BeforeIdle(d, w));
    StillClock(d, BeforeIdle(d, w));
    StillInstances(d, BeforeIdle(d, w), w);
    TracksTrans(b, d, BeforeIdle(d, w), w);
  }

  lemma StillInstances(s: Loop, s': Loop, w: World)
    requires Good(s, w) && s' == BeforeIdle(s, w)
    ensures Instances(s, s')
  {
    hide Good, SweepCgiTimeouts, SweepPendingReaps, Within, Instances;
    AgedGood(s, w);
    PassesAges(s, s', w);
  }

  /** An event brings traffic on a connection.  Whatever happens then, every idle sweep in the next
      ten seconds leaves the connection alone; and if nothing more is read from it or written
      to it, and it waits for no CGI, every idle sweep after that finds it idle. */
  lemma IdleAfterTenSeconds(s: Loop, w: World, t: Tick, n: nat, ticks: seq<Tick>, id: Fd)
    requires Reachable(s, w) && n < |t.Events()|
    requires Traffic(Midway(s, w, t, n), Handle(Midway(s, w, t, n), w, t.Events()[n]), id)
    ensures var b, d := Handle(Midway(s, w, t, n), w, t.Events()[n]), BeforeIdle(Run(RunTick(s, w, t), w, ticks), w);
            SameInstance(b, d, id) ==>
              && (d.clock - b.clock < 10_000 ==> Kept(d, SweepIdleConnections(d, w), id))
              && (d.clock - b.clock >= 10_000 && !d.conns[id].awaitingCgi && !Grew(b.conns[id], d.conns[id]) ==>
                    Expired(d.conns[id], SweepIdleConnections(d, w), id, w))
  {
    hide Reachable, Good, Handle, HandleAll, Run, RunTick, BeforeIdle, SweepIdleConnections, Expired, Tracks, Paces, Midway, Traffic;
    ReachableGood(s, w);
    SplitGood(s, w, t, n);
    var a, events := Midway(s, w, t, n), t.Events();
    var b := Handle(a, w, events[n]);
    HandlePaces(a, w, events[n]);
    TrafficNow(a, b, id);
    LaterTracks(b, w, events[n + 1..], ticks);
    var d := BeforeIdle(Run(RunTick(s, w, t), w, ticks), w);
    if SameInstance(b, d, id) {
      SoundOf(d, w);
      TrackedIdle(b, d, id);
      IdleSweepOutcome(d, w, id);
    }
  }

  lemma TrackedIdle(b: Loop, d: Loop, id: Fd)
    requires Tracks(b, d) && SameInstance(b, d, id) && b.conns[id].lastActivity == b.clock
    ensures d.clock - b.clock < 10_000 ==> !IsIdle(d, d.conns[id])
    ensures d.clock - b.clock >= 10_000 && !d.conns[id].awaitingCgi && !Grew(b.conns[id], d.conns[id]) ==> IsIdle(d, d.conns[id])
  {}
}
