/** Concrete runs that show what the event loop does, and what it does not guarantee. */
module LoopWitnesses {
  import opened Bytes
  import opened Parser
  import opened Printer
  import opened Pipeline
  import opened StreamWitnesses
  import opened Kernel
  import opened Loop
  import opened LoopHandlers
  import opened LoopRuns
  import opened LoopResults
  import opened LoopEndings
  import opened LoopIdle
  import opened LoopQuiet
  import opened LoopNotices

  // -------------------------------------------------------------- the first tick

  const PEER: Fd := 5
  const LISTENERS: set<Fd> := {3}
  const OPENING := Tick(-1, 0, false, [Event(3, true, false, false, false), Event(PEER, true, false, false, false)])

  /** Every request is for a CGI, `spawned` says what starting it comes to and `watches`
      whether its stdout can be registered; the client sends `first`, and later `later`. */
  function CgiWorld(first: bytes, later: bytes, spawned: SpawnAnswer, watches: bool): World {
    var page: Reply := "page";
    World(
      0, 1, n => Some(PEER), n => spawned, n => n <= 2 || watches, n => true,
      n => Received(if n == 3 then first else later), n => Wrote(1000), n => None,
      (r, n) => StartCgi, (o, n) => page, (p, n) => page, (n, keys) => [])
  }

  function KernelAfter(calls: nat): Kernel {
    Kernel({3, PEER}, map[3 := Readable, PEER := Readable], {}, {}, calls, [])
  }

  /** The state once the client is connected. */
  function Connected(): Loop {
    Start(LISTENERS, 0).(conns := map[PEER := NewConn(0, 0)], serials := 1, k := KernelAfter(3))
  }

  /** The state once `data`, which parses as `requests` and leaves `rest`, has been read. */
  function Opened(data: bytes, requests: seq<HttpRequest>, rest: bytes): Loop {
    var c := NewConn(0, 0);
    Connected().(
      conns := map[PEER := c.(readBuf := rest, requests := requests, log := c.log.(input := data, parsed := requests))],
      k := KernelAfter(4))
  }

  lemma FirstAccept(w: World)
    requires w.maxConnections >= 1 && w.accepted(1) == Some(PEER) && w.registers(2)
    ensures Handle(Start(LISTENERS, 0), w, OPENING.events[0]) == Connected()
  {
    var s := Start(LISTENERS, 0);
    assert s.k.interest == map[3 := Readable] && s.k.calls == 1;
    var (k, accepted) := Accept(s.k, w);
    assert accepted == Some(PEER) && k.open == {3, PEER};
    var (k', ok) := Register(k, w, PEER, Readable);
    assert ok && k' == Connected().k;
    hide Accept, Register;
  }

  lemma FirstIngest(w: World, data: bytes, requests: seq<HttpRequest>, rest: bytes)
    requires w.reads_(3) == Received(data) && data != [] && Drain(data, w.maxBody) == ReadOut(requests, rest, None)
    ensures Handle(Connected(), w, OPENING.events[1]) == ProcessQueued(Opened(data, requests, rest), w, PEER)
  {
    hide ProcessQueued, Drain;
    var s := Opened(data, requests, rest);
    assert [] + data == data && [] + requests == requests;
    var (c, failure) := Ingest(NewConn(0, 0), w, data, 0);
    assert c == s.conns[PEER] && failure.None?;
    hide Ingest;
    assert SetConn(Connected().(k := Called(Connected().k)), PEER, c) == s;
  }

  lemma NothingToSweep(w: World)
    ensures Sweep(Start(LISTENERS, 0), w) == Start(LISTENERS, 0)
  {}

  lemma FirstTick(w: World, data: bytes, requests: seq<HttpRequest>, rest: bytes)
    requires w.maxConnections >= 1 && w.accepted(1) == Some(PEER) && w.registers(2)
    requires w.reads_(3) == Received(data) && data != [] && Drain(data, w.maxBody) == ReadOut(requests, rest, None)
    ensures Run(Start(LISTENERS, 0), w, [OPENING]) == ProcessQueued(Opened(data, requests, rest), w, PEER)
  {
    hide ProcessQueued, Handle, Connected, Opened, Sweep, Drain, Start, HandleAll, RunTick, Run;
    FirstAccept(w);
    FirstIngest(w, data, requests, rest);
    NothingToSweep(w);
    OneTick(Start(LISTENERS, 0), w, OPENING);
    TwoEvents(Start(LISTENERS, 0), w, OPENING.events[0], OPENING.events[1]);
    assert OPENING.events == [OPENING.events[0], OPENING.events[1]];
  }

  lemma OneTick(s: Loop, w: World, t: Tick)
    requires Sweep(s, w) == s && t.waited == 0 && !t.failed
    ensures Run(s, w, [t]) == HandleAll(s, w, t.events)
  {
    hide Sweep, HandleAll;
    assert s.(clock := s.clock + 0) == s;
    assert RunTick(s, w, t) == HandleAll(s, w, t.events);
    assert Run(s, w, [t]) == Run(RunTick(s, w, t), w, [t][1..]);
  }

  lemma TwoEvents(s: Loop, w: World, a: Event, b: Event)
    ensures HandleAll(s, w, [a, b]) == Handle(Handle(s, w, a), w, b)
  {
    hide Handle;
    assert [a, b][1..] == [b] && [b][1..] == [];
    assert HandleAll(s, w, [a, b]) == HandleAll(Handle(s, w, a), w, [b]);
  }

  /** The client's first bytes are these requests, the first of which goes to a CGI. */
  lemma CgiTick(ms: seq<Message>, later: bytes, spawned: SpawnAnswer, watches: bool)
    requires ms == [Simple()] || ms == [Simple(), Simple()]
    ensures var w := CgiWorld(PrintAll(ms), later, spawned, watches);
            var s := Opened(PrintAll(ms), Meanings(ms), []).(k := KernelAfter(5));
            Run(Start(LISTENERS, 0), w, [OPENING]) == Arm(SpawnCgi(s, w, PEER), w, PEER)
  {
    hide PrintAll, SpawnCgi, Meanings, Run, Arm, Simple, Drain, Meaning;
    var w := CgiWorld(PrintAll(ms), later, spawned, watches);
    SimpleRead(ms);
    SimpleMeanings(ms);
    FirstTick(w, PrintAll(ms), Meanings(ms), []);
    var s := Opened(PrintAll(ms), Meanings(ms), []);
    assert w.handle(s.conns[PEER].requests[0], s.k.calls) == StartCgi;
    assert Dispatch(s, w, PEER) == SpawnCgi(s.(k := Called(s.k)), w, PEER);
  }

  lemma IsReachable(w: World, ticks: seq<Tick>)
    ensures Reachable(Run(Start(LISTENERS, 0), w, ticks), w)
  {
    hide Run, Start;
  }

  // -------------------------------------------------------------- a stalled queue

  lemma StallSpawn(s: Loop, w: World)
    requires PEER in s.conns && s.conns[PEER].requests != [] && !s.conns[PEER].awaitingCgi
    requires PEER in s.k.interest && w.spawned(s.k.calls) == NotForked && Reliable(w)
    ensures var c, s' := s.conns[PEER], Arm(SpawnCgi(s, w, PEER), w, PEER);
            && PEER in s'.conns && s'.conns[PEER].requests == c.requests[1..] && !s'.conns[PEER].awaitingCgi
            && s'.conns[PEER].log.serial == c.log.serial
  {
    hide RemoveConnection, OpenPipes, Forgotten, Started;
    var s1 := SpawnCgi(s, w, PEER);
    assert PEER in s1.k.interest && w.modifies_(s1.k.calls);
    hide SpawnCgi;
  }

  const TWO: seq<Message> := [Simple(), Simple()]

  function StallWorld(): World { CgiWorld(PrintAll(TWO), [], NotForked, true) }

  lemma StallTick()
    ensures var s := Run(Start(LISTENERS, 0), StallWorld(), [OPENING]);
            && PEER in s.conns && s.conns[PEER].requests == [Meaning(Simple())] && !s.conns[PEER].awaitingCgi
            && s.conns[PEER].log.serial == 0
  {
    hide Run, PrintAll, Meanings, Meaning, Arm, SpawnCgi, Simple, Drain;
    SimpleMeanings(TWO);
    CgiTick(TWO, [], NotForked, true);
    StallSpawn(Opened(PrintAll(TWO), Meanings(TWO), []).(k := KernelAfter(5)), StallWorld());
  }

  /** Two requests in one segment, the first CGI cannot be started: the second request is in
      the queue, and stays there, for as long as the connection is there, in every run in
      which the client sends nothing more. */
  lemma StallHappens(ticks: seq<Tick>)
    requires AllUnread(ticks, PEER)
    ensures var w := StallWorld();
            var s := Run(Start(LISTENERS, 0), w, [OPENING]);
            var s' := Run(s, w, ticks);
            && PEER in s.conns && s.conns[PEER].requests == [Meaning(Simple())] && !s.conns[PEER].awaitingCgi
            && (PEER in s'.conns && s'.conns[PEER].log.serial == s.conns[PEER].log.serial ==>
                  s'.conns[PEER].requests == [Meaning(Simple())] && !s'.conns[PEER].awaitingCgi)
  {
    hide Run, Start, AllUnread, StallWorld, Meaning, Simple, Reachable;
    StallTick();
    IsReachable(StallWorld(), [OPENING]);
    OnlyReadsWake(Run(Start(LISTENERS, 0), StallWorld(), [OPENING]), StallWorld(), ticks, PEER);
  }

  // ------------------------------------------------------------------------ leaks

  const ONE: seq<Message> := [Simple()]
  const CHILD := Child(9, 6, 7)

  lemma ArmKeepsLost(s: Loop, w: World, id: Fd)
    requires id in s.k.interest && w.modifies_(s.k.calls)
    ensures Arm(s, w, id).lost == s.lost
  {
    hide RemoveConnection;
  }

  lemma RefusedLost(s: Loop, w: World, id: Fd)
    requires id in s.conns && s.conns[id].requests != [] && id in s.k.interest
    ensures SpawnRefused(s, w, id).lost == s.lost && id in SpawnRefused(s, w, id).k.interest
  {
    hide QueueWrite;
  }

  lemma UnwatchedSpawn(s: Loop, w: World)
    requires PEER in s.conns && s.conns[PEER].requests != [] && s.conns[PEER].requests[0].body == []
    requires s.k == KernelAfter(5) && s.lost == Lost({}, {}, 0, 0, 0)
    requires w.spawned(5) == Forked(CHILD) && !w.registers(6)
    ensures var s' := SpawnCgi(s, w, PEER); PEER in s'.k.interest && s'.lost == Lost({7}, {9}, 1, 0, 0)
  {
    hide SpawnRefused;
    var (k, answer) := Spawn(s.k, w);
    assert k == Kernel({3, PEER, 6, 7}, s.k.interest, {9}, {}, 6, []) && answer == Forked(CHILD);
    hide Spawn;
    var (k1, stdin) := OpenStdin(k, w, CHILD, []);
    assert stdin.None? && k1.calls == 6 && k1.interest == s.k.interest;
    hide OpenStdin;
    var (k2, stdin2, ok) := OpenPipes(k, w, CHILD, []);
    assert !ok && k2.interest == s.k.interest;
    hide OpenPipes;
    var s2 := Forgotten(s, CHILD, None, k2);
    assert s2.lost == Lost({7}, {9}, 1, 0, 0) && s2.k.interest == s.k.interest && s2.conns == s.conns;
    hide Forgotten;
    RefusedLost(s2, w, PEER);
  }

  lemma FailedSpawn(s: Loop, w: World)
    requires PEER in s.conns && s.conns[PEER].requests != []
    requires s.k == KernelAfter(5) && s.lost == Lost({}, {}, 0, 0, 0)
    requires w.spawned(5) == PipesLeft({6, 7, 8, 9}) || w.spawned(5) == Orphaned(9)
    ensures var s' := SpawnCgi(s, w, PEER);
            && PEER in s'.k.interest
            && s'.lost == if w.spawned(5).Orphaned? then Lost({}, {9}, 0, 0, 1) else Lost({6, 7, 8, 9}, {}, 0, 1, 0)
  {
    hide SpawnRefused, OpenPipes, Forgotten, Spawn, KernelAfter;
    SpawnFails(w);
    var (k, answer) := Spawn(s.k, w);
    RefusedLost(s.(k := k, lost := Abandoned(s.lost, answer)), w, PEER);
  }

  lemma SpawnFails(w: World)
    requires w.spawned(5) == PipesLeft({6, 7, 8, 9}) || w.spawned(5) == Orphaned(9)
    ensures var (k, answer) := Spawn(KernelAfter(5), w);
            answer == w.spawned(5) && k.interest == KernelAfter(5).interest && PEER in k.interest
  {
    assert |{6, 7, 8, 9}| == 4 && AreNew(KernelAfter(5), {6, 7, 8, 9});
  }

  /** What is lost stays lost when the loop is dropped. */
  lemma LostAtTheEnd(spawned: SpawnAnswer, watches: bool, lost: Lost)
    requires var w := CgiWorld(PrintAll(ONE), [], spawned, watches);
             var s := Opened(PrintAll(ONE), Meanings(ONE), []).(k := KernelAfter(5));
             && PEER in s.conns && s.conns[PEER].requests != []
             && PEER in SpawnCgi(s, w, PEER).k.interest && SpawnCgi(s, w, PEER).lost == lost
    ensures var w := CgiWorld(PrintAll(ONE), [], spawned, watches);
            var s := Run(Start(LISTENERS, 0), w, [OPENING]);
            s.lost == lost && Shutdown(s, w).k.open == lost.fds && lost.pids <= Shutdown(s, w).k.children
  {
    hide Run, Shutdown, Arm, SpawnCgi, PrintAll, Meanings, Simple, Reachable, Start;
    var w := CgiWorld(PrintAll(ONE), [], spawned, watches);
    CgiTick(ONE, [], spawned, watches);
    ArmKeepsLost(SpawnCgi(Opened(PrintAll(ONE), Meanings(ONE), []).(k := KernelAfter(5)), w, PEER), w, PEER);
    IsReachable(w, [OPENING]);
    ShutdownReleases(Run(Start(LISTENERS, 0), w, [OPENING]), w);
  }

  lemma OpenedRequest()
    ensures var s := Opened(PrintAll(ONE), Meanings(ONE), []).(k := KernelAfter(5));
            && PEER in s.conns && s.conns[PEER].requests != [] && s.conns[PEER].requests[0].body == []
            && s.k == KernelAfter(5) && s.lost == Lost({}, {}, 0, 0, 0)
  {
    hide PrintAll, Meanings, Meaning, Simple, Drain, KernelAfter;
    SimpleMeanings(ONE);
    SimpleBody();
  }

  /** The stdout of a child that cannot be registered, and the pipes and the child that
      `spawn_cgi` leaves behind when it fails, are still there when the loop is dropped. */
  lemma LeaksHappen()
    ensures var w := CgiWorld(PrintAll(ONE), [], Forked(CHILD), false);
            var s := Run(Start(LISTENERS, 0), w, [OPENING]);
            s.lost == Lost({7}, {9}, 1, 0, 0) && Shutdown(s, w).k.open == {7} && 9 in Shutdown(s, w).k.children
    ensures var w := CgiWorld(PrintAll(ONE), [], PipesLeft({6, 7, 8, 9}), true);
            var s := Run(Start(LISTENERS, 0), w, [OPENING]);
            s.lost == Lost({6, 7, 8, 9}, {}, 0, 1, 0) && Shutdown(s, w).k.open == {6, 7, 8, 9}
    ensures var w := CgiWorld(PrintAll(ONE), [], Orphaned(9), true);
            var s := Run(Start(LISTENERS, 0), w, [OPENING]);
            s.lost == Lost({}, {9}, 0, 0, 1) && Shutdown(s, w).k.open == {} && 9 in Shutdown(s, w).k.children
  {
    hide Run, Shutdown, SpawnCgi, PrintAll, Meanings, Simple, Opened, KernelAfter, Start;
    OpenedRequest();
    var s := Opened(PrintAll(ONE), Meanings(ONE), []).(k := KernelAfter(5));
    UnwatchedSpawn(s, CgiWorld(PrintAll(ONE), [], Forked(CHILD), false));
    LostAtTheEnd(Forked(CHILD), false, Lost({7}, {9}, 1, 0, 0));
    FailedSpawn(s, CgiWorld(PrintAll(ONE), [], PipesLeft({6, 7, 8, 9}), true));
    LostAtTheEnd(PipesLeft({6, 7, 8, 9}), true, Lost({6, 7, 8, 9}, {}, 0, 1, 0));
    FailedSpawn(s, CgiWorld(PrintAll(ONE), [], Orphaned(9), true));
    LostAtTheEnd(Orphaned(9), true, Lost({}, {9}, 0, 0, 1));
  }

  // -------------------------------------------------------------- a CGI that runs

  /** The state once the CGI for the only request runs. */
  function Waiting(): Loop {
    var request := Meaning(Simple());
    var c := NewConn(0, 0);
    Connected().(
      conns := map[PEER := c.(
        awaitingCgi := true, log := c.log.(input := PrintAll(ONE), parsed := [request], dispatched := [request]))],
      cgis := map[7 := Cgi(9, PEER, None, [], 0, [], 0, request, 0, [], [])],
      k := Kernel({3, PEER, 7}, map[3 := Readable, PEER := Readable, 7 := Readable], {9}, {}, 7, []))
  }

  function RunningWorld(later: bytes): World { CgiWorld(PrintAll(ONE), later, Forked(CHILD), true) }

  lemma PipesOpen(w: World)
    requires w.spawned(5) == Forked(CHILD) && w.registers(6)
    ensures Spawn(KernelAfter(5), w).1 == Forked(CHILD)
    ensures OpenPipes(Spawn(KernelAfter(5), w).0, w, CHILD, []) == (Waiting().k, None, true)
  {
    hide Meaning, Simple, PrintAll;
    var (k, answer) := Spawn(KernelAfter(5), w);
    assert k == Kernel({3, PEER, 6, 7}, KernelAfter(5).interest, {9}, {}, 6, []) && answer == Forked(CHILD);
    hide Spawn;
    var (k1, stdin) := OpenStdin(k, w, CHILD, []);
    assert k1.open == {3, PEER, 7} && k1.interest == KernelAfter(5).interest;
    hide OpenStdin;
    var (k2, ok) := Register(k1, w, 7, Readable);
    assert ok && k2 == Waiting().k;
  }

  lemma Starts(w: World)
    requires w.spawned(5) == Forked(CHILD) && w.registers(6)
    ensures var s := Opened(PrintAll(ONE), [Meaning(Simple())], []).(k := KernelAfter(5));
            SpawnCgi(s, w, PEER) == Waiting()
  {
    hide Meaning, Simple, PrintAll, Spawn, OpenPipes, Forgotten, SpawnRefused, KernelAfter;
    PipesOpen(w);
    SimpleBody();
    var s := Opened(PrintAll(ONE), [Meaning(Simple())], []).(k := KernelAfter(5));
    var request := Meaning(Simple());
    assert [request][1..] == [] && [] + [request] == [request];
    assert SpawnCgi(s, w, PEER) == Started(s, PEER, CHILD, None, Waiting().k);
    assert Popped(s.conns[PEER]).(awaitingCgi := true) == Waiting().conns[PEER];
  }

  /** The state in which a CGI runs is reached. */
  lemma CgiRuns(later: bytes)
    ensures Run(Start(LISTENERS, 0), RunningWorld(later), [OPENING]) == Waiting()
  {
    hide Run, Start, PrintAll, Meanings, Meaning, Simple, SpawnCgi, Opened, KernelAfter;
    SimpleMeanings(ONE);
    CgiTick(ONE, later, Forked(CHILD), true);
    Starts(RunningWorld(later));
    assert Arm(Waiting(), RunningWorld(later), PEER) == Waiting();
  }

  lemma RunAppend(s: Loop, w: World, a: seq<Tick>, b: seq<Tick>)
    ensures Run(s, w, a + b) == Run(Run(s, w, a), w, b)
    decreases |a|
  {
    hide RunTick;
    if a == [] {
      assert a + b == b;
    } else {
      assert (a + b)[0] == a[0] && (a + b)[1..] == a[1..] + b;
      RunAppend(RunTick(s, w, a[0]), w, a[1..], b);
    }
  }

  /** The CGI has not run out of time and the only client waits for it: the sweeps do nothing. */
  lemma WaitingSweep(s: Loop, w: World)
    requires s.cgis == Waiting().cgis && s.pendingReap == [] && s.clock <= CGI_TIMEOUT
    requires s.conns.Keys == {PEER} && s.conns[PEER].awaitingCgi
    ensures Sweep(s, w) == s.(lastSweep := if IsDue(s) then s.clock else s.lastSweep)
  {
    hide Meaning, Simple, PrintAll, Sorted;
    assert (forall o :: o !in TimedOut(s)) ==> TimedOut(s) == {};
    assert SweepCgiTimeouts(s, w) == s;
    hide SweepCgiTimeouts, TimedOut;
    assert SweepPendingReaps(s, w) == s;
    hide SweepPendingReaps;
    assert (forall id :: id !in IdleConnections(s)) ==> IdleConnections(s) == {};
    assert SweepIdleConnections(s, w) == s;
  }

  // -------------------------------------------------------- a notice that overtakes

  const BAD: bytes := "x\r\n\r\n"
  const READ := Event(PEER, true, false, false, false)
  const WRITE := Event(PEER, false, true, false, false)
  const PAGE: Reply := "page"

  lemma BadLine()
    ensures HeadOfText(['x']) == Err(InvalidRequestLine)
  {
    var x: bytes := ['x'];
    AsciiIsUtf8(x);
    var blank: bytes := " ";
    assert Find(x, CRLF).None? && Find(x, blank).None?;
    assert Split(x, CRLF) == [x] && Split(x, blank) == [x];
    hide Utf8, Split, HeadersOf, HostCheck, FramingOf, SplitTarget;
  }

  lemma BadRead()
    ensures [] + BAD == BAD && Drain(BAD, 0) == ReadOut([], [], Some(InvalidRequestLine))
  {
    BadLine();
    assert BAD[1..] == CRLF_CRLF && BAD[1..5] == CRLF_CRLF && BAD[0..4][0] == 'x';
    assert MatchesAt(BAD, CRLF_CRLF, 1) && !MatchesAt(BAD, CRLF_CRLF, 0);
    FindIs(BAD, CRLF_CRLF, 1);
    assert BAD[..1] == ['x'];
    hide HeadOfText, Find;
  }

  /** The connection after that: the 400 is on the stream, in front of the CGI's answer. */
  function Overtaken(): Conn {
    var c := Waiting().conns[PEER];
    c.(writeBuf := PAGE, closeAfterWrite := true, log := c.log.(
      input := c.log.input + BAD, items := [Notice(BadRequestPage, PAGE)], parseFailed := true))
  }

  lemma BadIngest(w: World)
    requires w.maxBody == 0
    ensures Ingest(Waiting().conns[PEER], w, BAD, 0) ==
            (BadConn(), Some(InvalidRequestLine))
  {
    BadRead();
    hide Meaning, Simple, PrintAll, Drain;
    var parsed := Waiting().conns[PEER].log.parsed;
    assert parsed + [] == parsed && [] + [] == Waiting().conns[PEER].requests;
  }

  /** Reading the second, malformed request while the CGI for the first is running. */
  lemma BadEvent()
    ensures var s := Handle(Waiting(), RunningWorld(BAD), READ);
            s == Waiting().(conns := map[PEER := Overtaken()], k := s.k) && PEER in s.k.interest
  {
    hide Meaning, Simple, PrintAll, Ingest, Overtaken, ClientReadable, Waiting;
    var w, s := RunningWorld(BAD), Waiting();
    WaitingFacts();
    BadIngest(w);
    var c := Ingest(s.conns[PEER], w, BAD, 0).0;
    var s1 := SetConn(s.(k := Called(s.k)), PEER, c);
    IdleReadable(s, w, BAD, InvalidRequestLine);
    Rejected(s1, w, c);
    hide Ingest, Reject, QueueWriteAndClose;
    BadNotice();
  }

  lemma Rejected(s: Loop, w: World, c: Conn)
    requires s.conns.Keys == {PEER} && s.conns[PEER] == c && c.WriteComplete() && PEER in s.k.interest
    requires (forall n: nat :: w.page(BadRequestPage, n) == PAGE)
    ensures var s' := Reject(s, w, PEER, InvalidRequestLine);
            && s' == s.(conns := map[PEER := QueueWriteAndClose(c, Notice(BadRequestPage, PAGE))], k := s'.k)
            && PEER in s'.k.interest
  {
    hide QueueWriteAndClose;
  }

  /** What becomes of the connection once the bad bytes have been read, before they are rejected. */
  function BadConn(): Conn {
    Overtaken().(writeBuf := [], closeAfterWrite := false, log := Overtaken().log.(items := []))
  }

  lemma BadNotice()
    ensures QueueWriteAndClose(BadConn(), Notice(BadRequestPage, PAGE)) == Overtaken()
  {
    hide Meaning, Simple, PrintAll;
  }

  lemma WaitingFacts()
    ensures var s := Waiting();
            && s.conns.Keys == {PEER} && s.conns[PEER].awaitingCgi && s.conns[PEER].writeBuf == [] && s.conns[PEER].writeOffset == 0
            && PEER !in s.listeners && PEER !in s.cgis && PEER !in s.stdinOf && PEER in s.k.interest
            && s.k.calls == 7 && s.clock == 0
  {
    hide Meaning, Simple, PrintAll;
  }

  /** What is read while a CGI runs and nothing is pending is at most rejected. */
  lemma IdleReadable(s: Loop, w: World, data: bytes, e: ParseError)
    requires PEER in s.conns && s.conns[PEER].awaitingCgi && s.conns[PEER].WriteComplete()
    requires Read(s.k, w).1 == Received(data) && Ingest(s.conns[PEER], w, data, s.clock).1 == Some(e)
    ensures ClientReadable(s, w, PEER) ==
            Reject(SetConn(s.(k := Read(s.k, w).0), PEER, Ingest(s.conns[PEER], w, data, s.clock).0), w, PEER, e)
  {
    hide Read, Reject, Drain;
    var s1 := SetConn(s.(k := Read(s.k, w).0), PEER, Ingest(s.conns[PEER], w, data, s.clock).0);
    assert Dispatch(s1, w, PEER) == s1;
    assert ProcessQueued(s1, w, PEER) == s1;
  }

  const READING := Tick(-1, 0, false, [READ])
  const WRITING := Tick(-1, 0, false, [WRITE])

  lemma OneEvent(s: Loop, w: World, e: Event)
    requires s.cgis == Waiting().cgis && s.pendingReap == [] && s.clock == 0 && s.lastSweep == 0
    requires s.conns.Keys == {PEER} && s.conns[PEER].awaitingCgi
    ensures Run(s, w, [Tick(-1, 0, false, [e])]) == Handle(s, w, e)
  {
    hide Handle, Sweep, Waiting;
    WaitingSweep(s, w);
    OneTick(s, w, Tick(-1, 0, false, [e]));
    assert [e][1..] == [];
    assert HandleAll(s, w, [e]) == HandleAll(Handle(s, w, e), w, []);
  }

  lemma OvertakenFacts()
    ensures var c := Overtaken();
            && Closing(c) && c.PendingWrite() == PAGE && c.log.items == [Notice(BadRequestPage, PAGE)]
            && c.log.dispatched == [Meaning(Simple())]
  {
    hide Meaning, Simple, PrintAll;
  }

  lemma NoticeEvent(s: Loop, w: World)
    requires s.conns == map[PEER := Overtaken()] && w.writes(s.k.calls) == Wrote(1000)
    requires s.listeners == LISTENERS && s.cgis.Keys == {7} && s.stdinOf == map[] && s.clock == 0
    ensures Handle(s, w, WRITE).conns == map[]
  {
    hide RemoveConnection, Overtaken, Waiting, Conn.PendingWrite;
    OvertakenFacts();
    var (k, answer) := Write(s.k, w, PAGE);
    assert answer == Wrote(4);
    hide Write;
    AllWritten();
    var s1 := SetConn(s.(k := k), PEER, Advanced(Overtaken(), 4, s.clock));
    assert Handle(s, w, WRITE) == RemoveConnection(s1, w, PEER);
    RemovedConns(s1, w, PEER);
  }

  lemma AllWritten()
    ensures var c := Overtaken(); !c.WriteComplete() && c.PendingWrite() == PAGE && Advanced(c, 4, 0).WriteComplete()
  {
    hide Meaning, Simple, PrintAll;
  }

  lemma NoticeTicks()
    ensures var w := RunningWorld(BAD);
            var s := Run(Waiting(), w, [READING]);
            && s == Waiting().(conns := map[PEER := Overtaken()], k := s.k)
            && Run(s, w, [WRITING]).conns == map[]
  {
    hide Meaning, Simple, PrintAll, Handle, Overtaken, Run, Waiting;
    WaitingTables();
    BadEvent();
    var w := RunningWorld(BAD);
    OneEvent(Waiting(), w, READ);
    var s := Run(Waiting(), w, [READING]);
    OvertakenFacts();
    OneEvent(s, w, WRITE);
    NoticeEvent(s, w);
  }

  lemma WaitingTables()
    ensures var s := Waiting();
            && s.conns.Keys == {PEER} && s.conns[PEER].awaitingCgi && s.listeners == LISTENERS && s.cgis.Keys == {7}
            && s.stdinOf == map[] && s.pendingReap == [] && s.clock == 0 && s.lastSweep == 0
  {
    hide Meaning, Simple, PrintAll;
  }

  /** While the CGI for the first request runs, a malformed second one comes: the 400 is all
      there is on the stream, and once it is written the connection is gone, and the CGI. */
  lemma NoticeHappens()
    ensures var w := RunningWorld(BAD);
            var s, s' := Run(Start(LISTENERS, 0), w, [OPENING, READING]), Run(Start(LISTENERS, 0), w, [OPENING, READING, WRITING]);
            && s.cgis == Waiting().cgis && PEER in s.conns && s.conns[PEER].awaitingCgi
            && s.conns[PEER].log.items == [Notice(BadRequestPage, PAGE)] && s.conns[PEER].log.dispatched == [Meaning(Simple())]
            && s'.conns == map[] && s'.cgis == map[]
  {
    hide Meaning, Simple, PrintAll, Run, Start, Waiting, Overtaken, Reachable;
    var w, s0 := RunningWorld(BAD), Start(LISTENERS, 0);
    CgiRuns(BAD);
    NoticeTicks();
    OvertakenFacts();
    assert [OPENING] + [READING] == [OPENING, READING] && [OPENING, READING] + [WRITING] == [OPENING, READING, WRITING];
    RunAppend(s0, w, [OPENING], [READING]);
    RunAppend(s0, w, [OPENING, READING], [WRITING]);
    IsReachable(w, [OPENING, READING, WRITING]);
    NoClients(Run(s0, w, [OPENING, READING, WRITING]), w);
  }

  lemma NoClients(s: Loop, w: World)
    requires Reachable(s, w) && s.conns == map[]
    ensures s.cgis == map[]
  {
    hide Reachable;
    CgiLinkage(s, w);
    assert (forall o :: o !in s.cgis) ==> s.cgis == map[];
  }

  // ------------------------------------------------------------ one 408 after another

  const PART: bytes := "G"

  const SIZE := 1_000_000
  const HALF := 500_000

  function Large(): Reply { seq(SIZE, _ => 'a') }

  function FirstBytes(): bytes { PrintAll(ONE) + PART }

  /** Requests are answered at once, at length; the client takes half of the first answer and
      then reads no more, so that its receive buffer and the send buffer stay full. */
  function SlowWorld(): World {
    var page: Reply := "page";
    World(
      0, 1, n => Some(PEER), n => NotForked, n => true, n => true,
      n => Received(FirstBytes()), n => if n == 6 then Wrote(HALF) else NotWritable, n => None,
      (r, n) => Respond(Large()), (o, n) => page, (p, n) => page, (n, keys) => [])
  }

  lemma PartRead()
    ensures Drain(PART, 0) == ReadOut([], PART, None)
  {
    assert Find(PART, CRLF_CRLF).None?;
    hide Find;
  }

  lemma FirstBytesRead()
    ensures Drain(FirstBytes(), 0) == ReadOut([Meaning(Simple())], PART, None) && FirstBytes() != []
  {
    hide Meaning, Simple, PrintAll, Drain, Meanings;
    SimpleRead(ONE);
    SimpleMeanings(ONE);
    PartRead();
    DrainAppend(PrintAll(ONE), PART, 0);
    assert [] + PART == PART && [Meaning(Simple())] + [] == [Meaning(Simple())];
  }

  /** The connection once its request has been read and answered. */
  function Filled(): Conn { Answered(Opened(FirstBytes(), [Meaning(Simple())], PART).conns[PEER], Large(), Handled) }

  /** The loop when half of the answer has been taken. */
  function Blocked(): Loop {
    Opened(FirstBytes(), [Meaning(Simple())], PART).(
      conns := map[PEER := Advanced(Filled(), HALF, 0)],
      k := KernelAfter(7).(interest := map[3 := Readable, PEER := Writable]))
  }

  lemma FilledFacts()
    ensures var c := Filled();
            && c.PendingWrite() == Large() && !c.WriteComplete() && c.requests == [] && c.lastActivity == 0
            && c.readBuf == PART && !c.awaitingCgi && c.log.items == [Answer(Meaning(Simple()), Large(), Handled)]
            && c.log.sent == []
  {
    hide Meaning, Simple, FirstBytes;
  }

  lemma BlockedFacts()
    ensures var s := Blocked();
            && s.clock == 0 && s.lastSweep == 0 && PEER in s.conns && !s.conns[PEER].awaitingCgi
            && s.conns[PEER].readBuf == PART && s.conns[PEER].lastActivity == 0
            && s.conns[PEER].PendingWrite() == Large()[HALF..] && s.conns[PEER].log.sent == Large()[..HALF]
            && s.conns[PEER].log.items == [Answer(Meaning(Simple()), Large(), Handled)] && s.k.interest[PEER] == Writable
  {
    hide Meaning, Simple, FirstBytes, Large, Answered;
    FilledFacts();
    HalfLeft(Filled());
  }

  lemma HalfLeft(c: Conn)
    requires c.PendingWrite() == Large()
    ensures var c' := Advanced(c, HALF, 0);
            && c'.PendingWrite() == Large()[HALF..] && !c'.WriteComplete() && c'.log.sent == c.log.sent + Large()[..HALF]
  {}

  /** The loop when the answer is queued. */
  function Queued(): Loop {
    Blocked().(conns := map[PEER := Filled()], k := Blocked().k.(calls := 6))
  }

  lemma SlowDispatch()
    ensures Run(Start(LISTENERS, 0), SlowWorld(), [OPENING]) == Queued()
  {
    hide Run, Start, Drain, Meaning, Simple, FirstBytes, Large, Answered, Advanced;
    var w := SlowWorld();
    FirstBytesRead();
    FirstTick(w, FirstBytes(), [Meaning(Simple())], PART);
    FilledFacts();
    var s := Opened(FirstBytes(), [Meaning(Simple())], PART);
    var s1 := SetConn(s.(k := Called(s.k)), PEER, Filled());
    assert Dispatch(s, w, PEER) == Dispatch(s1, w, PEER) == s1;
    hide Dispatch, Filled;
    assert Arm(s1, w, PEER) == Queued();
  }

  lemma SlowWrite()
    ensures Handle(Queued(), SlowWorld(), WRITE) == Blocked()
  {
    hide Meaning, Simple, FirstBytes, Large, Answered, Advanced, Filled;
    var s, w := Queued(), SlowWorld();
    FilledFacts();
    HalfLeft(Filled());
    LargeSize();
    assert Write(s.k, w, s.conns[PEER].PendingWrite()) == (Called(s.k), Wrote(HALF));
    hide Write;
    assert ClientWritable(s, w, PEER) == AfterWrite(s.(k := Called(s.k)), w, PEER, HALF);
  }

  lemma LargeSize()
    ensures |Large()| == SIZE
  {}

  lemma SlowTicks()
    ensures Run(Start(LISTENERS, 0), SlowWorld(), [OPENING, WRITING]) == Blocked()
  {
    hide Run, Start, SlowWorld, Queued, Blocked, Handle, Sweep;
    var s0, w := Start(LISTENERS, 0), SlowWorld();
    assert [OPENING] + [WRITING] == [OPENING, WRITING];
    RunAppend(s0, w, [OPENING], [WRITING]);
    SlowDispatch();
    SlowSweep();
    OneTick(Queued(), w, WRITING);
    assert [WRITE][1..] == [];
    assert HandleAll(Queued(), w, [WRITE]) == HandleAll(Handle(Queued(), w, WRITE), w, []);
    SlowWrite();
  }

  lemma SlowSweep()
    ensures Sweep(Queued(), SlowWorld()) == Queued()
  {
    hide Meaning, Simple, FirstBytes, Large, Answered, Advanced, Filled, SlowWorld, Sorted;
    var s := Queued();
    assert (forall o :: o !in TimedOut(s)) ==> TimedOut(s) == {};
  }

  /** A second in which nothing happens. */
  const PAUSE := Tick(-1, 1000, false, [])

  function Pauses(n: nat): seq<Tick> { if n == 0 then [] else [PAUSE] + Pauses(n - 1) }

  lemma {:induction false} PausesQuiet(n: nat, id: Fd)
    ensures AllQuiet(Pauses(n), id)
    decreases n
  {
    if n > 0 {
      PausesQuiet(n - 1, id);
      assert forall i :: 0 < i < |Pauses(n)| ==> Pauses(n)[i] == Pauses(n - 1)[i - 1];
    }
  }

  /** Idle sweeps come every other second, and from the tenth on they find nothing new. */
  lemma {:induction false} TwoSeconds(clock: nat, n: nat)
    requires clock >= 2000 && clock % 2000 == 0
    ensures Timeouts(clock, clock - 2000, 0, Pauses(2 * n)) ==
            if clock >= 10_000 then n else if clock + 2000 * n <= 10_000 then 0 else n - (10_000 - clock) / 2000
    decreases n
  {
    if n > 0 {
      var rest := Pauses(2 * n - 1);
      assert Pauses(2 * n)[1..] == rest && rest[1..] == Pauses(2 * (n - 1));
      TwoSeconds(clock + 2000, n - 1);
      assert Timeouts(clock + 1000, clock, 0, rest) == Timeouts(clock + 2000, clock, 0, Pauses(2 * (n - 1)));
    }
  }

  lemma PauseTimeouts(n: nat)
    ensures Timeouts(0, 0, 0, Pauses(2 * (n + 5))) == n
  {
    var rest := Pauses(2 * n + 9);
    assert Pauses(2 * (n + 5))[1..] == rest && rest[1..] == Pauses(2 * (n + 4));
    TwoSeconds(2000, n + 4);
    assert Timeouts(1000, 0, 0, rest) == Timeouts(2000, 0, 0, Pauses(2 * (n + 4)));
  }

  /** A client sends one request and the first byte of another, and stops reading in the middle of
      the answer: behind that, as many 408s are queued as one cares to wait for. */
  lemma TimeoutsHappen(n: nat)
    ensures var w := SlowWorld();
            var s := Run(Start(LISTENERS, 0), w, [OPENING, WRITING] + Pauses(2 * (n + 5)));
            && PEER in s.conns && s.conns[PEER].log.sent == Large()[..HALF]
            && |s.conns[PEER].log.items| == n + 1 && s.conns[PEER].log.items[0] == Answer(Meaning(Simple()), Large(), Handled)
            && forall i :: 1 <= i <= n ==> Is408(s.conns[PEER].log.items[i], w)
  {
    hide Run, Start, Timeouts, Pauses, Reachable, Good, AllQuiet, Is408, Blocked, SlowWorld, Large, Meaning, Simple;
    var w, s0 := SlowWorld(), Start(LISTENERS, 0);
    RunAppend(s0, w, [OPENING, WRITING], Pauses(2 * (n + 5)));
    SlowTicks();
    IsReachable(w, [OPENING, WRITING]);
    ReachableGood(Blocked(), w);
    PausesQuiet(2 * (n + 5), PEER);
    PauseTimeouts(n);
    BlockedFacts();
    TimeoutsCounted(Blocked(), w, Pauses(2 * (n + 5)), PEER);
  }

  // -------------------------------------------------------------- a lost answer

  /** When the last idle sweep was, after `n` more seconds. */
  function LastSweep(clock: nat, lastSweep: nat, n: nat): nat
    decreases n
  {
    if n == 0 then lastSweep
    else LastSweep(clock + 1000, if clock - lastSweep >= IDLE_SWEEP_INTERVAL then clock else lastSweep, n - 1)
  }

  lemma WaitingTick(clock: nat, lastSweep: nat, w: World, waited: nat)
    requires clock <= CGI_TIMEOUT
    ensures RunTick(Waiting().(clock := clock, lastSweep := lastSweep), w, Tick(-1, waited, false, [])) ==
            Waiting().(clock := clock + waited, lastSweep := if clock - lastSweep >= IDLE_SWEEP_INTERVAL then clock else lastSweep)
  {
    hide Waiting, Sweep;
    WaitingTables();
    WaitingSweep(Waiting().(clock := clock, lastSweep := lastSweep), w);
  }

  lemma {:induction false} WaitingPauses(clock: nat, lastSweep: nat, w: World, n: nat)
    requires clock + 1000 * n <= CGI_TIMEOUT + 1000
    ensures Run(Waiting().(clock := clock, lastSweep := lastSweep), w, Pauses(n)) ==
            Waiting().(clock := clock + 1000 * n, lastSweep := LastSweep(clock, lastSweep, n))
    decreases n
  {
    hide Waiting, RunTick;
    if n > 0 {
      WaitingTick(clock, lastSweep, w, 1000);
      assert Pauses(n)[1..] == Pauses(n - 1);
      WaitingPauses(clock + 1000, if clock - lastSweep >= IDLE_SWEEP_INTERVAL then clock else lastSweep, w, n - 1);
    }
  }

  const SHORT := Tick(-1, 500, false, [])

  function LateTicks(): seq<Tick> { [OPENING, SHORT] + Pauses(10) }

  /** The CGI is half a second over its time. */
  function Late(): Loop { Waiting().(clock := 10_500, lastSweep := 8_500) }

  lemma LateSweep()
    ensures LastSweep(500, 0, 10) == 8_500
  {
    assert LastSweep(8_500, 6_500, 2) == 8_500;
    assert LastSweep(4_500, 2_500, 6) == 8_500;
  }

  lemma LateRun()
    ensures Run(Start(LISTENERS, 0), RunningWorld([]), LateTicks()) == Late()
  {
    hide Run, Start, Waiting, LastSweep, RunTick, Pauses;
    var w, s0 := RunningWorld([]), Start(LISTENERS, 0);
    CgiRuns([]);
    assert LateTicks() == [OPENING] + [SHORT] + Pauses(10);
    RunAppend(s0, w, [OPENING] + [SHORT], Pauses(10));
    RunAppend(s0, w, [OPENING], [SHORT]);
    WaitingTables();
    assert Waiting().(clock := 0, lastSweep := 0) == Waiting();
    WaitingTick(0, 0, w, 500);
    ShortRun(Waiting(), w);
    WaitingPauses(500, 0, w, 10);
    LateSweep();
  }

  lemma ShortRun(s: Loop, w: World)
    ensures Run(s, w, [SHORT]) == RunTick(s, w, SHORT)
  {
    hide RunTick;
    assert Run(s, w, [SHORT]) == Run(RunTick(s, w, SHORT), w, [SHORT][1..]);
  }

  lemma LateFacts()
    ensures var s := Late();
            && s.cgis.Keys == {7} && s.cgis[7].client == PEER && 7 in TimedOut(s)
            && s.conns.Keys == {PEER} && s.conns[PEER].requests == [] && s.conns[PEER].readBuf == []
            && s.conns[PEER].log.sent == [] && s.conns[PEER].log.items == []
            && s.conns[PEER].log.dispatched == [Meaning(Simple())] && s.conns[PEER].lastActivity == 0
  {
    hide Meaning, Simple, PrintAll;
  }

  /** The only request of a client is for a CGI that takes too long: with an idle sweep every
      two seconds, counted from the half second, the connection is closed before anything
      at all has been sent on it. */
  lemma AnswerLossHappens()
    ensures var w := RunningWorld([]);
            var s := Run(Start(LISTENERS, 0), w, LateTicks());
            && PEER in s.conns && s.conns[PEER].log.dispatched == [Meaning(Simple())] && s.conns[PEER].log.sent == []
            && PEER !in Sweep(s, w).conns
  {
    hide Run, Start, Waiting, Late, LateTicks, Reachable, Sweep, Meaning, Simple, PrintAll, Waits, ToldLoop, TimedOut, Told, Rearms;
    var w := RunningWorld([]);
    LateRun();
    LateClock();
    LateFacts();
    IsReachable(w, LateTicks());
    AnswerLostIff(Late(), w, 7);
    NoneWait(ToldLoop(Late(), w, 7).k, w);
  }

  lemma LateClock()
    ensures Late().clock == 10_500 && Late().lastSweep == 8_500
  {
    hide Waiting;
  }
}
