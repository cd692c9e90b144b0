/** What the idle sweep does to connections, and what becomes of the answer to a
    CGI process that timed out. */
module LoopIdle {
  import opened Bytes
  import opened Kernel
  import opened Loop
  import opened LoopInvariants
  import opened LoopHandlers
  import opened LoopRuns
  import opened LoopResults

  // ------------------------------------------------------------- the idle sweep

  predicate IsIdle(s: Loop, c: Conn) { !c.awaitingCgi && s.clock - c.lastActivity >= IDLE_TIMEOUT }

  /** One connection after it has been found idle: told so by the 408 and about to be closed, or gone. */
  ghost predicate Expired(c: Conn, s: Loop, id: Fd, w: World) {
    if c.readBuf == [] then id !in s.conns
    else
      && id in s.conns
      && exists reply: bytes :: IsPage(w, TimeoutPage, reply) && s.conns[id] == QueueWriteAndClose(c, Notice(TimeoutPage, reply))
  }

  ghost predicate Kept(s: Loop, s': Loop, id: Fd) {
    id in s.conns && id in s'.conns && s'.conns[id] == s.conns[id]
  }

  lemma ExpireOne(s: Loop, w: World, id: Fd, x: Fd)
    requires Sound(s, w) && x in s.conns
    ensures var s' := ExpireConnection(s, w, id);
            if x == id then Expired(s.conns[id], s', id, w) else Kept(s, s', x)
  {
    hide Sound, RemoveConnection, QueueWriteAndClose, ArmWrite;
    if id in s.conns && s.conns[id].readBuf != [] {
      var reply := w.page(TimeoutPage, s.k.calls);
      assert IsPage(w, TimeoutPage, reply);
      var c := QueueWriteAndClose(s.conns[id], Notice(TimeoutPage, reply));
      ArmShape(SetConn(s, id, c), w, id);
    } else {
      RemovedConns(s, w, id);
    }
  }

  lemma RemovedConns(s: Loop, w: World, id: Fd)
    ensures RemoveConnection(s, w, id).conns == s.conns - {id}
  {
    hide DropOrphans, Listing, CgisOf;
    var s1 := Unhooked(s, id);
    assert s1.conns == s.conns - {id};
    DropOrphansShape(s1, w, Listing(CgisOf(s1, id), w, s1.k.calls));
  }

  lemma {:induction false} ExpireEach(s: Loop, w: World, ids: seq<Fd>, x: Fd)
    requires Sound(s, w) && x in s.conns && Different(ids)
    ensures var s' := ExpireAll(s, w, ids);
            if x in ids then Expired(s.conns[x], s', x, w) else Kept(s, s', x)
    decreases |ids|, 0
  {
    hide Sound, ExpireConnection, Expired, Evolves;
    if ids != [] {
      var s1 := ExpireConnection(s, w, ids[0]);
      ExpireOne(s, w, ids[0], x);
      ExpireGood(s, w, ids[0]);
      if x == ids[0] {
        ExpiredStays(s.conns[x], s1, w, ids[1..], x);
      } else {
        ExpireEach(s1, w, ids[1..], x);
      }
    }
  }

  /** Later expiries leave an expired connection alone. */
  lemma ExpiredStays(c: Conn, s: Loop, w: World, ids: seq<Fd>, x: Fd)
    requires Sound(s, w) && Expired(c, s, x, w) && x !in ids && Different(ids)
    ensures Expired(c, ExpireAll(s, w, ids), x, w)
    decreases |ids|, 1
  {
    hide Sound, ExpireAll, QueueWriteAndClose, Evolves;
    if x in s.conns {
      ExpireEach(s, w, ids, x);
    } else {
      ExpireAllGood(s, w, ids);
      hide Different;
      InstancesStay(s, ExpireAll(s, w, ids), w, x);
    }
  }

  lemma InstancesStay(s: Loop, s': Loop, w: World, x: Fd)
    requires Evolves(s, s', w) && x !in s.conns
    ensures x !in s'.conns
  {
    hide Ages;
  }

  /** Exactly the idle connections that wait for no CGI are affected: with part of a request
      read they get a 408 and are closed once it is sent, otherwise they are closed at once. */
  lemma IdleSweepOutcome(s: Loop, w: World, id: Fd)
    requires Sound(s, w) && id in s.conns
    ensures var s' := SweepIdleConnections(s, w);
            if IsIdle(s, s.conns[id]) then Expired(s.conns[id], s', id, w) else Kept(s, s', id)
  {
    hide Sound, ExpireAll, Expired, Listing;
    var ids := Listing(IdleConnections(s), w, s.k.calls);
    assert Different(ids);
    ExpireEach(s, w, ids, id);
  }

  // ------------------------------------------------- answers to timed-out processes

  /** Arming a connection that has something to write keeps it exactly if the interest in it can be changed. */
  lemma ArmKeepsIff(s: Loop, w: World, id: Fd)
    requires Inv(s, w, None) && id in s.conns && s.conns[id].PendingWrite() != []
    ensures var s' := Arm(s, w, id);
            && (id in s'.conns <==> w.modifies_(s.k.calls))
            && (id in s'.conns ==> s' == s.(k := s'.k))
  {
    hide RemoveConnection, Inv, Tables;
    InvBasics(s, w, None);
    Interested(s, id);
    RemovedConns(ArmWrite(s, w, id).0, w, id);
  }

  lemma {:induction false} DispatchPends(s: Loop, w: World, id: Fd)
    requires id in s.conns && s.conns[id].PendingWrite() != []
    ensures id in Dispatch(s, w, id).conns && Dispatch(s, w, id).conns[id].PendingWrite() != []
    decreases |s.conns[id].requests|
  {
    hide SpawnCgi, Conn.PendingWrite;
    if !Idle(s, id) {
      var c, s1 := s.conns[id], s.(k := Called(s.k));
      match w.handle(c.requests[0], s.k.calls)
      case Respond(reply) =>
        AnsweredPends(c, reply, Handled);
        DispatchPends(SetConn(s1, id, Answered(c, reply, Handled)), w, id);
      case StartCgi => SpawnPends(s1, w, id);
    }
  }

  lemma SpawnPends(s: Loop, w: World, id: Fd)
    requires id in s.conns && s.conns[id].requests != [] && s.conns[id].PendingWrite() != []
    ensures id in SpawnCgi(s, w, id).conns && SpawnCgi(s, w, id).conns[id].PendingWrite() != []
  {
    hide Spawn, OpenPipes, GiveUp, Abandoned, Answered, Conn.PendingWrite;
    var (k, answer) := Spawn(s.k, w);
    AnsweredPends(s.conns[id], w.page(ServerErrorPage, k.calls), Refused);
    if answer.Forked? {
      var (k2, stdin, ok) := OpenPipes(k, w, answer.child, s.conns[id].requests[0].body);
      AnsweredPends(s.conns[id], w.page(ServerErrorPage, GiveUp(k2, answer.child, stdin).calls), Refused);
      if ok { StartedPends(s, id, answer.child, stdin, k2); }
    }
  }

  lemma StartedPends(s: Loop, id: Fd, child: Child, stdin: Option<Fd>, k: Kernel)
    requires id in s.conns && s.conns[id].requests != []
    ensures var s' := Started(s, id, child, stdin, k);
            id in s'.conns && s'.conns[id].PendingWrite() == s.conns[id].PendingWrite()
  {}

  /** The loop when the client of process `o` has its answer and its queue is next. */
  ghost function Concluded(s: Loop, w: World, o: Fd, cause: Cause): Loop
    requires o in s.cgis && s.cgis[o].client in s.conns
  {
    ReleaseShape(s, w, o, cause);
    var (s1, answer) := Release(s, w, o, cause);
    Deliver(s1, w, s.cgis[o], OutcomeOf(w, s.cgis[o], answer, cause, s1.k.calls), cause, answer)
  }

  lemma ConcludedGood(s: Loop, w: World, o: Fd, cause: Cause)
    requires Sound(s, w) && o in s.cgis && s.cgis[o].client in s.conns && MayFinish(s, w, o, cause)
    ensures var s' := Concluded(s, w, o, cause);
            && Inv(s', w, None) && Settled(s', w, Some(s.cgis[o].client))
            && FinishCgi(s, w, o, cause) == ProcessQueued(s', w, s.cgis[o].client)
            && s'.cgis == s.cgis - {o}
  {
    hide Sound, Evolves, Released, Release, Deliver, Inv, Settled, OutcomeOf, ProcessQueued, Justified, AsksCgi, OutputOk, IsWait,
      CauseOk;
    ReleaseShape(s, w, o, cause);
    ReleaseGood(s, w, o, cause);
    var (s1, answer) := Release(s, w, o, cause);
    var reply := OutcomeOf(w, s.cgis[o], answer, cause, s1.k.calls);
    OutcomeJustified(w, s.cgis[o], answer, cause, s1.clock, s1.k.calls);
    DeliverGood(s1, w, s.cgis[o], reply, cause, answer);
    DeliverCgis(s1, w, s.cgis[o], reply, cause, answer);
  }

  /** Ending one process leaves the other processes and their clients alone. */
  lemma OthersUndisturbed(s: Loop, w: World, o: Fd, p: Fd, cause: Cause)
    requires Good(s, w) && o in s.cgis && p in s.cgis && o != p && MayFinish(s, w, o, cause)
    ensures var s' := FinishCgi(s, w, o, cause);
            p in s'.cgis && s'.cgis[p] == s.cgis[p] && Kept(s, s', s.cgis[p].client)
  {
    hide Good, Sound, FinishCgi, Evolves, AnswerQueued, GrowsBy, CauseOk;
    OutcomeReachesAsker(s, w, o, cause);
    SoundOf(s, w);
    TwoClients(s, w, o, p);
    FinishGood(s, w, o, cause);
  }

  lemma TwoClients(s: Loop, w: World, o: Fd, p: Fd)
    requires Sound(s, w) && o in s.cgis && p in s.cgis && o != p
    ensures s.cgis[o].client != s.cgis[p].client && s.cgis[p].client in s.conns && s.cgis[o].client in s.conns
  {
    hide Tables, Families, Stops, ConnsOk, CgisOk, LostOk, Settled;
  }

  /** The client of a process that timed out: the 500 for its request is on the stream, and
      that does not count as activity. */
  ghost predicate Told(c: Conn, c': Conn, w: World, cgi: Cgi) {
    && c'.readBuf == c.readBuf && c'.lastActivity == c.lastActivity
    && exists item: Item :: Tells(item, w, cgi) && c.log.items + [item] <= c'.log.items
  }

  ghost predicate Tells(item: Item, w: World, cgi: Cgi) {
    item.Answer? && item.request == cgi.request && IsPage(w, ServerErrorPage, item.reply)
  }

  /** The interest in the connection can be changed when its queue has been drained. */
  predicate Rearms(s: Loop, w: World, id: Fd) { w.modifies_(Dispatch(s, w, id).k.calls) }

  /** The client of a process that ended stays exactly if its connection can be armed. */
  lemma FinishStaysIff(s: Loop, w: World, o: Fd, cause: Cause)
    requires Good(s, w) && o in s.cgis && s.cgis[o].client in s.conns && MayFinish(s, w, o, cause)
    ensures var id, s', at := s.cgis[o].client, FinishCgi(s, w, o, cause), Concluded(s, w, o, cause);
            && id in at.conns
            && (id in s'.conns <==> Rearms(at, w, id))
            && (id in s'.conns ==> s'.conns == Dispatch(at, w, id).conns)
  {
    hide Good, Sound, Inv, Settled, FinishCgi, Arm, Dispatch, Concluded, Evolves, Conn.PendingWrite;
    SoundOf(s, w);
    ConcludedGood(s, w, o, cause);
    ConcludedConn(s, w, o, cause);
    var id, s1 := s.cgis[o].client, Concluded(s, w, o, cause);
    DispatchGood(s1, w, id);
    DispatchPends(s1, w, id);
    ArmKeepsIff(Dispatch(s1, w, id), w, id);
  }

  /** The client of a process that timed out is told if it stays, and then waits again exactly
      if the first CGI request in its queue is not refused. */
  lemma ClientTold(s: Loop, w: World, o: Fd)
    requires Good(s, w) && o in TimedOut(s) && s.cgis[o].client in s.conns
    ensures var cgi, id, s', at := s.cgis[o], s.cgis[o].client, FinishCgi(s, w, o, TookTooLong), Concluded(s, w, o, TookTooLong);
            && (id in s'.conns <==> Rearms(at, w, id))
            && (id in s'.conns ==>
                  && Told(s.conns[id], s'.conns[id], w, cgi)
                  && (s'.conns[id].awaitingCgi <==> Waits(s.conns[id].requests, at.k, w)))
  {
    hide Good, FinishCgi, Dispatch, Waits, Concluded, Conn.PendingWrite, GrowsBy, AnswerQueued, Told, Rearms;
    OutcomeReachesAsker(s, w, o, TookTooLong);
    FinishStaysIff(s, w, o, TookTooLong);
    var cgi, id, s' := s.cgis[o], s.cgis[o].client, FinishCgi(s, w, o, TookTooLong);
    ConcludedConn(s, w, o, TookTooLong);
    WaitIff(Concluded(s, w, o, TookTooLong), w, id);
    if id in s'.conns { AnsweredTold(s.conns[id], s'.conns[id], w, cgi, s.clock); }
  }

  lemma AnsweredTold(c: Conn, c': Conn, w: World, cgi: Cgi, at: nat)
    requires GrowsBy(c, c') && AnswerQueued(c, c', w, cgi, TookTooLong, at)
    ensures Told(c, c', w, cgi)
  {
    hide IsPage, IsWait;
    var item: Item :| AnswersFor(w, item, cgi, TookTooLong, at) && c.log.items + [item] <= c'.log.items;
    assert Tells(item, w, cgi);
  }

  lemma ConcludedConn(s: Loop, w: World, o: Fd, cause: Cause)
    requires o in s.cgis && s.cgis[o].client in s.conns
    ensures var id, s' := s.cgis[o].client, Concluded(s, w, o, cause);
            && id in s'.conns && s'.conns[id].requests == s.conns[id].requests && !s'.conns[id].awaitingCgi
            && s'.conns[id].PendingWrite() != []
  {
    hide Release, OutcomeOf, QueueWrite, Conn.PendingWrite;
    ReleaseShape(s, w, o, cause);
    var cgi := s.cgis[o];
    var (s1, answer) := Release(s, w, o, cause);
    var reply := OutcomeOf(w, cgi, answer, cause, s1.k.calls);
    var item := Answer(cgi.request, reply, Ran(cgi, cause, answer, s1.clock));
    QueuedPends(s1.conns[cgi.client].(awaitingCgi := false), item);
    QueueShape(s1.conns[cgi.client].(awaitingCgi := false), item);
  }

  lemma QueueShape(c: Conn, item: Item)
    ensures QueueWrite(c, item).requests == c.requests && QueueWrite(c, item).awaitingCgi == c.awaitingCgi
  {}

  lemma FinishKeepsGood(s: Loop, w: World, o: Fd, cause: Cause)
    requires Good(s, w) && MayFinish(s, w, o, cause)
    ensures Good(FinishCgi(s, w, o, cause), w) && FinishCgi(s, w, o, cause).clock == s.clock
  {
    hide Sound, Evolves, Numbered, FinishCgi;
    FinishGood(s, w, o, cause);
    EvolvedGood(s, FinishCgi(s, w, o, cause), w);
  }

  /** The first of the late processes has ended: the others run on, and are still late. */
  ghost predicate Others(s: Loop, s': Loop, os: seq<Fd>)
    requires os != []
  {
    && AllLate(s', os[1..]) && os[0] in s.cgis
    && forall p :: p in os[1..] ==> p != os[0] && p in s.cgis && p in s'.cgis && s'.cgis[p] == s.cgis[p]
  }

  lemma LateStep(s: Loop, w: World, os: seq<Fd>)
    requires Good(s, w) && os != [] && AllLate(s, os)
    ensures var s' := FinishCgi(s, w, os[0], TookTooLong);
            Good(s', w) && s'.clock == s.clock && MayFinish(s, w, os[0], TookTooLong) && Others(s, s', os)
  {
    hide Good, Sound, FinishCgi, Evolves;
    LateMayFinish(s, w, os);
    FinishKeepsGood(s, w, os[0], TookTooLong);
    SoundOf(s, w);
    FinishGood(s, w, os[0], TookTooLong);
    StillLate(s, FinishCgi(s, w, os[0], TookTooLong), os);
    RestLate(s, os);
  }

  lemma RestLate(s: Loop, os: seq<Fd>)
    requires os != [] && AllLate(s, os)
    ensures forall p :: p in os[1..] ==> p != os[0] && p in s.cgis
  {
    forall p | p in os[1..] ensures p != os[0] && p in s.cgis {
      var i :| 0 <= i < |os[1..]| && os[1..][i] == p;
      assert os[i + 1] == p && p in os && p in TimedOut(s);
    }
  }

  /** A connection that waits for no process is not touched when processes end. */
  lemma {:induction false} BystanderKept(s: Loop, w: World, os: seq<Fd>, id: Fd)
    requires Good(s, w) && AllLate(s, os) && id in s.conns && !s.conns[id].awaitingCgi
    ensures Kept(s, FinishAll(s, w, os), id)
    decreases |os|
  {
    hide Good, Sound, FinishCgi, AllLate, MayFinish, AnswerQueued, GrowsBy;
    if os != [] {
      var s1 := FinishCgi(s, w, os[0], TookTooLong);
      LateStep(s, w, os);
      OutcomeReachesAsker(s, w, os[0], TookTooLong);
      SoundOf(s, w);
      AskerWaits(s, w, os[0]);
      BystanderKept(s1, w, os[1..], id);
    }
  }

  lemma AskerWaits(s: Loop, w: World, o: Fd)
    requires Sound(s, w) && o in s.cgis
    ensures s.cgis[o].client in s.conns && s.conns[s.cgis[o].client].awaitingCgi
  {
    hide Tables, Families, Stops, ConnsOk, CgisOk, LostOk, Settled;
  }

  /** These processes run, none of them for `id`. */
  predicate WorkElsewhere(s: Loop, os: seq<Fd>, id: Fd) {
    forall p :: p in os ==> p in s.cgis && s.cgis[p].client != id
  }

  lemma {:induction false} ServedElsewhere(s: Loop, w: World, os: seq<Fd>, id: Fd)
    requires Good(s, w) && AllLate(s, os) && WorkElsewhere(s, os, id) && id in s.conns
    ensures Kept(s, FinishAll(s, w, os), id)
    decreases |os|
  {
    hide Good, Sound, FinishCgi, AllLate, MayFinish, AnswerQueued, GrowsBy;
    if os != [] {
      var s1 := FinishCgi(s, w, os[0], TookTooLong);
      LateStep(s, w, os);
      OutcomeReachesAsker(s, w, os[0], TookTooLong);
      assert os[0] in os && forall p :: p in os[1..] ==> p in os;
      ServedElsewhere(s1, w, os[1..], id);
    }
  }

  /** The loop when, of the processes `os` that end one after the other, `o` has just ended
      and its client been told. */
  ghost function LoopAt(s: Loop, w: World, os: seq<Fd>, o: Fd): Loop
    decreases |os|
  {
    if os == [] then s
    else if os[0] == o && o in s.cgis && s.cgis[o].client in s.conns then Concluded(s, w, o, TookTooLong)
    else LoopAt(FinishCgi(s, w, os[0], TookTooLong), w, os[1..], o)
  }

  lemma {:induction false} GoneStays(s: Loop, w: World, os: seq<Fd>, id: Fd)
    requires Good(s, w) && AllLate(s, os) && id !in s.conns
    ensures id !in FinishAll(s, w, os).conns
    decreases |os|
  {
    hide Good, Sound, Evolves, FinishCgi, AllLate, MayFinish;
    if os != [] {
      SoundOf(s, w);
      LateStep(s, w, os);
      FinishGood(s, w, os[0], TookTooLong);
      InstancesStay(s, FinishCgi(s, w, os[0], TookTooLong), w, id);
      GoneStays(FinishCgi(s, w, os[0], TookTooLong), w, os[1..], id);
    }
  }

  /** The client of `o`, when all the processes have ended, is told if it is still there. */
  ghost predicate ToldOrGone(s: Loop, s': Loop, at: Loop, w: World, o: Fd)
    requires o in s.cgis && s.cgis[o].client in s.conns
  {
    var cgi, id := s.cgis[o], s.cgis[o].client;
    && (id in s'.conns <==> Rearms(at, w, id))
    && (id in s'.conns ==>
          && Told(s.conns[id], s'.conns[id], w, cgi)
          && (s'.conns[id].awaitingCgi <==> Waits(s.conns[id].requests, at.k, w)))
  }

  lemma IsLateOne(s: Loop, os: seq<Fd>, o: Fd)
    requires AllLate(s, os) && o in os
    ensures o in TimedOut(s) && o in s.cgis
  {}

  lemma {:induction false} ClientToldAmongAll(s: Loop, w: World, os: seq<Fd>, o: Fd)
    requires Good(s, w) && AllLate(s, os) && o in os && o in s.cgis && s.cgis[o].client in s.conns
    ensures ToldOrGone(s, FinishAll(s, w, os), LoopAt(s, w, os, o), w, o)
    decreases |os|
  {
    hide Good, Sound, FinishCgi, Told, Waits, Concluded, Rearms, AllLate, MayFinish, TimedOut, AnswerQueued, GrowsBy;
    var id, s1 := s.cgis[o].client, FinishCgi(s, w, os[0], TookTooLong);
    LateStep(s, w, os);
    SoundOf(s, w);
    if os[0] == o {
      IsLateOne(s, os, o);
      ClientTold(s, w, o);
      forall p | p in os[1..] ensures p in s1.cgis && s1.cgis[p].client != id {
        TwoClients(s, w, o, p);
      }
      if id in s1.conns {
        ServedElsewhere(s1, w, os[1..], id);
      } else {
        GoneStays(s1, w, os[1..], id);
      }
    } else {
      assert o in os[1..];
      OthersUndisturbed(s, w, os[0], o, TookTooLong);
      ClientToldAmongAll(s1, w, os[1..], o);
    }
  }

  /** What the idle sweep leaves of a client that has been told. */
  lemma ToldThen(c: Conn, c': Conn, w: World, cgi: Cgi, s: Loop, id: Fd)
    requires Told(c, c', w, cgi) && Expired(c', s, id, w)
    ensures if c.readBuf == [] then id !in s.conns else id in s.conns && Told(c, s.conns[id], w, cgi)
  {
    hide IsPage;
    if c'.readBuf != [] {
      var page: bytes :| s.conns[id] == QueueWriteAndClose(c', Notice(TimeoutPage, page));
      assert c'.log.items <= s.conns[id].log.items;
    }
  }

  /** The loop when the client of `o`, which has timed out, is told by the sweep. */
  ghost function ToldLoop(s: Loop, w: World, o: Fd): Loop {
    LoopAt(s, w, Listing(TimedOut(s), w, s.k.calls), o)
  }

  /** A process has timed out.  The sweeps of the next tick queue the 500 for its client, but
      they close the connection before a byte of it is sent exactly when the interest in it cannot
      be changed, or the idle sweep is due, the client has been silent for the idle timeout (the
      wait for the process counts), has sent no further bytes, and is not made to wait again by
      the requests queued behind. */
  lemma AnswerLostIff(s: Loop, w: World, o: Fd)
    requires Reachable(s, w) && o in s.cgis && o in TimedOut(s)
    ensures var cgi, id, s' := s.cgis[o], s.cgis[o].client, Sweep(s, w);
            && id in s.conns
            && (id !in s'.conns <==>
                  || !Rearms(ToldLoop(s, w, o), w, id)
                  || (&& s.clock - s.lastSweep >= IDLE_SWEEP_INTERVAL
                      && s.clock - s.conns[id].lastActivity >= IDLE_TIMEOUT
                      && s.conns[id].readBuf == []
                      && !Waits(s.conns[id].requests, ToldLoop(s, w, o).k, w)))
            && (id in s'.conns ==> Told(s.conns[id], s'.conns[id], w, cgi))
  {
    hide Reachable, Good, Sound, FinishAll, Listing, Told, SweepPendingReaps, SweepIdleConnections, Expired, Waits,
      LoopAt, Rearms;
    ReachableGood(s, w);
    SoundOf(s, w);
    AskerWaits(s, w, o);
    var id, os := s.cgis[o].client, Listing(TimedOut(s), w, s.k.calls);
    assert AllLate(s, os);
    hide TimedOut, AllLate;
    ClientToldAmongAll(s, w, os, o);
    var s1 := SweepCgiTimeouts(s, w);
    ReapedConns(s1, w);
    var s2 := SweepPendingReaps(s1, w);
    AgedGood(s, w);
    SoundOf(s2, w);
    FrameOf(s, w);
    if id in s2.conns {
      IdleSweepOutcome(s2, w, id);
      ToldSame(s.conns[id], s2.conns[id], w, s.cgis[o]);
      if IsIdle(s2, s2.conns[id]) {
        ToldThen(s.conns[id], s2.conns[id], w, s.cgis[o], SweepIdleConnections(s2, w), id);
      }
    } else {
      GoneUnswept(s2, w, id);
    }
  }

  lemma GoneUnswept(s: Loop, w: World, id: Fd)
    requires Sound(s, w) && id !in s.conns
    ensures id !in SweepIdleConnections(s, w).conns
  {
    hide Sound, ExpireAll, Listing, IdleConnections, Evolves;
    var ids := Listing(IdleConnections(s), w, s.k.calls);
    ExpireAllGood(s, w, ids);
    InstancesStay(s, ExpireAll(s, w, ids), w, id);
  }

  lemma ToldSame(c: Conn, c': Conn, w: World, cgi: Cgi)
    requires Told(c, c', w, cgi)
    ensures c'.readBuf == c.readBuf && c'.lastActivity == c.lastActivity
  {}

  lemma ReapedConns(s: Loop, w: World)
    ensures SweepPendingReaps(s, w).conns == s.conns && SweepPendingReaps(s, w).clock == s.clock
  {}

  lemma FrameOf(s: Loop, w: World)
    requires Good(s, w)
    ensures var s' := SweepPendingReaps(SweepCgiTimeouts(s, w), w); s'.lastSweep == s.lastSweep && s'.clock == s.clock
  {
    hide Sound, SweepPendingReaps, SweepCgiTimeouts, Within, Ages, SameInstances;
    SweepAgedGood(s, w);
  }
}
