/** Every handler keeps the loop in a good state, whatever the kernel answers. */
module LoopHandlers {
  import opened Bytes
  import opened Parser
  import opened Kernel
  import opened Loop
  import opened LoopInvariants

  /** Changing the interest in a watched descriptor never fails. */
  ghost predicate Reliable(w: World) { forall n: nat :: w.modifies_(n) }

  /** Nothing to write: the loop waits for input only. */
  predicate Calm(c: Conn, i: Interest) { c.PendingWrite() == [] ==> i == Readable }

  /** Something to write: the loop waits until it can. */
  predicate Alert(c: Conn, i: Interest) { c.PendingWrite() != [] ==> i == Writable }

  /** Requests wait only for a CGI, or behind one whose CGI could not be started. */
  predicate Moving(c: Conn) {
    c.requests != [] ==> c.awaitingCgi || EndsRefused(c.log.items)
  }

  /** No wakeup is lost, none is superfluous and no pipeline stalls; a handler may be
      in the middle of seeing to the connection `busy`. */
  ghost predicate Settled(s: Loop, w: World, busy: Option<Fd>) {
    && (forall id :: id in s.conns && Some(id) != busy ==> Moving(s.conns[id]))
    && (Reliable(w) ==>
          && (forall id :: id in s.conns ==> id in s.k.interest && Calm(s.conns[id], s.k.interest[id]))
          && (forall id :: id in s.conns && Some(id) != busy ==> id in s.k.interest && Alert(s.conns[id], s.k.interest[id])))
  }

  /** The same for every connection but one that is about to go. */
  ghost predicate SettledBut(s: Loop, w: World, gone: Fd) {
    && (forall id :: id in s.conns && id != gone ==> Moving(s.conns[id]))
    && (Reliable(w) ==> forall id :: id in s.conns && id != gone ==>
          id in s.k.interest && Calm(s.conns[id], s.k.interest[id]) && Alert(s.conns[id], s.k.interest[id]))
  }

  lemma SettledIsBut(s: Loop, w: World, gone: Fd)
    requires Settled(s, w, None) || Settled(s, w, Some(gone))
    ensures SettledBut(s, w, gone)
  {
    hide Moving, Calm, Alert, Reliable;
  }

  /** What changes only in one direction, or only for new processes. */
  ghost predicate Evolves(s: Loop, s': Loop, w: World) {
    SameFrame(s, s') && SameInstances(s, s') && Ages(s, s', w)
  }

  /** Processes that were not running before have started just now. */
  ghost predicate Ages(s: Loop, s': Loop, w: World) {
    && s'.clock == s.clock
    && (forall o :: o in s'.cgis ==>
          s'.cgis[o].startedAt == s.clock || (o in s.cgis && s'.cgis[o].startedAt == s.cgis[o].startedAt))
    && (Tidy(w) ==> s'.lost == s.lost)
  }

  /** The state between any two handlers. */
  ghost predicate Sound(s: Loop, w: World) {
    Inv(s, w, None) && Settled(s, w, None)
  }

  lemma EvolvesTrans(a: Loop, b: Loop, c: Loop, w: World)
    requires Evolves(a, b, w) && Evolves(b, c, w)
    ensures Evolves(a, c, w)
  {
    hide Tidy;
  }

  // -------------------------------------------------------------------- settling

  /** A kernel step that leaves the interest in connections alone. */
  lemma QuietSettled(s: Loop, w: World, busy: Option<Fd>, k: Kernel)
    requires Settled(s, w, busy) && k.interest == s.k.interest
    ensures Settled(s.(k := k), w, busy)
  {
    hide Moving, Calm, Alert, Reliable;
  }

  /** The busy connection changes; it stays calm. */
  lemma BusySettled(s: Loop, w: World, id: Fd, c: Conn)
    requires Settled(s, w, None) || Settled(s, w, Some(id))
    requires id in s.conns && (c.PendingWrite() == [] ==> s.conns[id].PendingWrite() == [])
    ensures Settled(SetConn(s, id, c), w, Some(id))
  {
    hide Moving, Alert, Reliable;
  }

  lemma RemovedSettled(s: Loop, s': Loop, w: World, id: Fd)
    requires SettledBut(s, w, id) && Removed(s, s', id)
    ensures Settled(s', w, None)
  {
    hide Moving, Calm, Alert, Reliable;
  }

  lemma RemovedEvolves(s: Loop, s': Loop, w: World, id: Fd)
    requires Removed(s, s', id)
    ensures Evolves(s, s', w) && s'.conns.Keys == s.conns.Keys - {id}
  {
    hide KeptInterest, Tidy;
  }

  /** Everything about removing a connection. */
  lemma RemoveGood(s: Loop, w: World, id: Fd)
    requires Inv(s, w, None) && SettledBut(s, w, id)
    ensures var s' := RemoveConnection(s, w, id);
            Sound(s', w) && Evolves(s, s', w) && s'.conns.Keys == s.conns.Keys - {id}
  {
    hide Inv, Settled, SettledBut, Evolves, Removed, RemoveConnection;
    RemoveKeeps(s, w, id);
    var s' := RemoveConnection(s, w, id);
    RemovedSettled(s, s', w, id);
    RemovedEvolves(s, s', w, id);
  }

  /** Arming the busy connection for writing settles it. */
  lemma ArmedSettled(s: Loop, w: World, id: Fd)
    requires id in s.conns && Settled(s, w, Some(id)) && Moving(s.conns[id])
    requires Reliable(w) ==> id in s.k.interest
    requires s.conns[id].PendingWrite() != []
    ensures var (s', ok) := ArmWrite(s, w, id);
            && (ok ==> Settled(s', w, None))
            && (Reliable(w) ==> ok)
            && Settled(s', w, Some(id))
  {
    hide Moving;
    assert Reliable(w) ==> w.modifies_(s.k.calls);
  }

  lemma ArmGood(s: Loop, w: World, id: Fd)
    requires Inv(s, w, None) && Settled(s, w, Some(id)) && (id in s.conns ==> Moving(s.conns[id]))
    ensures var s' := Arm(s, w, id);
            Sound(s', w) && Evolves(s, s', w)
  {
    hide Inv, Settled, SettledBut, ConnOk, Moving, Tables, Evolves, RemoveConnection, ArmWrite, Conn.PendingWrite, Quiet;
    CalledEvolves(s, w);
    if id in s.conns && !s.conns[id].WriteComplete() {
      InvBasics(s, w, None);
      Interested(s, id);
      ConnOf(s, w, id);
      ArmShape(s, w, id);
      ArmEvolves(s, w, id);
      var (s1, ok) := ArmWrite(s, w, id);
      QuietKeeps(s, w, None, s1.k);
      PendingIff(s.conns[id], w);
      ArmedSettled(s, w, id);
      if !ok {
        SettledIsBut(s1, w, id);
        RemoveGood(s1, w, id);
        EvolvesTrans(s, s1, RemoveConnection(s1, w, id), w);
      }
    } else {
      NothingToArm(s, w, id);
    }
  }

  lemma ArmEvolves(s: Loop, w: World, id: Fd)
    ensures Evolves(s, ArmWrite(s, w, id).0, w)
  {
    hide Tidy;
  }

  lemma Interested(s: Loop, id: Fd)
    requires Tables(s) && id in s.conns
    ensures id in s.k.interest
  {}

  lemma PendingIff(c: Conn, w: World)
    requires ConnOk(c, w)
    ensures c.WriteComplete() <==> c.PendingWrite() == []
  {
    hide Ordered, Faithful, BytesOf;
  }

  lemma NothingToArm(s: Loop, w: World, id: Fd)
    requires Settled(s, w, Some(id)) && (id in s.conns ==> Moving(s.conns[id]) && s.conns[id].WriteComplete())
    ensures Settled(s, w, None)
  {
    hide Moving, Reliable;
  }

  // --------------------------------------------------------- draining the queue

  lemma RefusedSettled(s: Loop, w: World, id: Fd)
    requires id in s.conns && s.conns[id].requests != [] && Settled(s, w, Some(id))
    ensures Settled(SpawnRefused(s, w, id), w, Some(id))
  {
    hide Moving, Alert;
    assert Reliable(w) ==> w.modifies_(s.k.calls);
    AnsweredPends(s.conns[id], w.page(ServerErrorPage, s.k.calls), Refused);
    hide Answered;
  }

  lemma AnsweredPends(c: Conn, reply: Reply, origin: Origin)
    requires c.requests != []
    ensures Answered(c, reply, origin).PendingWrite() != []
  {}

  lemma SpawnSettled(s: Loop, w: World, id: Fd)
    requires Inv(s, w, None) && id in s.conns && s.conns[id].requests != [] && Settled(s, w, Some(id))
    ensures Settled(SpawnCgi(s, w, id), w, Some(id))
  {
    InvBasics(s, w, None);
    ConnsWatched(s);
    hide Inv, Tables, Spawn, OpenPipes, SpawnRefused, Started, GiveUp, Settled, PipesOpened, Abandoned;
    SpawnShape(s.k, w);
    var (k, answer) := Spawn(s.k, w);
    if !answer.Forked? {
      var s1 := s.(k := k, lost := Abandoned(s.lost, answer));
      SameSettled(s, s1, w, id);
      RefusedSettled(s1, w, id);
    } else {
      var body := s.conns[id].requests[0].body;
      OpenPipesShape(s.k, w, body);
      var (k2, stdin, ok) := OpenPipes(k, w, answer.child, body);
      if ok {
        StartedSettled(s, w, id, answer.child, stdin, k2, body);
      } else {
        ForgottenSettled(s, w, id, answer.child, stdin, k2, body);
        RefusedSettled(Forgotten(s, answer.child, stdin, k2), w, id);
      }
    }
  }

  lemma StartedSettled(s: Loop, w: World, id: Fd, child: Child, stdin: Option<Fd>, k: Kernel, body: bytes)
    requires id in s.conns && s.conns[id].requests != [] && Settled(s, w, Some(id))
    requires s.conns.Keys <= s.k.interest.Keys && s.k.interest.Keys <= s.k.open
    requires PipesOpened(s.k, k, child, stdin, true, body)
    ensures Settled(Started(s, id, child, stdin, k), w, Some(id))
  {
    hide Settled;
    WaitingSettled(s, Started(s, id, child, stdin, k), w, id);
  }

  lemma ForgottenSettled(s: Loop, w: World, id: Fd, child: Child, stdin: Option<Fd>, k: Kernel, body: bytes)
    requires Settled(s, w, Some(id)) && s.k.interest.Keys <= s.k.open
    requires PipesOpened(s.k, k, child, stdin, false, body)
    ensures Settled(Forgotten(s, child, stdin, k), w, Some(id))
  {
    GiveUpShape(s.k, k, child, stdin, body);
    hide GiveUp, Settled;
    SameSettled(s, Forgotten(s, child, stdin, k), w, id);
  }

  lemma ConnsWatched(s: Loop)
    requires Tables(s)
    ensures s.conns.Keys <= s.k.interest.Keys
  {}

  lemma SameSettled(s: Loop, s': Loop, w: World, id: Fd)
    requires Settled(s, w, Some(id)) && s'.conns == s.conns && s'.k.interest == s.k.interest
    ensures Settled(s', w, Some(id))
  {
    hide Moving, Calm, Alert, Reliable;
  }

  lemma WaitingSettled(s: Loop, s': Loop, w: World, id: Fd)
    requires Settled(s, w, Some(id)) && id in s.conns && s.conns[id].requests != []
    requires s'.conns == s.conns[id := Popped(s.conns[id]).(awaitingCgi := true)]
    requires s.conns.Keys <= s.k.interest.Keys
    requires forall x :: x in s.k.interest ==> x in s'.k.interest && s'.k.interest[x] == s.k.interest[x]
    ensures Settled(s', w, Some(id))
  {
    hide Moving, Alert, Reliable;
  }

  lemma RespondStep(s: Loop, w: World, id: Fd, reply: Reply)
    requires Inv(s, w, None) && Settled(s, w, Some(id)) && !Idle(s, id)
    requires w.handle(s.conns[id].requests[0], s.k.calls) == Respond(reply)
    ensures var s' := SetConn(s.(k := Called(s.k)), id, Answered(s.conns[id], reply, Handled));
            Inv(s', w, None) && Settled(s', w, Some(id)) && Evolves(s, s', w)
  {
    hide Evolves, Inv, Settled, ConnOk, Answered, SameTies, Tidy, IsResponse, Justified, Conn.PendingWrite;
    var c := Answered(s.conns[id], reply, Handled);
    var s1 := s.(k := Called(s.k));
    ResponseJustified(w, s.conns[id].requests[0], s.k.calls);
    ConnOf(s, w, id);
    AnsweredPends(s.conns[id], reply, Handled);
    QuietKeeps(s, w, None, s1.k);
    QuietSettled(s, w, Some(id), s1.k);
    AnsweredOk(s.conns[id], w, reply, Handled);
    SetConnKeeps(s1, w, None, id, c);
    BusySettled(s1, w, id, c);
    TiesEvolve(s, s1.k, id, c, w);
  }

  lemma ResponseJustified(w: World, request: HttpRequest, call: nat)
    requires w.handle(request, call).Respond?
    ensures Justified(w, request, w.handle(request, call).reply, Handled)
  {
    assert IsResponse(w, request, w.handle(request, call).reply);
  }

  lemma TiesEvolve(s: Loop, k: Kernel, id: Fd, c: Conn, w: World)
    requires id in s.conns && SameTies(s.conns[id], c)
    ensures Evolves(s, SetConn(s.(k := k), id, c), w)
  {
    hide Tidy;
  }

  lemma SpawnedEvolves(s: Loop, s': Loop, w: World, id: Fd)
    requires Spawned(s, s', w, id)
    ensures Evolves(s, s', w)
  {
    hide Tidy, GotRefusal;
  }

  lemma {:induction false} DispatchGood(s: Loop, w: World, id: Fd)
    requires Inv(s, w, None) && Settled(s, w, Some(id))
    ensures var s' := Dispatch(s, w, id);
            && Inv(s', w, None) && Settled(s', w, Some(id)) && Evolves(s, s', w)
            && s'.conns.Keys == s.conns.Keys
            && (id in s'.conns ==> Moving(s'.conns[id]))
    decreases if id in s.conns then |s.conns[id].requests| else 0
  {
    hide Inv, Settled, Evolves, SpawnCgi;
    if !Idle(s, id) {
      var c, s1 := s.conns[id], s.(k := Called(s.k));
      match w.handle(c.requests[0], s.k.calls)
      case Respond(reply) =>
        RespondStep(s, w, id, reply);
        var s2 := SetConn(s1, id, Answered(c, reply, Handled));
        DispatchGood(s2, w, id);
        EvolvesTrans(s, s2, Dispatch(s2, w, id), w);
      case StartCgi =>
        QuietKeeps(s, w, None, s1.k);
        QuietSettled(s, w, Some(id), s1.k);
        assert AsksCgi(w, c.requests[0]);
        SpawnKeeps(s1, w, id);
        SpawnSettled(s1, w, id);
        SpawnedEvolves(s1, SpawnCgi(s1, w, id), w, id);
        EvolvesTrans(s, s1, SpawnCgi(s1, w, id), w) by { CalledEvolves(s, w); }
    } else {
      CalledEvolves(s, w);
    }
  }

  lemma CalledEvolves(s: Loop, w: World)
    ensures Evolves(s, s, w) && Evolves(s, s.(k := Called(s.k)), w)
  {}

  lemma ProcessGood(s: Loop, w: World, id: Fd)
    requires Inv(s, w, None) && Settled(s, w, Some(id))
    ensures var s' := ProcessQueued(s, w, id);
            Sound(s', w) && Evolves(s, s', w)
  {
    hide Inv, Settled, Evolves, Dispatch, Arm, Moving;
    DispatchGood(s, w, id);
    var s1 := Dispatch(s, w, id);
    ArmGood(s1, w, id);
    EvolvesTrans(s, s1, Arm(s1, w, id), w);
  }

  // ------------------------------------------------------------ other processes

  /** The processes that were running keep running. */
  ghost predicate KeptCgis(s: Loop, s': Loop) {
    forall o :: o in s.cgis ==> o in s'.cgis && s'.cgis[o] == s.cgis[o]
  }

  lemma SpawnedKept(s: Loop, s': Loop, w: World, id: Fd)
    requires Spawned(s, s', w, id)
    ensures KeptCgis(s, s')
  {}

  lemma KeptTransitive(a: Loop, b: Loop, c: Loop)
    requires KeptCgis(a, b) && KeptCgis(b, c)
    ensures KeptCgis(a, c)
  {}

  lemma {:induction false} DispatchKeepsCgis(s: Loop, w: World, id: Fd)
    requires s.cgis.Keys <= s.k.open && s.k.interest.Keys <= s.k.open
    ensures KeptCgis(s, Dispatch(s, w, id))
    decreases if id in s.conns then |s.conns[id].requests| else 0
  {
    hide SpawnCgi, Spawned, KeptCgis;
    KeptItself(s);
    if !Idle(s, id) {
      var c, s1 := s.conns[id], s.(k := Called(s.k));
      match w.handle(c.requests[0], s.k.calls)
      case Respond(reply) =>
        var s2 := SetConn(s1, id, Answered(c, reply, Handled));
        DispatchKeepsCgis(s2, w, id);
        SameCgis(s, s2);
        KeptTransitive(s, s2, Dispatch(s2, w, id));
      case StartCgi =>
        SpawnChanges(s1, w, id);
        SpawnedKept(s1, SpawnCgi(s1, w, id), w, id);
        SameCgis(s, s1);
        KeptTransitive(s, s1, SpawnCgi(s1, w, id));
    }
  }

  lemma KeptItself(s: Loop)
    ensures KeptCgis(s, s)
  {}

  lemma SameCgis(s: Loop, s': Loop)
    requires s'.cgis == s.cgis
    ensures KeptCgis(s, s')
  {}

  lemma ArmKeepsCgis(s: Loop, w: World, id: Fd)
    requires Inv(s, w, None)
    ensures forall p :: p in s.cgis && s.cgis[p].client != id ==> p in Arm(s, w, id).cgis && Arm(s, w, id).cgis[p] == s.cgis[p]
  {
    hide RemoveConnection, Inv, Tables, Conn.PendingWrite, ArmWrite, KeptInterest;
    if id in s.conns && !s.conns[id].WriteComplete() {
      ArmShape(s, w, id);
      var s1 := ArmWrite(s, w, id).0;
      QuietKeeps(s, w, None, s1.k);
      RemoveKeeps(s1, w, id);
    }
  }

  /** Draining a queue leaves the processes of other connections alone. */
  lemma DrainKeepsCgis(s: Loop, w: World, id: Fd)
    requires Inv(s, w, None) && Settled(s, w, Some(id)) && (forall p :: p in s.cgis ==> s.cgis[p].client != id)
    ensures KeptCgis(s, ProcessQueued(s, w, id))
  {
    hide Inv, Settled, Dispatch, Arm, Evolves, Tables;
    InvBasics(s, w, None);
    DispatchKeepsCgis(s, w, id);
    DispatchGood(s, w, id);
    ArmKeepsCgis(Dispatch(s, w, id), w, id);
  }

  // ---------------------------------------------------------- finishing a process

  lemma ServedBy(s: Loop, w: World, o: Fd)
    requires Inv(s, w, None) && o in s.cgis
    ensures WorksFor(s.cgis[o], s.conns) && CgiOk(s.cgis[o], w) && ConnOk(s.conns[s.cgis[o].client], w)
  {
    hide Tables, Families, ConnOk, CgiOk;
  }

  lemma ReleaseSettled(s: Loop, w: World, o: Fd, cause: Cause)
    requires o in s.cgis && Tables(s) && Settled(s, w, None)
    ensures Settled(Release(s, w, o, cause).0, w, None)
  {
    ReleaseShape(s, w, o, cause);
    ReleaseInterest(s, w, o, cause);
    hide Release, Tables, Moving, Calm, Alert, Reliable;
  }

  /** The waiting connection gets its answer and is no longer waiting. */
  lemma UnlinkedInv(s: Loop, w: World, id: Fd, c: Conn)
    requires Inv(s, w, Some(id)) && id in s.conns && ConnOk(c, w) && !c.awaitingCgi
    requires forall o :: o in s.cgis ==> s.cgis[o].client != id
    ensures Inv(SetConn(s, id, c), w, None)
  {
    hide Tables, Families, Linked, ConnOk, CgisOk, LostOk;
    UnlinkedLinks(s.conns, s.cgis, id, c);
    SameKeysTables(s, SetConn(s, id, c));
  }

  lemma UnlinkedLinks(conns: map<Fd, Conn>, cgis: map<Fd, Cgi>, id: Fd, c: Conn)
    requires Linked(conns, cgis, Some(id)) && id in conns && !c.awaitingCgi
    requires forall o :: o in cgis ==> cgis[o].client != id
    ensures Linked(conns[id := c], cgis, None)
  {
    hide IsServed;
    assert forall o :: o in cgis ==> WorksFor(cgis[o], conns) && WorksFor(cgis[o], conns[id := c]);
  }

  lemma OnlyOneServes(conns: map<Fd, Conn>, cgis: map<Fd, Cgi>, o: Fd, hole: Option<Fd>)
    requires Linked(conns, cgis, hole) && o in cgis
    ensures forall p :: p in cgis - {o} ==> (cgis - {o})[p].client != cgis[o].client
  {}

  lemma QueuedPends(c: Conn, item: Item)
    requires item.reply != []
    ensures QueueWrite(c, item).PendingWrite() != []
  {}

  /** Setting the busy connection to one that pends, and arming it, settles all but its queue. */
  lemma AnswerNowSettled(s: Loop, w: World, id: Fd, c: Conn)
    requires id in s.conns && (Settled(s, w, None) || Settled(s, w, Some(id))) && c.PendingWrite() != []
    ensures Settled(AnswerNow(s, w, id, c), w, Some(id))
  {
    hide Moving, Alert;
    assert Reliable(w) ==> w.modifies_(s.k.calls);
  }

  lemma AnswerNowEvolves(s: Loop, w: World, id: Fd, c: Conn)
    requires id in s.conns && Continues(s.conns[id].log, c.log)
    ensures Evolves(s, AnswerNow(s, w, id, c), w)
  {
    hide Tidy;
  }

  lemma ReleaseEvolves(s: Loop, w: World, o: Fd, cause: Cause)
    requires o in s.cgis
    ensures Evolves(s, Release(s, w, o, cause).0, w)
  {
    ReleaseShape(s, w, o, cause);
    hide Release, Tidy;
  }

  /** Nobody but the client of the released process `cgi` is affected by its end. */
  ghost predicate Released(s: Loop, w: World, cgi: Cgi) {
    && Inv(s, w, Some(cgi.client)) && Settled(s, w, None)
    && WorksFor(cgi, s.conns) && ConnOk(s.conns[cgi.client], w)
    && (forall p :: p in s.cgis ==> s.cgis[p].client != cgi.client)
  }

  /** Delivering the outcome of a process that has been released. */
  lemma DeliverGood(s: Loop, w: World, cgi: Cgi, reply: Reply, cause: Cause, answer: WaitAnswer)
    requires Released(s, w, cgi) && Justified(w, cgi.request, reply, Ran(cgi, cause, answer, s.clock))
    ensures var s' := Deliver(s, w, cgi, reply, cause, answer);
            Inv(s', w, None) && Settled(s', w, Some(cgi.client)) && Evolves(s, s', w)
  {
    var c0 := s.conns[cgi.client].(awaitingCgi := false);
    var origin := Ran(cgi, cause, answer, s.clock);
    var c := QueueWrite(c0, Answer(cgi.request, reply, origin));
    DeliveredOk(s.conns[cgi.client], w, cgi.request, reply, origin);
    QueuedPends(c0, Answer(cgi.request, reply, origin));
    assert !c.awaitingCgi;
    hide Inv, Settled, Evolves, ConnOk, QueueWrite, AnswerNow, Justified;
    UnlinkedInv(s, w, cgi.client, c);
    AnswerNowKeeps(s, w, None, cgi.client, c);
    AnswerNowSettled(s, w, cgi.client, c);
    AnswerNowEvolves(s, w, cgi.client, c);
  }

  lemma ReleaseGood(s: Loop, w: World, o: Fd, cause: Cause)
    requires Sound(s, w) && o in s.cgis
    ensures var s' := Release(s, w, o, cause).0;
            && Released(s', w, s.cgis[o]) && Evolves(s, s', w) && o !in s'.cgis && s'.conns == s.conns
            && AsksCgi(w, s.cgis[o].request) && OutputOk(s.cgis[o], w) && IsWait(w, Release(s, w, o, cause).1)
            && s'.cgis == s.cgis - {o} && s'.clock == s.clock
  {
    ServedBy(s, w, o);
    ReleaseWaits(s, w, o, cause);
    InvBasics(s, w, None);
    OnlyOneServes(s.conns, s.cgis, o, None) by { LinksOf(s, w, None); }
    hide Inv, Settled, Evolves, Release, ConnOk, Tables, WorksFor, AsksCgi, OutputOk, IsWait;
    ReleaseShape(s, w, o, cause);
    ReleaseSettled(s, w, o, cause);
    ReleaseEvolves(s, w, o, cause);
    ReleaseKeeps(s, w, o, cause, None);
  }

  lemma ReleaseWaits(s: Loop, w: World, o: Fd, cause: Cause)
    requires Inv(s, w, None) && o in s.cgis
    ensures IsWait(w, Release(s, w, o, cause).1)
  {
    hide Release, IsWait;
    ChildOf(s, o);
    ReleaseShape(s, w, o, cause);
  }

  /** The cause is real. */
  ghost predicate CauseOk(w: World, cgi: Cgi, cause: Cause, at: nat) {
    match cause
    case AtEnd => IsEnd(w)
    case ReadFailed => IsReadError(w)
    case TookTooLong => at - cgi.startedAt > CGI_TIMEOUT
    case ClientGone => false
  }

  lemma OutcomeJustified(w: World, cgi: Cgi, answer: WaitAnswer, cause: Cause, at: nat, call: nat)
    requires AsksCgi(w, cgi.request) && OutputOk(cgi, w) && IsWait(w, answer) && CauseOk(w, cgi, cause, at)
    ensures Justified(w, cgi.request, OutcomeOf(w, cgi, answer, cause, call), Ran(cgi, cause, answer, at))
  {
    hide AsksCgi, OutputOk, IsEnd, IsReadError, IsWait;
    assert IsPage(w, ServerErrorPage, w.page(ServerErrorPage, call));
    assert IsCgiReply(w, cgi.output, w.cgiPage(cgi.output, call));
    hide IsPage, IsCgiReply;
  }

  ghost predicate MayFinish(s: Loop, w: World, o: Fd, cause: Cause) {
    o in s.cgis ==> CauseOk(w, s.cgis[o], cause, s.clock)
  }

  /** A finished process answers exactly the connection instance and request it was started
      for; the other processes go on. */
  lemma FinishGood(s: Loop, w: World, o: Fd, cause: Cause)
    requires Sound(s, w) && MayFinish(s, w, o, cause)
    ensures var s' := FinishCgi(s, w, o, cause);
            && Sound(s', w) && Evolves(s, s', w)
            && (o in s'.cgis ==> s'.cgis[o].startedAt == s.clock)
            && (forall p :: p in s.cgis && p != o ==> p in s'.cgis && s'.cgis[p] == s.cgis[p])
  {
    hide Sound, Inv, Settled, Evolves, Release, ProcessQueued, Deliver, OutcomeOf, CauseOk, Released, KeptCgis, AsksCgi, OutputOk,
      IsWait, Justified;
    if o in s.cgis {
      var cgi := s.cgis[o];
      ReleaseGood(s, w, o, cause);
      var (s1, answer) := Release(s, w, o, cause);
      var reply := OutcomeOf(w, cgi, answer, cause, s1.k.calls);
      OutcomeJustified(w, cgi, answer, cause, s1.clock, s1.k.calls);
      ReleasedOthers(s1, w, cgi);
      ConcludeGood(s1, w, cgi, reply, cause, answer);
      var s3 := ProcessQueued(Deliver(s1, w, cgi, reply, cause, answer), w, cgi.client);
      EvolvesTrans(s, s1, s3, w);
      StartedSince(s1, s3, w, o);
      KeptOthers(s, s1, s3, o);
    } else {
      CalledEvolves(s, w);
    }
  }

  lemma KeptOthers(s: Loop, s1: Loop, s': Loop, o: Fd)
    requires s1.cgis == s.cgis - {o} && KeptCgis(s1, s')
    ensures forall p :: p in s.cgis && p != o ==> p in s'.cgis && s'.cgis[p] == s.cgis[p]
  {
    assert forall p :: p in s.cgis && p != o ==> p in s1.cgis && s1.cgis[p] == s.cgis[p];
  }

  /** Delivering the outcome and draining the queue behind it. */
  lemma ConcludeGood(s: Loop, w: World, cgi: Cgi, reply: Reply, cause: Cause, answer: WaitAnswer)
    requires Released(s, w, cgi) && Justified(w, cgi.request, reply, Ran(cgi, cause, answer, s.clock)) && cgi.client in s.conns
    ensures var s' := ProcessQueued(Deliver(s, w, cgi, reply, cause, answer), w, cgi.client);
            Sound(s', w) && Evolves(s, s', w) && KeptCgis(s, s')
  {
    hide Sound, Inv, Settled, Evolves, ProcessQueued, Deliver, Released, KeptCgis, Justified;
    DeliverGood(s, w, cgi, reply, cause, answer);
    DeliverCgis(s, w, cgi, reply, cause, answer);
    ReleasedOthers(s, w, cgi);
    var s2 := Deliver(s, w, cgi, reply, cause, answer);
    DrainKeepsCgis(s2, w, cgi.client);
    ProcessGood(s2, w, cgi.client);
    EvolvesTrans(s, s2, ProcessQueued(s2, w, cgi.client), w);
    SameCgis(s, s2);
    KeptTransitive(s, s2, ProcessQueued(s2, w, cgi.client));
  }

  lemma ReleasedOthers(s: Loop, w: World, cgi: Cgi)
    requires Released(s, w, cgi)
    ensures cgi.client in s.conns && forall p :: p in s.cgis ==> s.cgis[p].client != cgi.client
  {}

  lemma DeliverCgis(s: Loop, w: World, cgi: Cgi, reply: bytes, cause: Cause, answer: WaitAnswer)
    requires cgi.client in s.conns
    ensures Deliver(s, w, cgi, reply, cause, answer).cgis == s.cgis
  {}

  lemma StartedSince(s: Loop, s': Loop, w: World, o: Fd)
    requires Evolves(s, s', w) && o !in s.cgis
    ensures s'.clock == s.clock && (o in s'.cgis ==> s'.cgis[o].startedAt == s.clock)
  {}

  lemma LinksOf(s: Loop, w: World, hole: Option<Fd>)
    requires Inv(s, w, hole)
    ensures Linked(s.conns, s.cgis, hole)
  {}
}
