/** The handlers for listener, client and pipe events keep the loop sound. */
module LoopEvents {
  import opened Bytes
  import opened Parser
  import opened Pipeline
  import opened Kernel
  import opened Loop
  import opened LoopInvariants
  import opened LoopHandlers

  // ------------------------------------------------------------------- accepting

  /** Either nothing happened to the tables, or one new instance was added. */
  ghost predicate Accepted(s: Loop, s': Loop) {
    && s'.cgis == s.cgis && s'.lost == s.lost && s'.clock == s.clock && s'.listeners == s.listeners
    && s'.lastSweep == s.lastSweep
    && (|| (s'.conns == s.conns && s'.serials == s.serials)
        || (exists id :: id !in s.conns && s'.conns == s.conns[id := NewConn(s.serials, s.clock)] && s'.serials == s.serials + 1))
  }

  lemma NewTables(s: Loop, k: Kernel, id: Fd, c: Conn)
    requires Tables(s) && id !in s.k.open && k.faults == []
    requires k.open == s.k.open + {id} && k.interest == s.k.interest[id := Readable]
    ensures Tables(SetConn(s.(k := k), id, c))
  {
    hide Piped;
    assert s.conns[id := c].Keys == s.conns.Keys + {id};
  }

  lemma NewLinks(conns: map<Fd, Conn>, cgis: map<Fd, Cgi>, id: Fd, c: Conn)
    requires Linked(conns, cgis, None) && id !in conns && !c.awaitingCgi
    ensures Linked(conns[id := c], cgis, None)
  {
    hide IsServed;
    assert forall o :: o in cgis && WorksFor(cgis[o], conns) ==> WorksFor(cgis[o], conns[id := c]);
  }

  lemma NewConnGood(s: Loop, w: World, id: Fd, k: Kernel)
    requires Sound(s, w) && id !in s.k.open && k.faults == [] && k.children == s.k.children && k.killed == s.k.killed
    requires k.open == s.k.open + {id} && k.interest == s.k.interest[id := Readable]
    ensures Sound(SetConn(s.(k := k), id, NewConn(s.serials, s.clock)), w)
  {
    var c := NewConn(s.serials, s.clock);
    NewConnOk(w, s.serials, s.clock);
    WatchedAreOpen(s);
    NewConnSettled(s, w, id, k);
    hide Tables, Families, Stops, Linked, ConnOk, CgisOk, LostOk, Settled;
    NewTables(s, k, id, c);
    NewLinks(s.conns, s.cgis, id, c);
  }

  lemma NewConnSettled(s: Loop, w: World, id: Fd, k: Kernel)
    requires Settled(s, w, None) && id !in s.conns && k.interest == s.k.interest[id := Readable]
    ensures Settled(SetConn(s.(k := k), id, NewConn(s.serials, s.clock)), w, None)
  {
    hide Reliable;
  }

  lemma RefusedConnGood(s: Loop, w: World, k: Kernel)
    requires Sound(s, w) && k.open == s.k.open && k.interest == s.k.interest && k.children == s.k.children && k.killed == s.k.killed && k.faults == s.k.faults
    ensures Sound(s.(k := k), w)
  {
    hide Inv, Settled;
    QuietKeeps(s, w, None, k);
    QuietSettled(s, w, None, k);
  }

  lemma SoundSerials(s: Loop, w: World, n: nat)
    requires Sound(s, w)
    ensures Sound(s.(serials := n), w)
  {
    hide Tables, Families, Stops, Linked, ConnsOk, CgisOk, LostOk;
    hide Moving, Calm, Alert, Reliable;
    SerialsTables(s, n);
  }

  lemma SerialsTables(s: Loop, n: nat)
    requires Tables(s)
    ensures Tables(s.(serials := n))
  {
    hide Owned, Watched, Piped;
  }

  lemma AdmittedGood(s: Loop, w: World, k: Kernel, id: Fd)
    requires Sound(s, w) && id !in s.k.open && s.k.interest.Keys <= s.k.open
    requires k.open == s.k.open + {id} && k.interest == s.k.interest && k.children == s.k.children && k.killed == s.k.killed && k.faults == []
    requires s.k.faults == []
    ensures Sound(Admitted(s, w, k, id), w)
  {
    hide Sound;
    var (k', ok) := Register(k, w, id, Readable);
    if ok {
      NewConnGood(s, w, id, k');
      SoundSerials(SetConn(s.(k := k'), id, NewConn(s.serials, s.clock)), w, s.serials + 1);
    } else {
      assert Close(k', id).open == s.k.open;
      assert s.k.interest - {id} == s.k.interest;
      RefusedConnGood(s, w, Close(k', id));
    }
  }

  lemma AdmittedShape(s: Loop, w: World, k: Kernel, id: Fd)
    requires id !in s.conns
    ensures Accepted(s, Admitted(s, w, k, id)) && |Admitted(s, w, k, id).conns| <= |s.conns| + 1
  {
    hide Close;
    OneMore(s.conns, id, NewConn(s.serials, s.clock));
  }

  lemma AcceptShape(k: Kernel, w: World)
    ensures var (k', accepted) := Accept(k, w);
            && k'.interest == k.interest && k'.children == k.children && k'.killed == k.killed && k'.faults == k.faults
            && (accepted.None? ==> k'.open == k.open)
            && (accepted.Some? ==> accepted.value !in k.open && k'.open == k.open + {accepted.value})
  {}

  lemma RefusedShape(s: Loop, k: Kernel)
    ensures Accepted(s, s.(k := k))
  {}

  /** At the cap nothing is accepted; below it, at most one connection. */
  lemma ListenerGood(s: Loop, w: World)
    requires Sound(s, w)
    ensures Sound(ListenerEvent(s, w), w) && Accepted(s, ListenerEvent(s, w))
    ensures |s.conns| <= w.maxConnections ==> |ListenerEvent(s, w).conns| <= w.maxConnections
  {
    hide Sound, Tables, Accept, Admitted, Accepted;
    SoundBasics(s, w);
    ConnsOpen(s, w);
    AcceptShape(s.k, w);
    var (k, accepted) := Accept(s.k, w);
    if |s.conns| >= w.maxConnections {
      AcceptedSelf(s);
    } else if accepted.None? {
      RefusedConnGood(s, w, k);
      RefusedShape(s, k);
    } else {
      AdmittedGood(s, w, k, accepted.value);
      AdmittedShape(s, w, k, accepted.value);
    }
  }

  lemma AcceptedSelf(s: Loop)
    ensures Accepted(s, s)
  {}

  lemma ConnsOpen(s: Loop, w: World)
    requires Sound(s, w)
    ensures s.conns.Keys <= s.k.open
  {}

  lemma OneMore(conns: map<Fd, Conn>, id: Fd, c: Conn)
    requires id !in conns
    ensures |conns[id := c]| == |conns| + 1
  {
    assert conns[id := c].Keys == conns.Keys + {id};
  }

  // --------------------------------------------------------------------- reading

  /** Queueing a 400, 413 or 408 on a live connection and arming it. */
  lemma NoticeGood(s: Loop, w: World, id: Fd, page: Page, reply: Reply)
    requires Sound(s, w) && id in s.conns && ItemOk(Notice(page, reply), w, s.conns[id].log.parseFailed)
    ensures var s' := ArmWrite(SetConn(s, id, QueueWriteAndClose(s.conns[id], Notice(page, reply))), w, id).0;
            Sound(s', w) && Evolves(s, s', w)
  {
    hide Inv, Settled, ConnOk, QueueWriteAndClose, SameTies, Moving, Tables, Tidy, Reliable, Conn.PendingWrite, ItemOk;
    var c := QueueWriteAndClose(s.conns[id], Notice(page, reply));
    var s1 := SetConn(s, id, c);
    InvBasics(s, w, None);
    Interested(s, id);
    ConnOf(s, w, id);
    NoticeOk(s.conns[id], w, page, reply);
    MovingOf(s, w, id);
    NoticeShape(s.conns[id], page, reply);
    SetConnKeeps(s, w, None, id, c);
    BusySettled(s, w, id, c);
    ArmedSettled(s1, w, id);
    ArmShape(s1, w, id);
    QuietKeeps(s1, w, None, ArmWrite(s1, w, id).0.k);
    NoticeSettles(s, s1, w, id);
    ArmEvolves(s1, w, id);
    hide Evolves;
    TiesEvolve(s, s.k, id, c, w);
    EvolvesTrans(s, s1, ArmWrite(s1, w, id).0, w);
  }

  lemma NoticeShape(c: Conn, page: Page, reply: Reply)
    ensures var c' := QueueWriteAndClose(c, Notice(page, reply));
            c'.PendingWrite() != [] && (Moving(c) ==> Moving(c'))
  {
    QueuedPends(c, Notice(page, reply));
  }

  lemma MovingOf(s: Loop, w: World, id: Fd)
    requires Settled(s, w, None) && id in s.conns
    ensures Moving(s.conns[id])
  {}

  /** Even if arming fails, only an unreliable kernel can be to blame. */
  lemma NoticeSettles(s: Loop, s1: Loop, w: World, id: Fd)
    requires id in s1.conns && Settled(s1, w, Some(id)) && Moving(s1.conns[id])
    requires ArmWrite(s1, w, id).1 ==> Settled(ArmWrite(s1, w, id).0, w, None)
    requires Reliable(w) ==> ArmWrite(s1, w, id).1
    ensures Settled(ArmWrite(s1, w, id).0, w, None)
  {
    hide Moving, Calm, Alert, Reliable;
  }

  /** A connection that the queue processing closed is closed for good. */
  lemma {:induction false} DropOrphansOpen(s: Loop, w: World, orphans: seq<Fd>)
    ensures DropOrphans(s, w, orphans).k.open <= s.k.open
    decreases |orphans|
  {
    if orphans != [] {
      var s1 := if orphans[0] in s.cgis then Release(s, w, orphans[0], ClientGone).0 else s;
      assert s1.k.open <= s.k.open;
      hide Release;
      DropOrphansOpen(s1, w, orphans[1..]);
    }
  }

  lemma RemoveCloses(s: Loop, w: World, id: Fd)
    requires id in s.conns
    ensures id !in RemoveConnection(s, w, id).k.open
  {
    var s1 := Unhooked(s, id);
    assert id !in s1.k.open;
    hide Unhooked, DropOrphans, Listing;
    DropOrphansOpen(s1, w, Listing(CgisOf(s1, id), w, s1.k.calls));
  }

  lemma ProcessCloses(s: Loop, w: World, id: Fd)
    requires Inv(s, w, None) && Settled(s, w, Some(id)) && id in s.conns
    ensures var s' := ProcessQueued(s, w, id); id in s'.conns || id !in s'.k.interest
  {
    hide Inv, Settled, Dispatch, RemoveConnection, Evolves;
    DispatchGood(s, w, id);
    ProcessGood(s, w, id);
    var s1, s' := Dispatch(s, w, id), ProcessQueued(s, w, id);
    SoundBasics(s', w);
    hide Sound, Moving;
    if !s1.conns[id].WriteComplete() && !ArmWrite(s1, w, id).1 {
      RemoveCloses(ArmWrite(s1, w, id).0, w, id);
    }
  }

  lemma SoundBasics(s: Loop, w: World)
    requires Sound(s, w)
    ensures Tables(s) && s.k.interest.Keys <= s.k.open && s.k.faults == []
  {
    InvBasics(s, w, None);
  }

  lemma RejectGood(s: Loop, w: World, id: Fd, e: ParseError)
    requires Sound(s, w) && (if id in s.conns then s.conns[id].log.parseFailed else id !in s.k.interest)
    ensures Sound(Reject(s, w, id, e), w) && Evolves(s, Reject(s, w, id, e), w)
  {
    hide Inv, Settled, QueueWriteAndClose, Evolves, ArmWrite;
    if id in s.conns {
      var page := RejectionPage(e);
      assert IsPage(w, page, w.page(page, s.k.calls));
      NoticeGood(s, w, id, page, w.page(page, s.k.calls));
    } else {
      ArmShape(s, w, id);
      var k := ArmWrite(s, w, id).0.k;
      ArmNothing(s, w, id);
      QuietKeeps(s, w, None, k);
      QuietSettled(s, w, None, k);
      KernelEvolves(s, k, w);
    }
  }

  lemma ArmNothing(s: Loop, w: World, id: Fd)
    requires id !in s.k.interest
    ensures ArmWrite(s, w, id).0.k.interest == s.k.interest
  {}

  lemma KernelEvolves(s: Loop, k: Kernel, w: World)
    ensures Evolves(s, s.(k := k), w)
  {}

  lemma ConnEvolves(s: Loop, k: Kernel, id: Fd, c: Conn, w: World)
    requires id in s.conns && Continues(s.conns[id].log, c.log)
    ensures Evolves(s, SetConn(s.(k := k), id, c), w)
  {
    hide Tidy;
  }

  lemma ReadSound(s: Loop, w: World)
    requires Sound(s, w)
    ensures Sound(s.(k := Read(s.k, w).0), w)
  {
    hide Inv, Settled;
    RefusedConnGood(s, w, Read(s.k, w).0);
  }

  /** New data on a connection: parsed, dispatched as far as possible, and rejected if malformed. */
  lemma IngestGood(s: Loop, w: World, id: Fd, data: bytes)
    requires Sound(s, w) && id in s.conns
    ensures var (c, failure) := Ingest(s.conns[id], w, data, s.clock);
            var s1 := ProcessQueued(SetConn(s, id, c), w, id);
            var s' := if failure.Some? then Reject(s1, w, id, failure.value) else s1;
            Sound(s', w) && Evolves(s, s', w)
  {
    hide Inv, Settled, ConnOk, Ingest, ProcessQueued, Evolves, SameTies, Reject, Conn.PendingWrite;
    var (c, failure) := Ingest(s.conns[id], w, data, s.clock);
    var s0 := SetConn(s, id, c);
    ConnOf(s, w, id);
    IngestOk(s.conns[id], w, data, s.clock);
    IngestShape(s.conns[id], w, data, s.clock);
    SetConnKeeps(s, w, None, id, c);
    BusySettled(s, w, id, c);
    TiesEvolve(s, s.k, id, c, w);
    ProcessGood(s0, w, id);
    ProcessCloses(s0, w, id);
    var s1 := ProcessQueued(s0, w, id);
    EvolvesTrans(s, s0, s1, w);
    if failure.Some? {
      hide Sound;
      FailureStays(s0, s1, w, id);
      RejectGood(s1, w, id, failure.value);
      EvolvesTrans(s, s1, Reject(s1, w, id, failure.value), w);
    }
  }

  lemma IngestShape(c: Conn, w: World, data: bytes, now: nat)
    ensures var (c', failure) := Ingest(c, w, data, now);
            && c'.PendingWrite() == c.PendingWrite() && c'.log.serial == c.log.serial
            && (failure.Some? ==> c'.log.parseFailed)
  {}

  lemma FailureStays(s: Loop, s': Loop, w: World, id: Fd)
    requires Evolves(s, s', w) && id in s.conns && s.conns[id].log.parseFailed
    ensures id in s'.conns ==> s'.conns[id].log.parseFailed
  {
    hide Ages;
  }

  lemma RemoveSound(s: Loop, w: World, id: Fd)
    requires Sound(s, w)
    ensures var s' := RemoveConnection(s, w, id);
            Sound(s', w) && Evolves(s, s', w) && s'.conns.Keys == s.conns.Keys - {id}
  {
    hide Inv, Settled, SettledBut, RemoveConnection, Evolves;
    SettledIsBut(s, w, id);
    RemoveGood(s, w, id);
  }

  lemma ReadableGood(s: Loop, w: World, id: Fd)
    requires Sound(s, w)
    ensures Sound(ClientReadable(s, w, id), w) && Evolves(s, ClientReadable(s, w, id), w)
  {
    hide Sound, Ingest, ProcessQueued, Reject, RemoveConnection, Evolves;
    CalledEvolves(s, w);
    if id in s.conns {
      var (k, answer) := Read(s.k, w);
      var s1 := s.(k := k);
      ReadSound(s, w);
      KernelEvolves(s, k, w);
      match answer
      case Received(data) =>
        IngestGood(s1, w, id, data);
        EvolvesTrans(s, s1, ClientReadable(s, w, id), w);
      case NothingToRead =>
      case _ =>
        RemoveSound(s1, w, id);
        EvolvesTrans(s, s1, RemoveConnection(s1, w, id), w);
    }
  }

  // --------------------------------------------------------------------- writing

  lemma ConnSetBut(s: Loop, w: World, id: Fd, c: Conn)
    requires Settled(s, w, None) && id in s.conns
    ensures SettledBut(SetConn(s, id, c), w, id)
  {
    hide Moving, Calm, Alert, Reliable;
  }

  /** The connection changed in a way that only matters if it stayed: it goes. */
  lemma CloseGood(s: Loop, w: World, id: Fd, c: Conn)
    requires Sound(s, w) && id in s.conns && ConnOk(c, w) && SameTies(s.conns[id], c)
    ensures var s' := RemoveConnection(SetConn(s, id, c), w, id); Sound(s', w) && Evolves(s, s', w)
  {
    hide Inv, Settled, SettledBut, RemoveConnection, Evolves, ConnOk;
    SetConnKeeps(s, w, None, id, c);
    ConnSetBut(s, w, id, c);
    ConnEvolves(s, s.k, id, c, w);
    RemoveGood(SetConn(s, id, c), w, id);
    EvolvesTrans(s, SetConn(s, id, c), RemoveConnection(SetConn(s, id, c), w, id), w);
  }

  /** More is pending: nothing changes for the wakeups. */
  lemma PartialGood(s: Loop, w: World, id: Fd, c: Conn)
    requires Sound(s, w) && id in s.conns && ConnOk(c, w) && SameTies(s.conns[id], c)
    requires s.conns[id].PendingWrite() != [] && c.PendingWrite() != []
    requires Moving(s.conns[id]) ==> Moving(c)
    ensures Sound(SetConn(s, id, c), w) && Evolves(s, SetConn(s, id, c), w)
  {
    hide Inv, Settled, ConnOk, Evolves, SameTies, Moving, Conn.PendingWrite;
    PartialSettled(s, w, id, c);
    SetConnKeeps(s, w, None, id, c);
    TiesEvolve(s, s.k, id, c, w);
  }

  lemma PartialSettled(s: Loop, w: World, id: Fd, c: Conn)
    requires Settled(s, w, None) && id in s.conns && (Moving(s.conns[id]) ==> Moving(c))
    requires s.conns[id].PendingWrite() != [] && c.PendingWrite() != []
    ensures Settled(SetConn(s, id, c), w, None)
  {
    hide Moving, Reliable, Conn.PendingWrite;
  }

  /** Everything is written: back to reading, or closed if that cannot be arranged. */
  lemma DrainedGood(s: Loop, w: World, id: Fd, c: Conn)
    requires Sound(s, w) && id in s.conns && ConnOk(Emptied(c), w) && SameTies(s.conns[id], Emptied(c))
    requires Moving(s.conns[id]) ==> Moving(Emptied(c))
    ensures Sound(BackToReading(s, w, id, c), w) && Evolves(s, BackToReading(s, w, id, c), w)
  {
    hide ConnOk, Moving, Tables, Evolves;
    var (k, ok) := Modify(s.k, w, id, Readable);
    var c' := Emptied(c);
    var s1 := SetConn(s.(k := k), id, c');
    assert c'.PendingWrite() == [];
    hide RemoveConnection, Emptied;
    if ok { DrainedSettled(s, w, id, c'); } else { FailedBut(s, w, id, c'); }
    InvBasics(s, w, None);
    hide Inv, Settled, SettledBut;
    QuietKeeps(s, w, None, k);
    SetConnKeeps(s.(k := k), w, None, id, c');
    ConnEvolves(s, k, id, c', w);
    if !ok {
      RemoveGood(s1, w, id);
      EvolvesTrans(s, s1, RemoveConnection(s1, w, id), w);
    }
  }

  lemma DrainedSettled(s: Loop, w: World, id: Fd, c: Conn)
    requires Settled(s, w, None) && id in s.conns && c.PendingWrite() == [] && (Moving(s.conns[id]) ==> Moving(c))
    requires Modify(s.k, w, id, Readable).1
    ensures Settled(SetConn(s.(k := Modify(s.k, w, id, Readable).0), id, c), w, None)
  {
    hide Moving, Reliable;
  }

  lemma FailedBut(s: Loop, w: World, id: Fd, c: Conn)
    requires Settled(s, w, None) && id in s.conns && !Modify(s.k, w, id, Readable).1
    ensures SettledBut(SetConn(s.(k := Modify(s.k, w, id, Readable).0), id, c), w, id)
  {
    hide Moving, Calm, Alert, Reliable;
  }

  lemma WriteSound(s: Loop, w: World, data: bytes)
    requires Sound(s, w) && data != []
    ensures Sound(s.(k := Write(s.k, w, data).0), w)
  {
    hide Inv, Settled;
    RefusedConnGood(s, w, Write(s.k, w, data).0);
  }

  /** `count` bytes of the pending data went out. */
  lemma WroteGood(s: Loop, w: World, id: Fd, count: nat)
    requires Sound(s, w) && id in s.conns && count <= |s.conns[id].PendingWrite()| && s.conns[id].PendingWrite() != []
    ensures Sound(AfterWrite(s, w, id, count), w) && Evolves(s, AfterWrite(s, w, id, count), w)
  {
    var c := Advanced(s.conns[id], count, s.clock);
    ConnOf(s, w, id);
    AdvancedOk(s.conns[id], w, count, s.clock);
    assert Moving(s.conns[id]) ==> Moving(c) && Moving(Emptied(c));
    PendingIff(c, w);
    hide Sound, ConnOk, RemoveConnection, Evolves, Moving, Advanced, BackToReading, SameTies, Emptied;
    if !c.WriteComplete() {
      PartialGood(s, w, id, c);
    } else if c.closeAfterWrite {
      CloseGood(s, w, id, c);
    } else {
      DrainedGood(s, w, id, c);
    }
  }

  lemma WritableGood(s: Loop, w: World, id: Fd)
    requires Sound(s, w)
    ensures Sound(ClientWritable(s, w, id), w) && Evolves(s, ClientWritable(s, w, id), w)
  {
    CalledEvolves(s, w);
    if id in s.conns && !s.conns[id].WriteComplete() {
      ConnOf(s, w, id);
      PendingIff(s.conns[id], w);
      hide Sound, ConnOk, RemoveConnection, Evolves, AfterWrite;
      var data := s.conns[id].PendingWrite();
      var (k, answer) := Write(s.k, w, data);
      var s1 := s.(k := k);
      WriteSound(s, w, data);
      KernelEvolves(s, k, w);
      match answer
      case Wrote(count) =>
        WroteGood(s1, w, id, count);
        EvolvesTrans(s, s1, AfterWrite(s1, w, id, count), w);
      case NotWritable =>
      case WriteError =>
        RemoveSound(s1, w, id);
        EvolvesTrans(s, s1, RemoveConnection(s1, w, id), w);
    }
  }

  // ------------------------------------------------------------------------ pipes

  /** The record of a process changes, but not what it is and whom it serves. */
  predicate SameProcess(a: Cgi, b: Cgi) {
    && b.pid == a.pid && b.client == a.client && b.stdin == a.stdin && b.startedAt == a.startedAt
    && b.request == a.request && b.serial == a.serial
  }

  lemma SetCgiTables(s: Loop, o: Fd, cgi: Cgi)
    requires Tables(s) && o in s.cgis && cgi.stdin == s.cgis[o].stdin
    ensures Tables(s.(cgis := s.cgis[o := cgi]))
  {
    hide Owned, Watched;
    assert s.cgis[o := cgi].Keys == s.cgis.Keys;
  }

  lemma SetCgiFamilies(cgis: map<Fd, Cgi>, reap: seq<Pid>, lost: set<Pid>, children: set<Pid>, o: Fd, cgi: Cgi)
    requires Families(cgis, reap, lost, children) && o in cgis && cgi.pid == cgis[o].pid
    ensures Families(cgis[o := cgi], reap, lost, children)
  {
    forall pid | pid in children ensures pid in reap || pid in lost || RunsChild(cgis[o := cgi], pid) {
      if RunsChild(cgis, pid) {
        var p :| p in cgis && cgis[p].pid == pid;
        assert p in cgis[o := cgi] && cgis[o := cgi][p].pid == pid;
      }
    }
  }

  lemma SetCgiLinks(conns: map<Fd, Conn>, cgis: map<Fd, Cgi>, o: Fd, cgi: Cgi)
    requires Linked(conns, cgis, None) && o in cgis
    requires cgi.client == cgis[o].client && cgi.serial == cgis[o].serial && cgi.request == cgis[o].request
    ensures Linked(conns, cgis[o := cgi], None)
  {
    assert WorksFor(cgis[o], conns) ==> WorksFor(cgi, conns);
    hide WorksFor;
    forall id | id in conns && conns[id].awaitingCgi ensures IsServed(cgis[o := cgi], id) {
      assert IsServed(cgis, id);
      var p :| p in cgis && cgis[p].client == id;
      assert p in cgis[o := cgi] && cgis[o := cgi][p].client == id;
    }
  }

  lemma SetCgiStops(cgis: map<Fd, Cgi>, reap: seq<Pid>, killed: set<Pid>, ended: set<Pid>, o: Fd, cgi: Cgi)
    requires Stops(cgis, reap, killed, ended) && o in cgis && cgi.pid == cgis[o].pid
    ensures Stops(cgis[o := cgi], reap, killed, ended)
  {}

  lemma SetCgiInv(s: Loop, w: World, o: Fd, cgi: Cgi)
    requires Inv(s, w, None) && o in s.cgis && SameProcess(s.cgis[o], cgi) && CgiOk(cgi, w)
    ensures Inv(s.(cgis := s.cgis[o := cgi]), w, None)
  {
    hide Tables, Families, Stops, Linked, ConnsOk, CgiOk, LostOk;
    SetCgiTables(s, o, cgi);
    SetCgiFamilies(s.cgis, s.pendingReap, s.lost.pids, s.k.children, o, cgi);
    SetCgiStops(s.cgis, s.pendingReap, s.k.killed, s.ended, o, cgi);
    SetCgiLinks(s.conns, s.cgis, o, cgi);
  }

  lemma SetCgiEvolves(s: Loop, w: World, o: Fd, cgi: Cgi, s': Loop)
    requires o in s.cgis && cgi.startedAt == s.cgis[o].startedAt
    requires s' == s.(cgis := s.cgis[o := cgi], stdinOf := s'.stdinOf, k := s'.k)
    ensures Evolves(s, s', w)
  {
    hide Tidy;
  }

  lemma SetCgiGood(s: Loop, w: World, o: Fd, cgi: Cgi)
    requires Sound(s, w) && o in s.cgis && SameProcess(s.cgis[o], cgi) && CgiOk(cgi, w)
    ensures Sound(s.(cgis := s.cgis[o := cgi]), w) && Evolves(s, s.(cgis := s.cgis[o := cgi]), w)
  {
    hide Inv, Settled, CgiOk, Evolves;
    SetCgiInv(s, w, o, cgi);
    SetCgiSettled(s, w, o, cgi);
    SetCgiEvolves(s, w, o, cgi, s.(cgis := s.cgis[o := cgi]));
  }

  lemma SetCgiSettled(s: Loop, w: World, o: Fd, cgi: Cgi)
    requires Settled(s, w, None)
    ensures Settled(s.(cgis := s.cgis[o := cgi]), w, None)
  {
    hide Moving, Calm, Alert, Reliable;
  }

  lemma OutputGood(s: Loop, w: World, o: Fd, data: bytes)
    requires Sound(s, w) && o in s.cgis
    requires IsRead(w, data)
    ensures var s' := s.(cgis := s.cgis[o := WithOutput(s.cgis[o], data)]);
            Sound(s', w) && Evolves(s, s', w)
  {
    ServedBy(s, w, o);
    hide Sound, Evolves, WorksFor, ConnOk, IsRead;
    ConcatAppend(s.cgis[o].received, data);
    SetCgiGood(s, w, o, WithOutput(s.cgis[o], data));
  }

  lemma StdoutGood(s: Loop, w: World, o: Fd)
    requires Sound(s, w)
    ensures Sound(CgiStdoutReadable(s, w, o), w) && Evolves(s, CgiStdoutReadable(s, w, o), w)
  {
    hide Sound, Evolves, FinishCgi;
    var (k, answer) := Read(s.k, w);
    var s1 := s.(k := k);
    ReadSound(s, w);
    KernelEvolves(s, k, w);
    match answer
    case Received(data) =>
      if o in s.cgis {
        OutputGood(s1, w, o, data);
        EvolvesTrans(s, s1, CgiStdoutReadable(s, w, o), w);
      }
    case EndOfFile =>
      FinishGood(s1, w, o, AtEnd);
      EvolvesTrans(s, s1, FinishCgi(s1, w, o, AtEnd), w);
    case NothingToRead =>
    case ReadError =>
      FinishGood(s1, w, o, ReadFailed);
      EvolvesTrans(s, s1, FinishCgi(s1, w, o, ReadFailed), w);
  }

  /** The tables once the stdin `i` of process `o` is closed. */
  lemma ClosedTables(s: Loop, i: Fd, o: Fd, cgi: Cgi)
    requires Tables(s) && i in s.stdinOf && o == s.stdinOf[i] && cgi.stdin.None?
    ensures Tables(s.(cgis := s.cgis[o := cgi], stdinOf := s.stdinOf - {i}, k := Close(Deregister(s.k, i), i)))
  {
    assert s.cgis[o := cgi].Keys == s.cgis.Keys;
    assert (s.stdinOf - {i}).Keys == s.stdinOf.Keys - {i};
    assert s.k.interest - {i} - {i} == s.k.interest - {i};
  }

  lemma ClosedSettled(s: Loop, w: World, i: Fd, cgis: map<Fd, Cgi>, stdinOf: map<Fd, Fd>)
    requires Settled(s, w, None) && i !in s.conns
    ensures Settled(s.(cgis := cgis, stdinOf := stdinOf, k := Close(Deregister(s.k, i), i)), w, None)
  {
    hide Moving, Calm, Alert, Reliable;
  }

  /** Closing stdin, possibly after more of the body was written to it. */
  lemma CloseStdinGood(s: Loop, w: World, i: Fd, cgi: Cgi)
    requires Sound(s, w) && i in s.stdinOf && s.stdinOf[i] in s.cgis
    requires SameProcess(s.cgis[s.stdinOf[i]], cgi) && CgiOk(cgi.(stdin := None), w)
    ensures var s' := CloseCgiStdin(s.(cgis := s.cgis[s.stdinOf[i] := cgi]), i);
            Sound(s', w) && Evolves(s, s', w)
  {
    hide CgiOk, Inv, Settled, Evolves;
    var o, cgi' := s.stdinOf[i], cgi.(stdin := None);
    StdinIsNoConn(s, w, i);
    var s' := s.(cgis := s.cgis[o := cgi'], stdinOf := s.stdinOf - {i}, k := Close(Deregister(s.k, i), i));
    assert s.cgis[o := cgi][o := cgi'] == s.cgis[o := cgi'];
    assert CloseCgiStdin(s.(cgis := s.cgis[o := cgi]), i) == s';
    hide CloseCgiStdin, Close, Deregister;
    ClosedSettled(s, w, i, s.cgis[o := cgi'], s.stdinOf - {i});
    ClosedInv(s, w, i, o, cgi');
    SetCgiEvolves(s, w, o, cgi', s');
  }

  lemma ClosedInv(s: Loop, w: World, i: Fd, o: Fd, cgi: Cgi)
    requires Inv(s, w, None) && i in s.stdinOf && o == s.stdinOf[i] && o in s.cgis
    requires SameProcess(s.cgis[o], cgi.(stdin := s.cgis[o].stdin)) && cgi.stdin.None? && CgiOk(cgi, w)
    ensures Inv(s.(cgis := s.cgis[o := cgi], stdinOf := s.stdinOf - {i}, k := Close(Deregister(s.k, i), i)), w, None)
  {
    hide Tables, Families, Stops, Linked, ConnsOk, CgiOk, LostOk, Close, Deregister;
    CloseChildren(s.k, i);
    ClosedTables(s, i, o, cgi);
    SetCgiFamilies(s.cgis, s.pendingReap, s.lost.pids, s.k.children, o, cgi);
    SetCgiStops(s.cgis, s.pendingReap, s.k.killed, s.ended, o, cgi);
    SetCgiLinks(s.conns, s.cgis, o, cgi);
  }

  lemma CloseChildren(k: Kernel, i: Fd)
    ensures Close(Deregister(k, i), i).children == k.children && Close(Deregister(k, i), i).killed == k.killed
  {}

  lemma StdinIsNoConn(s: Loop, w: World, i: Fd)
    requires Sound(s, w) && i in s.stdinOf
    ensures i !in s.conns && s.stdinOf[i] in s.cgis && s.cgis[s.stdinOf[i]].stdin == Some(i)
  {}

  /** What is still to be written, and what a partial write leaves. */
  lemma DeliveredPart(cgi: Cgi, count: nat, w: World)
    requires CgiOk(cgi, w) && count <= |cgi.StdinRemaining()|
    ensures var cgi' := cgi.(stdinWritten := cgi.stdinWritten + count,
                             delivered := cgi.delivered + cgi.StdinRemaining()[..count]);
            if cgi'.StdinComplete() then CgiOk(cgi'.(stdin := None), w) else CgiOk(cgi', w)
  {
    var n := cgi.stdinWritten;
    assert cgi.body[..n] + cgi.body[n..][..count] == cgi.body[..n + count];
  }

  lemma StdinOpen(s: Loop, w: World, i: Fd)
    requires Sound(s, w) && i in s.stdinOf && s.stdinOf[i] in s.cgis
    ensures var cgi := s.cgis[s.stdinOf[i]];
            CgiOk(cgi, w) && (!Delivers(w) ==> CgiOk(cgi.(stdin := None), w)) && cgi.StdinRemaining() != []
  {
    hide Inv, Settled, WorksFor, ConnOk, AsksCgi;
    ServedBy(s, w, s.stdinOf[i]);
    StdinIsNoConn(s, w, i);
  }

  /** `count` bytes of what remains went out. */
  lemma StdinWrote(s: Loop, w: World, i: Fd, count: nat)
    requires Sound(s, w) && i in s.stdinOf && s.stdinOf[i] in s.cgis
    requires count <= |s.cgis[s.stdinOf[i]].StdinRemaining()|
    ensures var o := s.stdinOf[i];
            var cgi := s.cgis[o];
            var cgi' := cgi.(stdinWritten := cgi.stdinWritten + count, delivered := cgi.delivered + cgi.StdinRemaining()[..count]);
            var s1 := s.(cgis := s.cgis[o := cgi']);
            var s' := if cgi'.StdinComplete() then CloseCgiStdin(s1, i) else s1;
            Sound(s', w) && Evolves(s, s', w)
  {
    hide Sound, Evolves, CgiOk, CloseCgiStdin, Cgi.StdinRemaining;
    var o := s.stdinOf[i];
    var cgi := s.cgis[o];
    StdinOpen(s, w, i);
    DeliveredPart(cgi, count, w);
    var cgi' := cgi.(stdinWritten := cgi.stdinWritten + count, delivered := cgi.delivered + cgi.StdinRemaining()[..count]);
    if cgi'.StdinComplete() {
      CloseStdinGood(s, w, i, cgi');
    } else {
      SetCgiGood(s, w, o, cgi');
    }
  }

  lemma WriteFails(k: Kernel, w: World, data: bytes)
    requires data != [] && Write(k, w, data).1.WriteError?
    ensures !Delivers(w)
  {}

  lemma StdinGood(s: Loop, w: World, i: Fd)
    requires Sound(s, w)
    ensures Sound(CgiStdinWritable(s, w, i), w) && Evolves(s, CgiStdinWritable(s, w, i), w)
  {
    hide Sound, Evolves, CgiOk, CloseCgiStdin, Cgi.StdinRemaining, Write;
    CalledEvolves(s, w);
    if i in s.stdinOf && s.stdinOf[i] in s.cgis {
      var o := s.stdinOf[i];
      var cgi := s.cgis[o];
      StdinOpen(s, w, i);
      var (k, answer) := Write(s.k, w, cgi.StdinRemaining());
      var s1 := s.(k := k);
      WriteSound(s, w, cgi.StdinRemaining());
      KernelEvolves(s, k, w);
      if answer.Wrote? {
        StdinWrote(s1, w, i, answer.count);
        EvolvesTrans(s, s1, CgiStdinWritable(s, w, i), w);
      } else if answer.WriteError? {
        WriteFails(s.k, w, cgi.StdinRemaining());
        assert s1.cgis[o := cgi] == s1.cgis;
        CloseStdinGood(s1, w, i, cgi);
        EvolvesTrans(s, s1, CgiStdinWritable(s, w, i), w);
      }
    }
  }
}
