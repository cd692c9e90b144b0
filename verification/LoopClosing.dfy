/** Exactly when an event makes the loop close a connection. */
module LoopClosing {
  import opened Bytes
  import opened Pipeline
  import opened Kernel
  import opened Loop
  import opened LoopInvariants
  import opened LoopHandlers
  import opened LoopEvents
  import opened LoopRuns
  import opened LoopResults
  import opened LoopIdle
  import opened LoopQuiet
  import opened LoopNotices

  /** A write fails, or completes and either a notice is on the stream or the connection cannot go back to reading. */
  predicate WriteCloses(s: Loop, w: World, id: Fd)
    requires id in s.conns
  {
    var c := s.conns[id];
    && c.PendingWrite() != []
    && match Write(s.k, w, c.PendingWrite()).1
       case WriteError => true
       case NotWritable => false
       case Wrote(count) => count == |c.PendingWrite()| && (c.closeAfterWrite || !w.modifies_(s.k.calls + 1))
  }

  /** The loop when new data has been parsed and the queue drained. */
  function Drained(s: Loop, w: World, id: Fd, data: bytes): Loop
    requires id in s.conns
  {
    Dispatch(SetConn(s.(k := Called(s.k)), id, Ingest(s.conns[id], w, data, s.clock).0), w, id)
  }

  /** A read finds the connection at its end or broken, or leaves something to write and no way to wait for that. */
  predicate ReadCloses(s: Loop, w: World, id: Fd)
    requires id in s.conns
  {
    match Read(s.k, w).1
    case EndOfFile => true
    case ReadError => true
    case NothingToRead => false
    case Received(data) =>
      var d := Drained(s, w, id, data);
      id in d.conns && d.conns[id].PendingWrite() != [] && !w.modifies_(d.k.calls)
  }

  ghost predicate Closes(s: Loop, w: World, e: Event, id: Fd)
    requires id in s.conns
  {
    if e.fd in s.cgis then Ends(s, w, e, id) && !RearmsAfter(s, w, e, id)
    else
      && e.fd == id
      && if e.error then true
         else if e.writable then WriteCloses(s, w, id)
         else if e.readable then ReadCloses(s, w, id)
         else e.hup
  }

  lemma WriteClosesIff(s: Loop, w: World, id: Fd)
    requires Good(s, w) && id in s.conns
    ensures id !in ClientWritable(s, w, id).conns <==> WriteCloses(s, w, id)
  {
    hide Good, Sound, Inv, Write, RemoveConnection, AfterWrite, ConnOk, Tables, Conn.PendingWrite;
    SoundOf(s, w);
    InvOf(s, w);
    ConnOf(s, w, id);
    PendingIff(s.conns[id], w);
    InvBasics(s, w, None);
    Interested(s, id);
    if s.conns[id].PendingWrite() != [] {
      var (k, answer) := Write(s.k, w, s.conns[id].PendingWrite());
      var s1 := s.(k := k);
      RemovedConns(s1, w, id);
      WriteCalls(s.k, w, s.conns[id].PendingWrite());
      if answer.Wrote? { AfterWriteCloses(s1, w, id, answer.count); }
    }
  }

  lemma WriteCalls(k: Kernel, w: World, data: bytes)
    requires data != []
    ensures Write(k, w, data).0 == Called(k)
  {}

  lemma AfterWriteCloses(s: Loop, w: World, id: Fd, count: nat)
    requires id in s.conns && id in s.k.interest && 1 <= count <= |s.conns[id].PendingWrite()|
    ensures id !in AfterWrite(s, w, id, count).conns <==>
              count == |s.conns[id].PendingWrite()| && (s.conns[id].closeAfterWrite || !w.modifies_(s.k.calls))
  {
    hide RemoveConnection;
    var c := Advanced(s.conns[id], count, s.clock);
    RemovedConns(SetConn(s, id, c), w, id);
    RemovedConns(SetConn(s.(k := Modify(s.k, w, id, Readable).0), id, Emptied(c)), w, id);
  }

  lemma ReadClosesIff(s: Loop, w: World, id: Fd)
    requires Good(s, w) && id in s.conns
    ensures id !in ClientReadable(s, w, id).conns <==> ReadCloses(s, w, id)
  {
    hide Good, Sound, Inv, Settled, Read, RemoveConnection, Ingest, Dispatch, Arm, Reject, Conn.PendingWrite, Evolves;
    SoundOf(s, w);
    ReadSound(s, w);
    ReadCalls(s.k, w);
    var (k, answer) := Read(s.k, w);
    RemovedConns(s.(k := k), w, id);
    if answer.Received? {
      var (c, failure) := Ingest(s.conns[id], w, answer.data, s.clock);
      var s1 := SetConn(s.(k := k), id, c);
      IngestedInv(s.(k := k), w, id, answer.data);
      IngestedSettled(s.(k := k), w, id, answer.data);
      DispatchGood(s1, w, id);
      var d := Dispatch(s1, w, id);
      ArmedOrGone(d, w, id);
      if failure.Some? { RejectedWaiting(Arm(d, w, id), w, id, failure.value); }
    }
  }

  lemma IngestedSettled(s: Loop, w: World, id: Fd, data: bytes)
    requires Sound(s, w) && id in s.conns
    ensures Settled(SetConn(s, id, Ingest(s.conns[id], w, data, s.clock).0), w, Some(id))
  {
    hide Inv, Settled, Ingest, Conn.PendingWrite;
    IngestPends(s.conns[id], w, data, s.clock);
    BusySettled(s, w, id, Ingest(s.conns[id], w, data, s.clock).0);
  }

  lemma IngestPends(c: Conn, w: World, data: bytes, now: nat)
    ensures Ingest(c, w, data, now).0.PendingWrite() == c.PendingWrite()
  {
    hide Drain;
  }

  lemma ReadCalls(k: Kernel, w: World)
    ensures Read(k, w).0 == Called(k)
  {}

  /** An event closes a connection exactly if its CGI has ended and it cannot be re-armed for the answer,
      or if the event is its own and reports an error, or nothing but a hangup; or makes the loop
      write, and that fails, or completes behind a notice; or makes the loop read, and that finds
      the end or fails; or leaves the loop no way to wait for what it waits for. */
  lemma ClosesIff(s: Loop, w: World, e: Event, id: Fd)
    requires Good(s, w) && id in s.conns
    ensures id !in Handle(s, w, e).conns <==> Closes(s, w, e, id)
  {
    hide Good, RemoveConnection, ListenerEvent, CgiStdoutReadable, CgiStdinWritable, ClientWritable, ClientReadable,
      RearmsAfter, WriteCloses, ReadCloses;
    OnlyConn(s, w, id);
    if e.fd in s.cgis && s.cgis[e.fd].client == id {
      if Ends(s, w, e, id) {
        EndCloses(s, w, e, id);
      } else {
        ServingStep(s, w, e, id);
      }
    } else if e.fd == id {
      RemovedConns(s, w, id);
      WriteClosesIff(s, w, id);
      ReadClosesIff(s, w, id);
    } else {
      HandleElsewhere(s, w, e, id);
    }
  }

  lemma EndCloses(s: Loop, w: World, e: Event, id: Fd)
    requires Good(s, w) && id in s.conns && Ends(s, w, e, id)
    ensures id in Handle(s, w, e).conns <==> RearmsAfter(s, w, e, id)
  {
    hide Good, Handle, Ends, RearmsAfter, AnsweredOf;
    EndStep(s, w, e, id);
  }
}
