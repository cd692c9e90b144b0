/** Notices while a CGI is outstanding, and what becomes of the CGI's answer. */
module LoopNotices {
  import opened Bytes
  import opened Parser
  import opened Pipeline
  import opened Kernel
  import opened Loop
  import opened LoopInvariants
  import opened LoopHandlers
  import opened LoopEvents
  import opened LoopRuns
  import opened LoopResults
  import opened LoopIdle
  import opened LoopQuiet

  // --------------------------------------------------------- getting in front

  /** A read that leaves the connection waiting for its CGI, and what it adds to the stream. */
  ghost predicate StillWaiting(c: Conn, s: Loop, id: Fd, w: World, failure: Option<ParseError>) {
    && id in s.conns && s.conns[id].awaitingCgi && s.conns[id].log.serial == c.log.serial
    && (c.PendingWrite() != [] ==> s.conns[id].PendingWrite() != [])
    && match failure
       case None => s.conns[id].log.items == c.log.items && s.conns[id].closeAfterWrite == c.closeAfterWrite
       case Some(e) =>
         Closing(s.conns[id]) && Noticed(c, s.conns[id], w, if e == BodyTooLarge then TooLargePage else BadRequestPage)
  }

  /** The connection waits for a CGI, and closes once what is pending is written. */
  predicate Closing(c: Conn) { c.awaitingCgi && c.closeAfterWrite && c.PendingWrite() != [] }

  /** One more notice with this page is on the stream. */
  ghost predicate Noticed(c: Conn, c': Conn, w: World, page: Page) {
    exists reply: bytes :: IsPage(w, page, reply) && c'.log.items == c.log.items + [Notice(page, reply)]
  }

  /** Data has arrived, and the interest in the connection, which has something to write, cannot be changed. */
  predicate Breaks(s: Loop, w: World, id: Fd)
    requires id in s.conns
  {
    s.conns[id].PendingWrite() != [] && !w.modifies_(Read(s.k, w).0.calls)
  }

  /** A connection waits for a CGI and more data arrives: unless the connection breaks, the 413 or
      400 goes onto the stream, and thereby in front of the CGI's answer, exactly when the data does
      not parse, and then the connection closes once that is written. */
  lemma NoticeOvertakesIff(s: Loop, w: World, id: Fd, data: bytes)
    requires Sound(s, w) && id in s.conns && s.conns[id].awaitingCgi && Read(s.k, w).1 == Received(data)
    ensures var c, s' := s.conns[id], ClientReadable(s, w, id);
            if Breaks(s, w, id) then id !in s'.conns
            else StillWaiting(c, s', id, w, Drain(c.readBuf + data, w.maxBody).failure)
  {
    hide Sound, Inv, Settled, Drain, ArmWrite, QueueWriteAndClose, RemoveConnection, Arm, ConnOk, Evolves, Read, SameTies,
      Conn.PendingWrite, Reject;
    var c0 := s.conns[id];
    var s1 := s.(k := Read(s.k, w).0);
    ReadSound(s, w);
    var (c, failure) := Ingest(c0, w, data, s.clock);
    IngestedInv(s1, w, id, data);
    IngestShape(c0, w, data, s.clock);
    var s2 := SetConn(s1, id, c);
    assert Dispatch(s2, w, id) == s2;
    var s3 := ProcessQueued(s2, w, id);
    ArmedOrGone(s2, w, id);
    if failure.Some? {
      RejectedWaiting(s3, w, id, failure.value);
    }
  }

  lemma ArmedOrGone(s: Loop, w: World, id: Fd)
    requires Inv(s, w, None) && id in s.conns
    ensures var s' := Arm(s, w, id);
            if s.conns[id].PendingWrite() != [] && !w.modifies_(s.k.calls) then id !in s'.conns else s'.conns == s.conns
  {
    hide Inv, Conn.PendingWrite, RemoveConnection;
    if s.conns[id].PendingWrite() != [] {
      ArmKeepsIff(s, w, id);
    } else {
      ConnOf(s, w, id);
      hide ConnOk;
      PendingIff(s.conns[id], w);
    }
  }

  lemma RejectedWaiting(s: Loop, w: World, id: Fd, e: ParseError)
    ensures var s' := Reject(s, w, id, e);
            if id !in s.conns then id !in s'.conns
            else
              var c, c' := s.conns[id], s'.conns[id];
              && id in s'.conns && Noticed(c, c', w, RejectionPage(e)) && c'.log == c.log.(items := c'.log.items)
              && c'.awaitingCgi == c.awaitingCgi && c'.closeAfterWrite && c'.PendingWrite() != []
  {
    hide QueueWriteAndClose, ArmWrite, Conn.PendingWrite;
    var page := RejectionPage(e);
    var reply := w.page(page, s.k.calls);
    assert IsPage(w, page, reply);
    hide IsPage;
    if id in s.conns {
      NoticeAdds(s.conns[id], Notice(page, reply));
      ArmShape(SetConn(s, id, QueueWriteAndClose(s.conns[id], Notice(page, reply))), w, id);
    } else {
      ArmShape(s, w, id);
    }
  }

  lemma IngestedInv(s: Loop, w: World, id: Fd, data: bytes)
    requires Sound(s, w) && id in s.conns
    ensures Inv(SetConn(s, id, Ingest(s.conns[id], w, data, s.clock).0), w, None)
  {
    hide Inv, Settled, ConnOk, Ingest, SameTies;
    ConnOf(s, w, id);
    IngestOk(s.conns[id], w, data, s.clock);
    SetConnKeeps(s, w, None, id, Ingest(s.conns[id], w, data, s.clock).0);
  }

  lemma NoticeAdds(c: Conn, item: Item)
    requires item.reply != []
    ensures var c' := QueueWriteAndClose(c, item);
            && c'.log == c.log.(items := c.log.items + [item]) && c'.awaitingCgi == c.awaitingCgi && c'.closeAfterWrite
            && c'.PendingWrite() != []
  {
    QueuedPends(c, item);
  }

  // ------------------------------------------------- the fate of the CGI's answer

  /** The event finds the end of the CGI that works for `id`. */
  predicate Ends(s: Loop, w: World, e: Event, id: Fd) {
    && e.fd in s.cgis && s.cgis[e.fd].client == id && (e.error || e.hup || e.readable)
    && (Read(s.k, w).1.EndOfFile? || Read(s.k, w).1.ReadError?)
  }

  /** Why a process is given up when its stdout answers this. */
  function CauseOf(answer: ReadAnswer): Cause { if answer.ReadError? then ReadFailed else AtEnd }

  lemma EndMayFinish(s: Loop, w: World, o: Fd)
    requires Read(s.k, w).1.EndOfFile? || Read(s.k, w).1.ReadError?
    ensures MayFinish(s.(k := Read(s.k, w).0), w, o, CauseOf(Read(s.k, w).1))
  {}

  /** The interest in the connection can be changed when the CGI has ended and the queue been drained. */
  ghost predicate RearmsAfter(s: Loop, w: World, e: Event, id: Fd)
    requires Ends(s, w, e, id) && id in s.conns
  {
    var (k, answer) := Read(s.k, w);
    Rearms(Concluded(s.(k := k), w, e.fd, CauseOf(answer)), w, id)
  }

  /** The event makes the loop write the last pending byte, or finds the connection broken. */
  predicate Cuts(s: Loop, w: World, e: Event, id: Fd)
    requires id in s.conns && s.conns[id].PendingWrite() != []
  {
    && e.fd == id
    && if e.error then true
       else if e.writable then
         var answer := Write(s.k, w, s.conns[id].PendingWrite()).1;
         answer.WriteError? || (answer.Wrote? && answer.count == |s.conns[id].PendingWrite()|)
       else if e.readable then
         match Read(s.k, w).1
         case Received(_) => Breaks(s, w, id)
         case NothingToRead => false
         case _ => true
       else e.hup
  }

  /** Nothing has been decided: the connection still waits, and nothing was answered. */
  ghost predicate Undecided(c: Conn, s: Loop, id: Fd) {
    && id in s.conns && Closing(s.conns[id]) && s.conns[id].log.serial == c.log.serial
    && AnsweredOf(s.conns[id].log.items) == AnsweredOf(c.log.items)
  }

  /** An answer has been put on the stream of the connection that was `c`. */
  ghost predicate AnsweredSince(c: Conn, s: Loop, id: Fd) {
    && id in s.conns && s.conns[id].log.serial == c.log.serial
    && |AnsweredOf(s.conns[id].log.items)| > |AnsweredOf(c.log.items)|
  }

  lemma CutStep(s: Loop, w: World, e: Event, id: Fd)
    requires Good(s, w) && id in s.conns && Closing(s.conns[id]) && Cuts(s, w, e, id)
    ensures id !in Handle(s, w, e).conns
  {
    hide Good, RemoveConnection, Conn.PendingWrite, ListenerEvent, CgiStdoutReadable, CgiStdinWritable, ClientWritable,
      Read, Write, ClientReadable;
    OnlyConn(s, w, id);
    RemovedConns(s, w, id);
    if e.writable && !e.error {
      CutByWriting(s, w, id);
    } else if e.readable && !e.error {
      CutByReading(s, w, id);
    }
  }

  lemma CutByReading(s: Loop, w: World, id: Fd)
    requires Good(s, w) && id in s.conns && Closing(s.conns[id]) && !Read(s.k, w).1.NothingToRead?
    requires Read(s.k, w).1.Received? ==> Breaks(s, w, id)
    ensures id !in ClientReadable(s, w, id).conns
  {
    hide Good, Sound, Read, RemoveConnection, Breaks, Ingest, ProcessQueued, Reject, StillWaiting, Conn.PendingWrite;
    SoundOf(s, w);
    RemovedConns(s.(k := Read(s.k, w).0), w, id);
    if Read(s.k, w).1.Received? { NoticeOvertakesIff(s, w, id, Read(s.k, w).1.data); }
  }

  lemma CutByWriting(s: Loop, w: World, id: Fd)
    requires id in s.conns && Closing(s.conns[id])
    requires var pending := s.conns[id].PendingWrite();
             var answer := Write(s.k, w, pending).1;
             answer.WriteError? || (answer.Wrote? && answer.count == |pending|)
    ensures id !in ClientWritable(s, w, id).conns
  {
    hide RemoveConnection, Write;
    var (k, answer) := Write(s.k, w, s.conns[id].PendingWrite());
    RemovedConns(s.(k := k), w, id);
    if answer.Wrote? {
      var c := Advanced(s.conns[id], answer.count, s.clock);
      RemovedConns(SetConn(s.(k := k), id, c), w, id);
    }
  }

  lemma {:induction false} AnsweredGrows(a: seq<Item>, b: seq<Item>)
    requires a <= b
    ensures AnsweredOf(a) <= AnsweredOf(b)
    decreases |b|
  {
    if |a| < |b| {
      AnsweredGrows(a, b[..|b| - 1]);
    } else {
      assert a == b;
    }
  }

  lemma LongerAnswers(c: Conn, c': Conn, item: Item)
    requires item.Answer? && c.log.items + [item] <= c'.log.items
    ensures |AnsweredOf(c'.log.items)| > |AnsweredOf(c.log.items)|
  {
    hide AnsweredOf;
    ItemsAppend(c.log.items, item);
    AnsweredGrows(c.log.items + [item], c'.log.items);
  }

  lemma QueuedAnswers(c: Conn, c': Conn, w: World, cgi: Cgi, cause: Cause, at: nat)
    requires AnswerQueued(c, c', w, cgi, cause, at)
    ensures |AnsweredOf(c'.log.items)| > |AnsweredOf(c.log.items)|
  {
    hide IsOutcome, IsWait, AnsweredOf;
    var item: Item :| AnswersFor(w, item, cgi, cause, at) && c.log.items + [item] <= c'.log.items;
    LongerAnswers(c, c', item);
  }

  lemma ReadGood(s: Loop, w: World)
    requires Good(s, w)
    ensures Good(s.(k := Read(s.k, w).0), w)
  {
    hide Sound, Read, Numbered;
    ReadSound(s, w);
  }

  lemma EndStep(s: Loop, w: World, e: Event, id: Fd)
    requires Good(s, w) && id in s.conns && Ends(s, w, e, id)
    ensures if RearmsAfter(s, w, e, id) then AnsweredSince(s.conns[id], Handle(s, w, e), id)
            else id !in Handle(s, w, e).conns
  {
    hide Good, Sound, FinishCgi, AnswerQueued, Read, AnsweredOf, Evolves, Rearms, Concluded, GrowsBy, MayFinish;
    var s1, cause := s.(k := Read(s.k, w).0), CauseOf(Read(s.k, w).1);
    ReadGood(s, w);
    EndMayFinish(s, w, e.fd);
    OutcomeReachesAsker(s1, w, e.fd, cause);
    OnlyCgi(s, w, e.fd);
    FinishStaysIff(s1, w, e.fd, cause);
    var s' := FinishCgi(s1, w, e.fd, cause);
    SoundOf(s1, w);
    FinishGood(s1, w, e.fd, cause);
    if id in s'.conns {
      QueuedAnswers(s.conns[id], s'.conns[id], w, s.cgis[e.fd], cause, s.clock);
      EvolvesSerial(s1, s', w, id);
    }
  }

  lemma OnlyCgi(s: Loop, w: World, o: Fd)
    requires Good(s, w) && o in s.cgis
    ensures o !in s.listeners
  {
    hide Families, Stops, Linked, ConnsOk, CgisOk, LostOk, Settled, Numbered;
  }

  lemma EvolvesSerial(s: Loop, s': Loop, w: World, id: Fd)
    requires Evolves(s, s', w) && id in s.conns && id in s'.conns
    ensures s'.conns[id].log.serial == s.conns[id].log.serial
  {
    hide Ages;
  }

  lemma Unchanged(c: Conn, s: Loop, id: Fd)
    requires Closing(c) && id in s.conns && s.conns[id] == c
    ensures Undecided(c, s, id)
  {}

  /** A partial write leaves the matter open. */
  lemma PartStep(s: Loop, w: World, id: Fd)
    requires id in s.conns && Closing(s.conns[id])
    requires var pending := s.conns[id].PendingWrite();
             var answer := Write(s.k, w, pending).1;
             answer.NotWritable? || (answer.Wrote? && answer.count < |pending|)
    ensures Undecided(s.conns[id], ClientWritable(s, w, id), id)
  {
    hide RemoveConnection, Write, AnsweredOf;
  }

  /** A read that does not find the connection broken leaves the matter open. */
  lemma ReadStep(s: Loop, w: World, id: Fd)
    requires Good(s, w) && id in s.conns && Closing(s.conns[id])
    requires Read(s.k, w).1.NothingToRead? || (Read(s.k, w).1.Received? && !Breaks(s, w, id))
    ensures Undecided(s.conns[id], ClientReadable(s, w, id), id)
  {
    hide Good, Sound, Read, AnsweredOf, Drain, IsPage, Breaks, Conn.PendingWrite;
    SoundOf(s, w);
    if Read(s.k, w).1.Received? {
      var data := Read(s.k, w).1.data;
      NoticeOvertakesIff(s, w, id, data);
      var failure := Drain(s.conns[id].readBuf + data, w.maxBody).failure;
      hide ClientReadable;
      if failure.Some? {
        NoticedAnswers(s.conns[id], ClientReadable(s, w, id).conns[id], w, RejectionPage(failure.value));
      }
    }
  }

  lemma NoticedAnswers(c: Conn, c': Conn, w: World, page: Page)
    requires Noticed(c, c', w, page)
    ensures AnsweredOf(c'.log.items) == AnsweredOf(c.log.items)
  {
    hide IsPage, AnsweredOf;
    var reply: bytes :| c'.log.items == c.log.items + [Notice(page, reply)];
    ItemsAppend(c.log.items, Notice(page, reply));
  }

  lemma ServingStep(s: Loop, w: World, e: Event, id: Fd)
    requires Good(s, w) && id in s.conns && e.fd in s.cgis && s.cgis[e.fd].client == id && !Ends(s, w, e, id)
    ensures Handle(s, w, e).conns == s.conns
  {
    hide Good, FinishCgi, Read;
    OnlyCgi(s, w, e.fd);
  }

  /** Any other event leaves the matter open. */
  lemma OpenStep(s: Loop, w: World, e: Event, id: Fd)
    requires Good(s, w) && id in s.conns && Closing(s.conns[id])
    requires !Ends(s, w, e, id) && !Cuts(s, w, e, id)
    ensures Undecided(s.conns[id], Handle(s, w, e), id)
  {
    hide Good, RemoveConnection, Conn.PendingWrite, ListenerEvent, CgiStdoutReadable, CgiStdinWritable,
      ClientWritable, ClientReadable, Read, Write, Undecided, Breaks;
    if e.fd == id {
      OnlyConn(s, w, id);
      Unchanged(s.conns[id], s, id);
      if e.writable {
        PartStep(s, w, id);
      } else if e.readable {
        ReadStep(s, w, id);
      }
    } else if e.fd in s.cgis && s.cgis[e.fd].client == id {
      ServingStep(s, w, e, id);
      Unchanged(s.conns[id], Handle(s, w, e), id);
    } else {
      HandleElsewhere(s, w, e, id);
      Unchanged(s.conns[id], Handle(s, w, e), id);
    }
  }

  /** The connection that was `c` is gone for good. */
  predicate Gone(c: Conn, s: Loop, id: Fd) { !(id in s.conns && s.conns[id].log.serial == c.log.serial) }

  datatype Fate = Open | Delivered | Cut

  /** What an event decides. */
  ghost function StepFate(s: Loop, w: World, e: Event, id: Fd): Fate
    requires id in s.conns && s.conns[id].PendingWrite() != []
  {
    if Cuts(s, w, e, id) then Cut
    else if Ends(s, w, e, id) then (if RearmsAfter(s, w, e, id) then Delivered else Cut)
    else Open
  }

  /** What the first deciding event decides. */
  ghost function FateOf(s: Loop, w: World, events: seq<Event>, id: Fd): Fate
    decreases |events|
  {
    if events == [] || id !in s.conns || s.conns[id].PendingWrite() == [] then Open
    else
      var fate := StepFate(s, w, events[0], id);
      if fate.Open? then FateOf(Handle(s, w, events[0]), w, events[1..], id) else fate
  }

  /** The CGI that works for `id` has run out of time. */
  predicate IsLate(s: Loop, id: Fd) { exists o :: o in TimedOut(s) && s.cgis[o].client == id }

  /** What a tick decides: the timeout sweep if the CGI is late, else the first deciding event. */
  ghost function TickFate(s: Loop, w: World, t: Tick, id: Fd): Fate {
    if IsLate(s, id) then
      if exists o :: o in TimedOut(s) && s.cgis[o].client == id && Rearms(ToldLoop(s, w, o), w, id) then Delivered else Cut
    else
      FateOf(Waited(s, w, t), w, t.Events(), id)
  }

  /** The loop when the events of the tick are handled. */
  function Waited(s: Loop, w: World, t: Tick): Loop {
    var s1 := Sweep(s, w);
    s1.(clock := s1.clock + t.waited)
  }

  ghost function RunFate(s: Loop, w: World, ticks: seq<Tick>, id: Fd): Fate
    decreases |ticks|
  {
    if ticks == [] then Open
    else
      var fate := TickFate(s, w, ticks[0], id);
      if fate.Open? then RunFate(RunTick(s, w, ticks[0]), w, ticks[1..], id) else fate
  }

  /** At some point during these events an answer is on the stream of the connection that was `c`. */
  ghost predicate EverAnswered(c: Conn, s: Loop, w: World, events: seq<Event>, id: Fd) {
    exists n :: 0 <= n <= |events| && AnsweredSince(c, HandleAll(s, w, events[..n]), id)
  }

  /** At some point during the tick, be it between the timeout sweep and the idle sweep. */
  ghost predicate AnsweredIn(c: Conn, s: Loop, w: World, t: Tick, id: Fd) {
    AnsweredSince(c, SweepCgiTimeouts(s, w), id) || EverAnswered(c, Waited(s, w, t), w, t.Events(), id)
  }

  ghost predicate AnsweredInRun(c: Conn, s: Loop, w: World, ticks: seq<Tick>, id: Fd) {
    exists n :: 0 <= n < |ticks| && AnsweredIn(c, Run(s, w, ticks[..n]), w, ticks[n], id)
  }

  // ------------------------------------------------------------------ event by event

  /** The fate says what has become of the connection that was `c`. */
  ghost predicate Decided(c: Conn, s: Loop, id: Fd, fate: Fate) {
    match fate
    case Open => Undecided(c, s, id)
    case Delivered => AnsweredSince(c, s, id)
    case Cut => Gone(c, s, id)
  }

  lemma StepDecides(c: Conn, s: Loop, w: World, e: Event, id: Fd)
    requires Good(s, w) && Undecided(c, s, id)
    ensures Decided(c, Handle(s, w, e), id, StepFate(s, w, e, id))
  {
    hide Good, Handle, Cuts, Ends, RearmsAfter, AnsweredOf, Conn.PendingWrite;
    if Cuts(s, w, e, id) {
      CutStep(s, w, e, id);
    } else if Ends(s, w, e, id) {
      EndStep(s, w, e, id);
    } else {
      OpenStep(s, w, e, id);
    }
  }

  lemma GonePersists(c: Conn, s: Loop, s': Loop, id: Fd)
    requires Instances(s, s') && Gone(c, s, id) && c.log.serial < s.serials
    ensures Gone(c, s', id)
  {}

  lemma NeverBack(c: Conn, s: Loop, w: World, events: seq<Event>, id: Fd)
    requires Good(s, w) && Gone(c, s, id) && c.log.serial < s.serials
    ensures !EverAnswered(c, s, w, events, id) && Gone(c, HandleAll(s, w, events), id)
  {
    hide Good, AnsweredOf, HandleAll, Passes, Instances, Gone;
    forall n | 0 <= n <= |events| ensures Gone(c, HandleAll(s, w, events[..n]), id) {
      HandleAllGood(s, w, events[..n]);
      PassesAges(s, HandleAll(s, w, events[..n]), w);
      GonePersists(c, s, HandleAll(s, w, events[..n]), id);
    }
    assert events[..|events|] == events;
    GoneUnanswered(c, s, w, events, id);
  }

  lemma GoneUnanswered(c: Conn, s: Loop, w: World, events: seq<Event>, id: Fd)
    requires forall n :: 0 <= n <= |events| ==> Gone(c, HandleAll(s, w, events[..n]), id)
    ensures !EverAnswered(c, s, w, events, id)
  {
    hide HandleAll, AnsweredOf;
  }

  lemma EverStep(c: Conn, s: Loop, w: World, events: seq<Event>, id: Fd)
    requires events != [] && !AnsweredSince(c, s, id)
    ensures EverAnswered(c, s, w, events, id) <==> EverAnswered(c, Handle(s, w, events[0]), w, events[1..], id)
  {
    hide Handle, AnsweredSince;
    var s1 := Handle(s, w, events[0]);
    forall n | 1 <= n <= |events| ensures HandleAll(s, w, events[..n]) == HandleAll(s1, w, events[1..][..n - 1]) {
      assert events[..n][0] == events[0] && events[..n][1..] == events[1..][..n - 1];
    }
    assert HandleAll(s, w, events[..0]) == s;
    if n :| 0 <= n <= |events| && AnsweredSince(c, HandleAll(s, w, events[..n]), id) {
      assert AnsweredSince(c, HandleAll(s1, w, events[1..][..n - 1]), id);
    }
    if n :| 0 <= n <= |events[1..]| && AnsweredSince(c, HandleAll(s1, w, events[1..][..n]), id) {
      assert AnsweredSince(c, HandleAll(s, w, events[..n + 1]), id);
    }
  }

  /** An answer gets onto the stream during these events exactly when the first deciding one says so. */
  lemma {:induction false} EventsDecide(c: Conn, s: Loop, w: World, events: seq<Event>, id: Fd)
    requires Good(s, w) && Undecided(c, s, id)
    ensures var fate := FateOf(s, w, events, id);
            && (EverAnswered(c, s, w, events, id) <==> fate == Delivered)
            && (fate != Delivered ==> Decided(c, HandleAll(s, w, events), id, fate))
    decreases |events|
  {
    hide Good, Handle, StepFate, AnsweredOf, EverAnswered, Passes, Instances, Conn.PendingWrite, Gone;
    NotYet(c, s, id);
    if events == [] {
      NothingYetAnswered(c, s, w, id);
    } else {
      var s1 := Handle(s, w, events[0]);
      HandleGood(s, w, events[0]);
      PassesAges(s, s1, w);
      MoreSerials(s, s1);
      SerialBelow(s, w, id);
      EverStep(c, s, w, events, id);
      StepDecides(c, s, w, events[0], id);
      match StepFate(s, w, events[0], id)
      case Open => EventsDecide(c, s1, w, events[1..], id);
      case Delivered => AnsweredNow(c, s1, w, events[1..], id);
      case Cut => NeverBack(c, s1, w, events[1..], id);
    }
  }

  lemma NotYet(c: Conn, s: Loop, id: Fd)
    requires Undecided(c, s, id)
    ensures !AnsweredSince(c, s, id)
  {
    hide AnsweredOf;
  }

  lemma NothingYetAnswered(c: Conn, s: Loop, w: World, id: Fd)
    requires !AnsweredSince(c, s, id)
    ensures !EverAnswered(c, s, w, [], id)
  {
    hide AnsweredSince;
  }

  lemma AnsweredNow(c: Conn, s: Loop, w: World, events: seq<Event>, id: Fd)
    requires AnsweredSince(c, s, id)
    ensures EverAnswered(c, s, w, events, id)
  {
    hide AnsweredSince;
    assert events[..0] == [] && HandleAll(s, w, events[..0]) == s;
  }

  // ------------------------------------------------------------------- tick by tick

  /** A connection whose CGI is in time is not touched by the sweeps. */
  lemma SweepsSpare(s: Loop, w: World, id: Fd)
    requires Good(s, w) && id in s.conns && s.conns[id].awaitingCgi && !IsLate(s, id)
    ensures Kept(s, SweepCgiTimeouts(s, w), id) && Kept(s, Sweep(s, w), id)
  {
    hide Good, Sound, FinishAll, Listing, SweepPendingReaps, SweepIdleConnections, TimedOut, AllLate, Within, Passes;
    var os := Listing(TimedOut(s), w, s.k.calls);
    LateOnes(s, id);
    ListedLate(s, w);
    assert WorkElsewhere(s, os, id);
    ServedElsewhere(s, w, os, id);
    var s1 := SweepCgiTimeouts(s, w);
    ReapedConns(s1, w);
    var s2 := SweepPendingReaps(s1, w);
    AgedGood(s, w);
    SoundOf(s2, w);
    FrameOf(s, w);
    IdleSweepOutcome(s2, w, id);
  }

  lemma LateOnes(s: Loop, id: Fd)
    requires !IsLate(s, id)
    ensures forall o :: o in TimedOut(s) ==> o in s.cgis && s.cgis[o].client != id
  {}

  /** The timeout sweep evolves the loop. */
  lemma TimeoutsEvolve(s: Loop, w: World)
    requires Good(s, w)
    ensures Evolves(s, SweepCgiTimeouts(s, w), w)
  {
    hide Sound, Evolves, FinishAll, Listing, TimedOut, AllLate;
    var late := Listing(TimedOut(s), w, s.k.calls);
    assert Elems(late) == TimedOut(s);
    ListedLate(s, w);
    FinishAllGood(s, w, late);
  }

  lemma ToldAnswers(c: Conn, c': Conn, w: World, cgi: Cgi)
    requires Told(c, c', w, cgi)
    ensures |AnsweredOf(c'.log.items)| > |AnsweredOf(c.log.items)|
  {
    hide IsPage, AnsweredOf;
    var item: Item :| Tells(item, w, cgi) && c.log.items + [item] <= c'.log.items;
    LongerAnswers(c, c', item);
  }

  /** The timeout sweep ends the CGI that works for `id`. */
  lemma LateDecides(c: Conn, s: Loop, w: World, o: Fd, id: Fd)
    requires Good(s, w) && Undecided(c, s, id) && o in TimedOut(s) && s.cgis[o].client == id
    ensures Decided(c, SweepCgiTimeouts(s, w), id, if Rearms(ToldLoop(s, w, o), w, id) then Delivered else Cut)
  {
    hide Good, Sound, FinishAll, Listing, Told, LoopAt, Rearms, AnsweredOf, Evolves, Closing;
    var os := Listing(TimedOut(s), w, s.k.calls);
    ListedLate(s, w);
    assert o in s.cgis && o in os;
    hide TimedOut, AllLate;
    ClientToldAmongAll(s, w, os, o);
    TimeoutsEvolve(s, w);
    var s1 := SweepCgiTimeouts(s, w);
    if id in s1.conns {
      ToldAnswers(s.conns[id], s1.conns[id], w, s.cgis[o]);
      EvolvesSerial(s, s1, w, id);
    }
  }

  lemma OnlyOneLate(s: Loop, w: World, id: Fd, o: Fd)
    requires Good(s, w) && o in TimedOut(s) && s.cgis[o].client == id
    ensures forall p :: p in TimedOut(s) && s.cgis[p].client == id ==> p == o
  {
    hide Tables, Families, Stops, ConnsOk, CgisOk, LostOk, Settled, Numbered;
  }

  lemma WaitedGood(s: Loop, w: World, t: Tick)
    requires Good(s, w)
    ensures Good(Waited(s, w, t), w) && Instances(s, Waited(s, w, t)) && Waited(s, w, t).conns == Sweep(s, w).conns
    ensures RunTick(s, w, t) == HandleAll(Waited(s, w, t), w, t.Events())
  {
    hide Good, Sweep, HandleAll, Passes, Within, Instances;
    SweepGood(s, w);
    var s1 := Sweep(s, w);
    TimeGood(s1, w, s1.clock + t.waited, s1.lastSweep);
    assert Waited(s, w, t) == s1.(clock := s1.clock + t.waited, lastSweep := s1.lastSweep);
    PassesAges(s, s1, w);
    TimeInstances(s, s1, Waited(s, w, t));
  }

  lemma SameUndecided(c: Conn, s: Loop, s': Loop, id: Fd)
    requires Undecided(c, s, id) && id in s'.conns && s'.conns[id] == s.conns[id]
    ensures Undecided(c, s', id)
  {}

  /** A tick that begins with the end of the CGI. */
  lemma LateTick(c: Conn, s: Loop, w: World, t: Tick, id: Fd)
    requires Good(s, w) && Undecided(c, s, id) && IsLate(s, id)
    ensures var fate := TickFate(s, w, t, id);
            && !fate.Open? && (AnsweredIn(c, s, w, t, id) <==> fate == Delivered)
            && (fate.Cut? ==> Gone(c, RunTick(s, w, t), id))
  {
    hide Good, Sweep, SweepCgiTimeouts, HandleAll, Rearms, ToldLoop, AnsweredOf, EverAnswered, Instances, Closing, Waited, RunTick;
    var o :| o in TimedOut(s) && s.cgis[o].client == id;
    OnlyOneLate(s, w, id, o);
    LateDecides(c, s, w, o, id);
    SerialBelow(s, w, id);
    if TickFate(s, w, t, id).Cut? {
      assert Gone(c, SweepCgiTimeouts(s, w), id);
      SweptGone(c, s, w, id);
      WaitedGood(s, w, t);
      MoreSerials(s, Waited(s, w, t));
      assert Gone(c, Waited(s, w, t), id);
      NeverBack(c, Waited(s, w, t), w, t.Events(), id);
    }
  }

  /** What the timeout sweep removes, the other sweeps do not bring back. */
  lemma SweptGone(c: Conn, s: Loop, w: World, id: Fd)
    requires Good(s, w) && Gone(c, SweepCgiTimeouts(s, w), id)
    ensures Gone(c, Sweep(s, w), id)
  {
    hide Good, Sound, SweepCgiTimeouts, SweepPendingReaps, SweepIdleConnections, Within, Passes;
    var s1 := SweepCgiTimeouts(s, w);
    var s2 := SweepPendingReaps(s1, w);
    ReapedConns(s1, w);
    AgedGood(s, w);
    SoundOf(s2, w);
    IdleGone(c, s2, w, id);
  }

  lemma IdleGone(c: Conn, s: Loop, w: World, id: Fd)
    requires Sound(s, w) && Gone(c, s, id)
    ensures Gone(c, SweepIdleConnections(s, w), id)
  {
    hide Sound, ExpireAll, Listing, IdleConnections, Ages;
    ExpireAllGood(s, w, Listing(IdleConnections(s), w, s.k.calls));
  }

  lemma TickDecides(c: Conn, s: Loop, w: World, t: Tick, id: Fd)
    requires Good(s, w) && Undecided(c, s, id)
    ensures var fate := TickFate(s, w, t, id);
            && (AnsweredIn(c, s, w, t, id) <==> fate == Delivered)
            && (fate != Delivered ==> Decided(c, RunTick(s, w, t), id, fate))
  {
    hide Good, Sweep, SweepCgiTimeouts, HandleAll, AnsweredOf, EverAnswered, Instances, Closing, Waited, RunTick, Gone, IsLate, FateOf;
    if IsLate(s, id) {
      LateTick(c, s, w, t, id);
    } else {
      WaitsFor(c, s, id);
      SweepsSpare(s, w, id);
      WaitedGood(s, w, t);
      SameUndecided(c, s, SweepCgiTimeouts(s, w), id);
      SameUndecided(c, s, Waited(s, w, t), id);
      NotYet(c, SweepCgiTimeouts(s, w), id);
      EventsDecide(c, Waited(s, w, t), w, t.Events(), id);
    }
  }

  lemma WaitsFor(c: Conn, s: Loop, id: Fd)
    requires Undecided(c, s, id)
    ensures id in s.conns && s.conns[id].awaitingCgi
  {}

  // -------------------------------------------------------------------- run by run

  lemma TickGone(c: Conn, s: Loop, w: World, t: Tick, id: Fd)
    requires Good(s, w) && Gone(c, s, id) && c.log.serial < s.serials
    ensures !AnsweredIn(c, s, w, t, id)
  {
    hide Good, Sweep, SweepCgiTimeouts, HandleAll, AnsweredOf, EverAnswered, Instances, Waited, Gone, Evolves;
    TimeoutsEvolve(s, w);
    EvolvesGone(c, s, SweepCgiTimeouts(s, w), w, id);
    WaitedGood(s, w, t);
    GonePersists(c, s, Waited(s, w, t), id);
    MoreSerials(s, Waited(s, w, t));
    NeverBack(c, Waited(s, w, t), w, t.Events(), id);
    GoneIsSilent(c, SweepCgiTimeouts(s, w), id);
  }

  lemma GoneIsSilent(c: Conn, s: Loop, id: Fd)
    requires Gone(c, s, id)
    ensures !AnsweredSince(c, s, id)
  {}

  lemma EvolvesGone(c: Conn, s: Loop, s': Loop, w: World, id: Fd)
    requires Evolves(s, s', w) && Gone(c, s, id)
    ensures Gone(c, s', id)
  {
    hide Ages;
  }

  lemma NeverAgain(c: Conn, s: Loop, w: World, ticks: seq<Tick>, id: Fd)
    requires Good(s, w) && Gone(c, s, id) && c.log.serial < s.serials
    ensures !AnsweredInRun(c, s, w, ticks, id)
  {
    hide Good, Run, AnsweredIn, Instances, Gone, AllOnTime, Within;
    forall n | 0 <= n < |ticks| ensures !AnsweredIn(c, Run(s, w, ticks[..n]), w, ticks[n], id) {
      var s' := Run(s, w, ticks[..n]);
      RunGood(s, w, ticks[..n]);
      GonePersists(c, s, s', id);
      MoreSerials(s, s');
      TickGone(c, s', w, ticks[n], id);
    }
  }

  lemma RunStep(c: Conn, s: Loop, w: World, ticks: seq<Tick>, id: Fd)
    requires ticks != []
    ensures AnsweredInRun(c, s, w, ticks, id) <==>
              AnsweredIn(c, s, w, ticks[0], id) || AnsweredInRun(c, RunTick(s, w, ticks[0]), w, ticks[1..], id)
  {
    hide RunTick, AnsweredIn;
    var s1 := RunTick(s, w, ticks[0]);
    forall n | 1 <= n < |ticks| ensures Run(s, w, ticks[..n]) == Run(s1, w, ticks[1..][..n - 1]) {
      assert ticks[..n][0] == ticks[0] && ticks[..n][1..] == ticks[1..][..n - 1];
    }
    assert Run(s, w, ticks[..0]) == s;
    if n :| 0 <= n < |ticks| && AnsweredIn(c, Run(s, w, ticks[..n]), w, ticks[n], id) {
      assert n > 0 ==> AnsweredIn(c, Run(s1, w, ticks[1..][..n - 1]), w, ticks[1..][n - 1], id);
    }
    if n :| 0 <= n < |ticks[1..]| && AnsweredIn(c, Run(s1, w, ticks[1..][..n]), w, ticks[1..][n], id) {
      assert AnsweredIn(c, Run(s, w, ticks[..n + 1]), w, ticks[n + 1], id);
    }
  }

  lemma {:induction false} RunDecides(c: Conn, s: Loop, w: World, ticks: seq<Tick>, id: Fd)
    requires Good(s, w) && Undecided(c, s, id)
    ensures AnsweredInRun(c, s, w, ticks, id) <==> RunFate(s, w, ticks, id) == Delivered
    decreases |ticks|
  {
    hide Good, RunTick, TickFate, AnsweredIn, AnsweredInRun, Instances, Gone, Undecided, OnTime, Within;
    if ticks == [] {
      NoTicks(c, s, w, id);
    } else {
      var s1 := RunTick(s, w, ticks[0]);
      TickGood(s, w, ticks[0]);
      UndecidedSerial(c, s, w, id);
      MoreSerials(s, s1);
      RunStep(c, s, w, ticks, id);
      TickDecides(c, s, w, ticks[0], id);
      match TickFate(s, w, ticks[0], id)
      case Open => RunDecides(c, s1, w, ticks[1..], id);
      case Delivered =>
      case Cut => NeverAgain(c, s1, w, ticks[1..], id);
    }
  }

  lemma NoTicks(c: Conn, s: Loop, w: World, id: Fd)
    ensures !AnsweredInRun(c, s, w, [], id)
  {}

  lemma UndecidedSerial(c: Conn, s: Loop, w: World, id: Fd)
    requires Good(s, w) && Undecided(c, s, id)
    ensures c.log.serial < s.serials
  {
    hide Good, Closing, AnsweredOf;
    SerialBelow(s, w, id);
  }

  /** A notice has overtaken the answer of a CGI.  Over whatever ticks follow, the answer still
      gets onto the stream behind it exactly when the CGI's end is found, by an event or by the
      timeout sweep, before an event that makes the loop write the last pending byte or finds the
      connection broken, and the interest in the connection can then be changed. */
  lemma AnswerStillGoesOutIff(s: Loop, w: World, ticks: seq<Tick>, id: Fd)
    requires Reachable(s, w) && id in s.conns && Closing(s.conns[id])
    ensures AnsweredInRun(s.conns[id], s, w, ticks, id) <==> RunFate(s, w, ticks, id) == Delivered
  {
    hide Reachable, Good, RunFate, AnsweredInRun, Closing, AnsweredOf;
    ReachableGood(s, w);
    RunDecides(s.conns[id], s, w, ticks, id);
  }
}
