/** What every handler of the event loop keeps. */
module LoopInvariants {
  import opened Bytes
  import opened Parser
  import opened Pipeline
  import opened Kernel
  import opened Loop

  // -------------------------------------------------------------- the invariant

  /** Every open descriptor has exactly one owner, or was lost. */
  predicate Owned(listeners: set<Fd>, conns: set<Fd>, cgis: set<Fd>, stdins: set<Fd>, lost: set<Fd>, open: set<Fd>) {
    && listeners !! conns !! cgis !! stdins !! lost
    && open == listeners + conns + cgis + stdins + lost
  }

  /** Exactly the owned descriptors are watched; pipes and listeners with a fixed interest. */
  ghost predicate Watched(listeners: set<Fd>, conns: set<Fd>, cgis: set<Fd>, stdins: set<Fd>, interest: map<Fd, Interest>) {
    && interest.Keys == listeners + conns + cgis + stdins
    && (forall fd :: fd in listeners ==> interest[fd] == Readable)
    && (forall fd :: fd in cgis ==> interest[fd] == Readable)
    && (forall fd :: fd in stdins ==> interest[fd] == Writable)
  }

  /** The stdin table and the stdin fields of the processes are inverse to each other. */
  ghost predicate Piped(cgis: map<Fd, Cgi>, stdinOf: map<Fd, Fd>) {
    && (forall i :: i in stdinOf ==> stdinOf[i] in cgis && cgis[stdinOf[i]].stdin == Some(i))
    && (forall o :: o in cgis && cgis[o].stdin.Some? ==>
          cgis[o].stdin.value in stdinOf && stdinOf[cgis[o].stdin.value] == o)
  }

  ghost predicate RunsChild(cgis: map<Fd, Cgi>, pid: Pid) {
    exists o :: o in cgis && cgis[o].pid == pid
  }

  /** Every unreaped child is known in exactly one place, or was lost. */
  ghost predicate Families(cgis: map<Fd, Cgi>, reap: seq<Pid>, lost: set<Pid>, children: set<Pid>) {
    && (forall o :: o in cgis ==> cgis[o].pid in children && cgis[o].pid !in reap && cgis[o].pid !in lost)
    && (forall o, p :: o in cgis && p in cgis && o != p ==> cgis[o].pid != cgis[p].pid)
    && (forall i, j :: 0 <= i < j < |reap| ==> reap[i] != reap[j])
    && (forall pid :: pid in reap ==> pid in children && pid !in lost)
    && lost <= children
    && (forall pid :: pid in children ==> pid in reap || pid in lost || RunsChild(cgis, pid))
  }

  /** A running process has not been killed; of the children still to be reaped exactly those
      have been killed that had not come to their end. */
  ghost predicate Stops(cgis: map<Fd, Cgi>, reap: seq<Pid>, killed: set<Pid>, ended: set<Pid>) {
    && (forall o :: o in cgis ==> cgis[o].pid !in killed && cgis[o].pid !in ended)
    && (forall pid :: pid in reap ==> (pid in killed <==> pid !in ended))
  }

  /** The process works for the last request dispatched on this very instance of its client. */
  predicate WorksFor(cgi: Cgi, conns: map<Fd, Conn>) {
    && cgi.client in conns
    && conns[cgi.client].awaitingCgi
    && conns[cgi.client].log.serial == cgi.serial
    && conns[cgi.client].log.dispatched != []
    && conns[cgi.client].log.dispatched[|conns[cgi.client].log.dispatched| - 1] == cgi.request
  }

  ghost predicate IsServed(cgis: map<Fd, Cgi>, id: Fd) {
    exists o :: o in cgis && cgis[o].client == id
  }

  /** Processes and waiting connections correspond one to one; `hole` is a
      descriptor for which a handler is just taking the pair apart. */
  ghost predicate Linked(conns: map<Fd, Conn>, cgis: map<Fd, Cgi>, hole: Option<Fd>) {
    && (forall o :: o in cgis ==> Some(cgis[o].client) == hole || WorksFor(cgis[o], conns))
    && (forall o, p :: o in cgis && p in cgis && o != p ==> cgis[o].client != cgis[p].client)
    && (forall id :: id in conns && conns[id].awaitingCgi ==> Some(id) == hole || IsServed(cgis, id))
  }

  /** The requests answered so far. */
  function AnsweredOf(items: seq<Item>): seq<HttpRequest> {
    if items == [] then []
    else AnsweredOf(items[..|items| - 1]) + (if items[|items| - 1].Answer? then [items[|items| - 1].request] else [])
  }

  /** The last request answered had its CGI refused. */
  predicate EndsRefused(items: seq<Item>)
    decreases |items|
  {
    && items != []
    && match items[|items| - 1]
       case Answer(_, _, origin) => origin.Refused?
       case Notice(_, _) => EndsRefused(items[..|items| - 1])
  }

  function BytesOf(items: seq<Item>): bytes {
    if items == [] then [] else BytesOf(items[..|items| - 1]) + items[|items| - 1].reply
  }

  /** Requests leave the queue in the order they were parsed, and their answers
      follow in that order; only the one being worked on by a CGI is outstanding. */
  predicate Ordered(c: Conn) {
    && c.log.parsed == c.log.dispatched + c.requests
    && (c.awaitingCgi ==> c.log.dispatched != [])
    && AnsweredOf(c.log.items) ==
       if c.awaitingCgi then c.log.dispatched[..|c.log.dispatched| - 1] else c.log.dispatched
  }

  /** Bytes sent and bytes pending are together all the bytes ever queued. */
  predicate Conserved(c: Conn) {
    && c.writeOffset <= |c.writeBuf|
    && BytesOf(c.log.items) == c.log.sent + c.PendingWrite()
  }

  /** Some beginning of the bytes received does not parse. */
  predicate Malformed(input: bytes, maxBody: nat) {
    exists n | 0 <= n <= |input| :: Drain(input[..n], maxBody).failure.Some?
  }

  /** Until a parse error, the requests are those of the whole byte stream received;
      and there is none unless the stream is to blame. */
  predicate Faithful(c: Conn, w: World) {
    if c.log.parseFailed then Malformed(c.log.input, w.maxBody)
    else Drain(c.log.input, w.maxBody) == ReadOut(c.log.parsed, c.readBuf, None)
  }

  // What is on the stream, and why.

  ghost predicate IsPage(w: World, page: Page, reply: bytes) {
    exists n: nat :: reply == w.page(page, n)
  }

  /** `handle_request` answered the request with this reply. */
  ghost predicate IsResponse(w: World, request: HttpRequest, reply: bytes) {
    exists n: nat :: w.handle(request, n).Respond? && reply == w.handle(request, n).reply
  }

  /** `handle_request` asked for a CGI for the request. */
  ghost predicate AsksCgi(w: World, request: HttpRequest) {
    exists n: nat :: w.handle(request, n).StartCgi?
  }

  /** The kernel answered a read with the end of the file. */
  ghost predicate IsEnd(w: World) {
    exists n: nat :: w.reads_(n) == EndOfFile || w.reads_(n) == Received([])
  }

  ghost predicate IsReadError(w: World) {
    exists n: nat :: w.reads_(n) == ReadError
  }

  /** The kernel answered a wait for a child with this. */
  ghost predicate IsWait(w: World, answer: WaitAnswer) {
    match answer
    case Exited(code) => exists n: nat :: w.exits(n) == Some(code)
    case Running => exists n: nat :: w.exits(n) == None
    case WaitError => false
  }

  /** As far as is known, the child has not failed. */
  predicate EndedWell(answer: WaitAnswer) { answer == Exited(0) || answer == Running }

  ghost predicate IsCgiReply(w: World, output: bytes, reply: bytes) {
    exists n: nat :: reply == w.cgiPage(output, n)
  }

  /** The kernel answered a read with this data. */
  ghost predicate IsRead(w: World, data: bytes) {
    exists n: nat :: w.reads_(n) == Received(data)
  }

  /** What a child's output amounts to is what was read from it, piece by piece. */
  ghost predicate OutputOk(cgi: Cgi, w: World) {
    && cgi.output == Concat(cgi.received)
    && forall i :: 0 <= i < |cgi.received| ==> IsRead(w, cgi.received[i])
  }

  /** The reply is what a process amounts to: the page made of all that was read from it up to its
      end, even if that is nothing, unless it wrote nothing and failed; and the 500 if it failed
      like that, if its stdout could not be read, or if it ran for more than ten seconds. */
  ghost predicate IsOutcome(w: World, cgi: Cgi, cause: Cause, answer: WaitAnswer, at: nat, reply: bytes) {
    match cause
    case AtEnd =>
      && IsEnd(w)
      && (if cgi.output == [] && !EndedWell(answer) then IsPage(w, ServerErrorPage, reply) else IsCgiReply(w, cgi.output, reply))
    case ReadFailed => IsReadError(w) && IsPage(w, ServerErrorPage, reply)
    case TookTooLong => at - cgi.startedAt > 10_000 && IsPage(w, ServerErrorPage, reply)
    case ClientGone => false
  }

  /** The reply is what became of this very request: what `handle_request` responded or,
      where it asked for a CGI, the 500 if none was started, and otherwise what the process
      that worked for the request amounts to. */
  ghost predicate Justified(w: World, request: HttpRequest, reply: bytes, origin: Origin) {
    match origin
    case Handled => IsResponse(w, request, reply)
    case Refused => AsksCgi(w, request) && IsPage(w, ServerErrorPage, reply)
    case Ran(cgi, cause, answer, at) =>
      && AsksCgi(w, request) && cgi.request == request && OutputOk(cgi, w) && IsWait(w, answer)
      && IsOutcome(w, cgi, cause, answer, at, reply)
  }

  /** A notice is the 408 or, once parsing has failed, the 400 or 413. */
  ghost predicate ItemOk(item: Item, w: World, parseFailed: bool) {
    match item
    case Answer(request, reply, origin) => Justified(w, request, reply, origin)
    case Notice(page, reply) =>
      && IsPage(w, page, reply)
      && (page == TimeoutPage || (parseFailed && page in {BadRequestPage, TooLargePage}))
  }

  ghost predicate ItemsOk(items: seq<Item>, w: World, parseFailed: bool) {
    forall i :: 0 <= i < |items| ==> ItemOk(items[i], w, parseFailed)
  }

  ghost predicate ConnOk(c: Conn, w: World) {
    && Ordered(c) && Conserved(c) && Faithful(c, w) && ItemsOk(c.log.items, w, c.log.parseFailed)
    && c.closeAfterWrite == HasNotice(c.log.items)
  }

  /** Whether a notice is among these. */
  predicate HasNotice(items: seq<Item>)
    decreases |items|
  {
    items != [] && (items[|items| - 1].Notice? || HasNotice(items[..|items| - 1]))
  }

  /** Descriptors can always be registered, and no write fails. */
  ghost predicate Delivers(w: World) {
    && (forall n: nat :: w.registers(n))
    && (forall n: nat :: w.writes(n) != WriteError && w.writes(n) != Wrote(0))
  }

  /** A child runs because its request asked for it.  What it has been given is a prefix of the
      request body; its stdin is open only while some is left, and as long as some is left unless
      it could not be registered or written; its output is what was read. */
  ghost predicate CgiOk(c: Cgi, w: World) {
    && AsksCgi(w, c.request)
    && OutputOk(c, w)
    && c.body == c.request.body
    && c.stdinWritten <= |c.body|
    && c.delivered == c.body[..c.stdinWritten]
    && (c.stdin.Some? ==> c.stdinWritten < |c.body|)
    && (Delivers(w) && c.stdin.None? ==> c.stdinWritten == |c.body|)
  }

  ghost predicate ConnsOk(conns: map<Fd, Conn>, w: World) {
    forall id :: id in conns ==> ConnOk(conns[id], w)
  }

  ghost predicate CgisOk(cgis: map<Fd, Cgi>, w: World) {
    forall o :: o in cgis ==> CgiOk(cgis[o], w)
  }

  /** Descriptors are lost exactly when a stdout pipe could not be watched or `spawn_cgi` left
      its pipes, children exactly when a stdout pipe could not be watched or it left its child. */
  predicate LostOk(lost: Lost) {
    && (lost.fds == {} <==> lost.unwatched == 0 && lost.unpiped == 0)
    && (lost.pids == {} <==> lost.unwatched == 0 && lost.orphaned == 0)
  }

  ghost predicate Tables(s: Loop) {
    && Owned(s.listeners, s.conns.Keys, s.cgis.Keys, s.stdinOf.Keys, s.lost.fds, s.k.open)
    && Watched(s.listeners, s.conns.Keys, s.cgis.Keys, s.stdinOf.Keys, s.k.interest)
    && Piped(s.cgis, s.stdinOf)
    && s.k.faults == []
  }

  ghost predicate Inv(s: Loop, w: World, hole: Option<Fd>) {
    && Tables(s)
    && Families(s.cgis, s.pendingReap, s.lost.pids, s.k.children)
    && Stops(s.cgis, s.pendingReap, s.k.killed, s.ended)
    && Linked(s.conns, s.cgis, hole)
    && ConnsOk(s.conns, w)
    && CgisOk(s.cgis, w)
    && LostOk(s.lost)
  }

  /** Fields that only the enclosing tick changes. */
  predicate SameFrame(s: Loop, s': Loop) {
    s'.clock == s.clock && s'.listeners == s.listeners && s'.lastSweep == s.lastSweep && s'.serials == s.serials
  }

  /** The history `b` goes on from `a`. */
  predicate Continues(a: Log, b: Log) {
    b.serial == a.serial && (a.parseFailed ==> b.parseFailed)
  }

  /** A connection is never replaced by another instance under the same descriptor. */
  predicate SameInstances(s: Loop, s': Loop) {
    && s'.conns.Keys <= s.conns.Keys
    && (forall id :: id in s'.conns ==> Continues(s.conns[id].log, s'.conns[id].log))
  }

  // ------------------------------------------------------------ kernel-only steps

  /** Nothing changed but the interest in connections and the call counter. */
  ghost predicate Quiet(k: Kernel, k': Kernel, conns: set<Fd>) {
    && k'.open == k.open && k'.children == k.children && k'.killed == k.killed && k'.faults == k.faults
    && k'.interest.Keys == k.interest.Keys
    && (forall fd :: fd in k.interest && fd !in conns ==> k'.interest[fd] == k.interest[fd])
  }

  lemma QuietKeeps(s: Loop, w: World, hole: Option<Fd>, k: Kernel)
    requires Inv(s, w, hole) && Quiet(s.k, k, s.conns.Keys)
    ensures Inv(s.(k := k), w, hole)
  {
    hide Families, Stops, Linked, ConnsOk, CgisOk, LostOk, Piped;
  }

  // ---------------------------------------------------------------- connections

  /** A connection changes without its ties to a CGI changing. */
  predicate SameTies(c: Conn, c': Conn) {
    && c'.awaitingCgi == c.awaitingCgi && Continues(c.log, c'.log)
    && (c.awaitingCgi ==> c'.log.dispatched == c.log.dispatched)
  }

  lemma TiesKeepLinks(conns: map<Fd, Conn>, cgis: map<Fd, Cgi>, hole: Option<Fd>, id: Fd, c: Conn)
    requires Linked(conns, cgis, hole) && id in conns && SameTies(conns[id], c)
    ensures Linked(conns[id := c], cgis, hole)
  {
    hide IsServed;
    assert forall o :: o in cgis && WorksFor(cgis[o], conns) ==> WorksFor(cgis[o], conns[id := c]);
  }

  lemma SetConnKeeps(s: Loop, w: World, hole: Option<Fd>, id: Fd, c: Conn)
    requires Inv(s, w, hole) && id in s.conns && SameTies(s.conns[id], c) && ConnOk(c, w)
    ensures Inv(SetConn(s, id, c), w, hole)
  {
    hide Owned, Watched, Piped, Families, Stops, Linked, ConnOk, CgisOk, LostOk, SameTies;
    assert SetConn(s, id, c).conns.Keys == s.conns.Keys;
    TiesKeepLinks(s.conns, s.cgis, hole, id, c);
  }

  lemma OwnedWithout(
    listeners: set<Fd>, conns: set<Fd>, cgis: set<Fd>, stdins: set<Fd>, lost: set<Fd>, open: set<Fd>, id: Fd)
    requires Owned(listeners, conns, cgis, stdins, lost, open) && id in conns
    ensures Owned(listeners, conns - {id}, cgis, stdins, lost, open - {id}) && id in open
  {}

  lemma WatchedWithout(
    listeners: set<Fd>, conns: set<Fd>, cgis: set<Fd>, stdins: set<Fd>, interest: map<Fd, Interest>, id: Fd)
    requires Watched(listeners, conns, cgis, stdins, interest) && id in conns
    requires id !in listeners && id !in cgis && id !in stdins
    ensures Watched(listeners, conns - {id}, cgis, stdins, interest - {id})
  {
    assert (interest - {id}).Keys == interest.Keys - {id};
  }

  lemma UnhookedTables(s: Loop, id: Fd)
    requires Tables(s) && id in s.conns
    ensures Tables(Unhooked(s, id))
  {
    var s' := Unhooked(s, id);
    assert s'.conns.Keys == s.conns.Keys - {id};
    assert id !in s.listeners && id !in s.cgis && id !in s.stdinOf;
    hide Piped, Owned, Watched;
    OwnedWithout(s.listeners, s.conns.Keys, s.cgis.Keys, s.stdinOf.Keys, s.lost.fds, s.k.open, id);
    WatchedWithout(s.listeners, s.conns.Keys, s.cgis.Keys, s.stdinOf.Keys, s.k.interest, id);
    assert s.k.interest - {id} - {id} == s.k.interest - {id};
  }

  lemma UnhookedLinks(conns: map<Fd, Conn>, cgis: map<Fd, Cgi>, id: Fd)
    requires Linked(conns, cgis, None) && id in conns
    ensures Linked(conns - {id}, cgis, Some(id))
  {
    hide IsServed;
    assert forall o :: o in cgis && cgis[o].client != id && WorksFor(cgis[o], conns) ==> WorksFor(cgis[o], conns - {id});
  }

  lemma UnhookedKeeps(s: Loop, w: World, id: Fd)
    requires Inv(s, w, None) && id in s.conns
    ensures Inv(Unhooked(s, id), w, Some(id))
  {
    hide Tables, Families, Stops, Linked, ConnOk, CgisOk, LostOk;
    UnhookedTables(s, id);
    UnhookedLinks(s.conns, s.cgis, id);
    UnhookedShape(s, id);
  }

  lemma UnhookedShape(s: Loop, id: Fd)
    requires id in s.conns
    ensures var s' := Unhooked(s, id);
            s' == s.(conns := s.conns - {id}, k := s'.k) && s'.k.children == s.k.children && s'.k.killed == s.k.killed
  {}

  // ------------------------------------------------------------- ending a process

  lemma ReleaseKernel(s: Loop, w: World, o: Fd, cause: Cause)
    requires o in s.cgis && s.cgis[o].pid in s.k.children && o in s.k.open
    requires s.cgis[o].stdin.Some? ==> s.cgis[o].stdin.value in s.k.open && s.cgis[o].stdin.value != o
    ensures var s', gone := Release(s, w, o, cause).0, {o} + OneOf(s.cgis[o].stdin);
            && s' == s.(cgis := s'.cgis, stdinOf := s'.stdinOf, pendingReap := s'.pendingReap, ended := s'.ended, k := s'.k)
            && s'.cgis == s.cgis - {o} && s'.stdinOf == s.stdinOf - OneOf(s.cgis[o].stdin)
            && s'.k.open == s.k.open - gone && s'.k.interest == s.k.interest - gone && s'.k.faults == s.k.faults
  {
    if s.cgis[o].stdin.Some? {
      var i := s.cgis[o].stdin.value;
      assert s.k.open - {o} - {i} == s.k.open - ({o} + {i});
      assert s.k.interest - {o} - {o} - {i} - {i} == s.k.interest - ({o} + {i});
    } else {
      assert s.k.open - ({o} + {}) == s.k.open - {o} && s.k.interest - {o} - {o} == s.k.interest - ({o} + {});
      assert s.stdinOf - {} == s.stdinOf;
    }
  }

  lemma OwnedLess(
    listeners: set<Fd>, conns: set<Fd>, cgis: set<Fd>, stdins: set<Fd>, lost: set<Fd>, open: set<Fd>, o: Fd, i: set<Fd>)
    requires Owned(listeners, conns, cgis, stdins, lost, open) && o in cgis && i <= stdins
    ensures Owned(listeners, conns, cgis - {o}, stdins - i, lost, open - ({o} + i))
  {}

  lemma WatchedLess(
    listeners: set<Fd>, conns: set<Fd>, cgis: set<Fd>, stdins: set<Fd>, interest: map<Fd, Interest>, o: Fd, i: set<Fd>)
    requires Watched(listeners, conns, cgis, stdins, interest) && o in cgis && i <= stdins
    requires listeners !! conns !! cgis !! stdins
    ensures Watched(listeners, conns, cgis - {o}, stdins - i, interest - ({o} + i))
  {
    assert (interest - ({o} + i)).Keys == interest.Keys - ({o} + i);
  }

  lemma PipedLess(cgis: map<Fd, Cgi>, stdinOf: map<Fd, Fd>, o: Fd)
    requires Piped(cgis, stdinOf) && o in cgis
    ensures Piped(cgis - {o}, stdinOf - OneOf(cgis[o].stdin))
  {}

  lemma StdinOwned(s: Loop, o: Fd)
    requires Tables(s) && o in s.cgis
    ensures o in s.k.open && OneOf(s.cgis[o].stdin) <= s.stdinOf.Keys && OneOf(s.cgis[o].stdin) <= s.k.open - {o}
    ensures s.listeners !! s.conns.Keys !! s.cgis.Keys !! s.stdinOf.Keys
  {}

  lemma ReleaseTables(s: Loop, w: World, o: Fd, cause: Cause)
    requires o in s.cgis && Tables(s) && s.cgis[o].pid in s.k.children
    ensures Tables(Release(s, w, o, cause).0)
  {
    StdinOwned(s, o);
    hide Release, Owned, Watched, Piped;
    ReleaseKernel(s, w, o, cause);
    var s', i := Release(s, w, o, cause).0, OneOf(s.cgis[o].stdin);
    assert s'.cgis.Keys == s.cgis.Keys - {o} && s'.stdinOf.Keys == s.stdinOf.Keys - i;
    OwnedLess(s.listeners, s.conns.Keys, s.cgis.Keys, s.stdinOf.Keys, s.lost.fds, s.k.open, o, i);
    WatchedLess(s.listeners, s.conns.Keys, s.cgis.Keys, s.stdinOf.Keys, s.k.interest, o, i);
    PipedLess(s.cgis, s.stdinOf, o);
  }

  lemma ReleaseFamilies(s: Loop, w: World, o: Fd, cause: Cause)
    requires o in s.cgis && Families(s.cgis, s.pendingReap, s.lost.pids, s.k.children)
    ensures var s' := Release(s, w, o, cause).0; Families(s'.cgis, s'.pendingReap, s'.lost.pids, s'.k.children)
  {
    var pid := s.cgis[o].pid;
    var s' := Release(s, w, o, cause).0;
    ReleaseShape(s, w, o, cause);
    hide Release;
    forall p | p in s'.k.children ensures p in s'.pendingReap || p in s'.lost.pids || RunsChild(s'.cgis, p) {
      if p != pid && RunsChild(s.cgis, p) {
        var q :| q in s.cgis && s.cgis[q].pid == p;
        assert q in s'.cgis;
      }
    }
  }

  lemma ReleaseShape(s: Loop, w: World, o: Fd, cause: Cause)
    requires o in s.cgis
    ensures var (s', answer) := Release(s, w, o, cause);
            && s'.conns == s.conns && s'.cgis == s.cgis - {o} && s'.lost == s.lost && SameFrame(s, s')
            && s'.k.calls == s.k.calls + 1
            && s'.ended == (if cause.AtEnd? then s.ended + {s.cgis[o].pid} else s.ended)
            && (s.cgis[o].pid in s.k.children ==>
                  && IsWait(w, answer)
                  && s'.k.killed == (if cause.AtEnd? then s.k.killed else s.k.killed + {s.cgis[o].pid})
                  && if answer.Running?
                  then s'.pendingReap == s.pendingReap + [s.cgis[o].pid] && s'.k.children == s.k.children
                  else s'.pendingReap == s.pendingReap && s'.k.children == s.k.children - {s.cgis[o].pid})
  {}

  lemma ReleaseStops(s: Loop, w: World, o: Fd, cause: Cause)
    requires o in s.cgis && Families(s.cgis, s.pendingReap, s.lost.pids, s.k.children)
    requires Stops(s.cgis, s.pendingReap, s.k.killed, s.ended)
    ensures var s' := Release(s, w, o, cause).0; Stops(s'.cgis, s'.pendingReap, s'.k.killed, s'.ended)
  {
    ReleaseShape(s, w, o, cause);
    hide Release, IsWait, RunsChild;
  }

  lemma RemovedLinks(conns: map<Fd, Conn>, cgis: map<Fd, Cgi>, o: Fd, hole: Option<Fd>)
    requires o in cgis && Linked(conns, cgis, hole) && (hole == None || hole == Some(cgis[o].client))
    ensures Linked(conns, cgis - {o}, Some(cgis[o].client))
  {
    forall id | id in conns && conns[id].awaitingCgi && id != cgis[o].client ensures IsServed(cgis - {o}, id) {
      assert IsServed(cgis, id);
      var p :| p in cgis && cgis[p].client == id;
      assert p in cgis - {o};
    }
  }

  lemma ChildOf(s: Loop, o: Fd)
    requires o in s.cgis && Families(s.cgis, s.pendingReap, s.lost.pids, s.k.children)
    ensures s.cgis[o].pid in s.k.children
  {}

  /** Ending a process leaves only its client to be looked after. */
  lemma ReleaseKeeps(s: Loop, w: World, o: Fd, cause: Cause, hole: Option<Fd>)
    requires o in s.cgis && Inv(s, w, hole)
    requires hole == None || hole == Some(s.cgis[o].client)
    ensures Inv(Release(s, w, o, cause).0, w, Some(s.cgis[o].client))
  {
    hide Tables, Families, Stops, Linked, ConnsOk, CgiOk, LostOk, Release;
    ReleaseShape(s, w, o, cause);
    ChildOf(s, o);
    ReleaseTables(s, w, o, cause);
    ReleaseFamilies(s, w, o, cause);
    ReleaseStops(s, w, o, cause);
    RemovedLinks(s.conns, s.cgis, o, hole);
  }

  /** The interest in the connections of both states is the same. */
  predicate KeptInterest(s: Loop, s': Loop) {
    forall x :: x in s.conns && x in s'.conns ==>
      x in s.k.interest && x in s'.k.interest && s'.k.interest[x] == s.k.interest[x]
  }

  lemma ReleaseInterest(s: Loop, w: World, o: Fd, cause: Cause)
    requires o in s.cgis && Tables(s)
    ensures KeptInterest(s, Release(s, w, o, cause).0)
  {
    var k, cgi := s.k, s.cgis[o];
    assert forall x :: x in s.conns ==> x in k.interest && x != o && Some(x) != cgi.stdin;
  }

  function Elems(fds: seq<Fd>): set<Fd> { set o | o in fds }

  predicate Different(fds: seq<Fd>) { forall i, j :: 0 <= i < j < |fds| ==> fds[i] != fds[j] }

  lemma {:induction false} DropOrphansShape(s: Loop, w: World, orphans: seq<Fd>)
    ensures var s' := DropOrphans(s, w, orphans);
            && s'.conns == s.conns && s'.lost == s.lost && SameFrame(s, s')
            && s'.cgis == s.cgis - Elems(orphans)
    decreases |orphans|
  {
    hide Release;
    if orphans == [] {
      assert s.cgis - Elems(orphans) == s.cgis;
    } else {
      var o := orphans[0];
      assert Elems(orphans) == {o} + Elems(orphans[1..]);
      if o in s.cgis {
        ReleaseShape(s, w, o, ClientGone);
        DropOrphansShape(Release(s, w, o, ClientGone).0, w, orphans[1..]);
      } else {
        DropOrphansShape(s, w, orphans[1..]);
      }
    }
  }

  lemma {:induction false} DropOrphansKeeps(s: Loop, w: World, id: Fd, orphans: seq<Fd>)
    requires Inv(s, w, Some(id)) && id !in s.conns
    requires forall o :: o in orphans && o in s.cgis ==> s.cgis[o].client == id
    ensures Inv(DropOrphans(s, w, orphans), w, Some(id)) && KeptInterest(s, DropOrphans(s, w, orphans))
    decreases |orphans|
  {
    InvBasics(s, w, Some(id));
    hide Inv, Release, Tables, KeptInterest;
    if orphans == [] {
      KeptSelf(s);
    } else {
      var o := orphans[0];
      if o in s.cgis {
        ReleaseKeeps(s, w, o, ClientGone, Some(id));
        ReleaseShape(s, w, o, ClientGone);
        ReleaseInterest(s, w, o, ClientGone);
        var s1 := Release(s, w, o, ClientGone).0;
        DropOrphansKeeps(s1, w, id, orphans[1..]);
        DropOrphansShape(s1, w, orphans[1..]);
        KeptTrans(s, s1, DropOrphans(s1, w, orphans[1..]));
      } else {
        DropOrphansKeeps(s, w, id, orphans[1..]);
      }
    }
  }

  lemma KeptTrans(a: Loop, b: Loop, c: Loop)
    requires KeptInterest(a, b) && KeptInterest(b, c) && c.conns.Keys <= b.conns.Keys
    ensures KeptInterest(a, c)
  {}

  lemma KeptSelf(s: Loop)
    requires Tables(s)
    ensures KeptInterest(s, s)
  {}

  lemma UnhookedInterest(s: Loop, id: Fd)
    requires Tables(s)
    ensures KeptInterest(s, Unhooked(s, id))
  {}

  lemma NoneLeft(conns: map<Fd, Conn>, cgis: map<Fd, Cgi>, id: Fd)
    requires Linked(conns, cgis, Some(id)) && id !in conns
    requires forall o :: o in cgis ==> cgis[o].client != id
    ensures Linked(conns, cgis, None)
  {}

  lemma NoOrphans(s: Loop, id: Fd)
    requires Linked(s.conns, s.cgis, None) && id !in s.conns
    ensures CgisOf(s, id) == {}
  {
    assert forall o :: o in s.cgis ==> s.cgis[o].client in s.conns;
  }

  /** What is left of the tables when connection `id` goes. */
  predicate Removed(s: Loop, s': Loop, id: Fd) {
    && s'.conns == s.conns - {id} && s'.cgis == s.cgis - CgisOf(s, id) && s'.lost == s.lost
    && SameFrame(s, s') && KeptInterest(s, s')
  }

  lemma RemoveLive(s: Loop, w: World, id: Fd)
    requires Inv(s, w, None) && id in s.conns
    ensures Inv(RemoveConnection(s, w, id), w, None) && Removed(s, RemoveConnection(s, w, id), id)
  {
    hide Inv, Unhooked, Tables, KeptInterest, Listing, DropOrphans;
    InvBasics(s, w, None);
    UnhookedInterest(s, id);
    UnhookedKeeps(s, w, id);
    UnhookedShape(s, id);
    var s1 := Unhooked(s, id);
    assert CgisOf(s1, id) == CgisOf(s, id);
    var orphans := Listing(CgisOf(s1, id), w, s1.k.calls);
    assert Elems(orphans) == CgisOf(s, id);
    DropOrphansKeeps(s1, w, id, orphans);
    DropOrphansShape(s1, w, orphans);
    var s2 := DropOrphans(s1, w, orphans);
    AllDropped(s2, w, id);
    KeptTrans(s, s1, s2);
  }

  lemma AllDropped(s: Loop, w: World, id: Fd)
    requires Inv(s, w, Some(id)) && id !in s.conns && (forall o :: o in s.cgis ==> s.cgis[o].client != id)
    ensures Inv(s, w, None)
  {
    hide Tables, Families, Stops, ConnsOk, CgisOk, LostOk;
    NoneLeft(s.conns, s.cgis, id);
  }

  lemma RemoveDead(s: Loop, w: World, id: Fd)
    requires Inv(s, w, None) && id !in s.conns
    ensures RemoveConnection(s, w, id) == s && Removed(s, s, id)
  {
    InvBasics(s, w, None);
    NoOrphans(s, id);
    KeptSelf(s);
    NothingToDrop(s, w);
    hide Inv, Tables, KeptInterest, Listing, DropOrphans;
    assert s.conns - {id} == s.conns && s.cgis - {} == s.cgis;
  }

  /** Closing a connection also ends the CGI process that worked for it. */
  lemma RemoveKeeps(s: Loop, w: World, id: Fd)
    requires Inv(s, w, None)
    ensures Inv(RemoveConnection(s, w, id), w, None) && Removed(s, RemoveConnection(s, w, id), id)
  {
    hide Inv, RemoveConnection, Removed;
    if id in s.conns { RemoveLive(s, w, id); } else { RemoveDead(s, w, id); }
  }

  lemma NothingToDrop(s: Loop, w: World)
    ensures DropOrphans(s, w, Listing({}, w, s.k.calls)) == s
  {}

  // ------------------------------------------------------- one connection's books

  lemma ItemsAppend(items: seq<Item>, item: Item)
    ensures BytesOf(items + [item]) == BytesOf(items) + item.reply
    ensures AnsweredOf(items + [item]) == AnsweredOf(items) + if item.Answer? then [item.request] else []
    ensures HasNotice(items + [item]) == (HasNotice(items) || item.Notice?)
  {
    assert (items + [item])[..|items|] == items;
  }

  lemma DropAppend(a: bytes, b: bytes, n: nat)
    requires n <= |a|
    ensures (a + b)[n..] == a[n..] + b
  {}

  lemma QueuePending(c: Conn, item: Item)
    requires c.writeOffset <= |c.writeBuf|
    ensures var c' := QueueWrite(c, item);
            && c'.writeOffset <= |c'.writeBuf| && c'.PendingWrite() == c.PendingWrite() + item.reply
            && c'.log == c.log.(items := c.log.items + [item])
  {
    if c.WriteComplete() {
      assert c.PendingWrite() == [] && [] + item.reply == item.reply;
    } else {
      DropAppend(c.writeBuf, item.reply, c.writeOffset);
    }
  }

  lemma QueueConserves(c: Conn, item: Item)
    requires Conserved(c)
    ensures Conserved(QueueWrite(c, item))
    ensures QueueWrite(c, item).PendingWrite() == c.PendingWrite() + item.reply
  {
    hide BytesOf, QueueWrite, Conn.PendingWrite;
    QueuePending(c, item);
    ItemsAppend(c.log.items, item);
    assert c.log.sent + c.PendingWrite() + item.reply == c.log.sent + (c.PendingWrite() + item.reply);
  }

  lemma ItemsOkAppend(items: seq<Item>, item: Item, w: World, parseFailed: bool)
    requires ItemsOk(items, w, parseFailed) && ItemOk(item, w, parseFailed)
    ensures ItemsOk(items + [item], w, parseFailed)
  {
    hide ItemOk;
  }

  /** Queueing an item that is in order keeps everything but the order of answers. */
  lemma QueuedOk(c: Conn, w: World, item: Item)
    requires Conserved(c) && Faithful(c, w) && ItemsOk(c.log.items, w, c.log.parseFailed)
    requires ItemOk(item, w, c.log.parseFailed)
    ensures var c' := QueueWrite(c, item);
            && Conserved(c') && Faithful(c', w) && ItemsOk(c'.log.items, w, c'.log.parseFailed)
            && AnsweredOf(c'.log.items) == AnsweredOf(c.log.items) + (if item.Answer? then [item.request] else [])
            && HasNotice(c'.log.items) == (HasNotice(c.log.items) || item.Notice?)
            && c' == c.(writeBuf := c'.writeBuf, writeOffset := c'.writeOffset, log := c'.log)
            && c'.log == c.log.(items := c.log.items + [item])
  {
    hide Conserved, Drain, Malformed, ItemsOk, ItemOk, BytesOf, AnsweredOf;
    QueueConserves(c, item);
    ItemsOkAppend(c.log.items, item, w, c.log.parseFailed);
    ItemsAppend(c.log.items, item);
  }

  lemma NoticeOk(c: Conn, w: World, page: Page, reply: bytes)
    requires ConnOk(c, w) && ItemOk(Notice(page, reply), w, c.log.parseFailed)
    ensures ConnOk(QueueWriteAndClose(c, Notice(page, reply)), w)
    ensures SameTies(c, QueueWriteAndClose(c, Notice(page, reply)))
  {
    hide Conserved, Faithful, ItemsOk, ItemOk, QueueWrite, AnsweredOf;
    QueuedOk(c, w, Notice(page, reply));
    ClosingKeeps(QueueWrite(c, Notice(page, reply)), w);
  }

  lemma ClosingKeeps(c: Conn, w: World)
    ensures var c' := c.(closeAfterWrite := true); Conserved(c') == Conserved(c) && Faithful(c', w) == Faithful(c, w)
  {
    hide Drain, Malformed, BytesOf;
  }

  lemma PoppedOk(c: Conn, w: World)
    requires ConnOk(c, w) && c.requests != []
    ensures var c' := Popped(c);
            && Conserved(c') && Faithful(c', w) && ItemsOk(c'.log.items, w, c'.log.parseFailed)
            && c'.log.parsed == c'.log.dispatched + c'.requests
  {
    hide Drain, Malformed, BytesOf, AnsweredOf, ItemsOk;
    assert c.log.dispatched + c.requests == c.log.dispatched + [c.requests[0]] + c.requests[1..];
  }

  lemma AnsweredOk(c: Conn, w: World, reply: bytes, origin: Origin)
    requires ConnOk(c, w) && c.requests != [] && !c.awaitingCgi && Justified(w, c.requests[0], reply, origin)
    ensures ConnOk(Answered(c, reply, origin), w) && SameTies(c, Answered(c, reply, origin))
  {
    hide Conserved, Faithful, ItemsOk, Justified, QueueWrite, AnsweredOf;
    PoppedOk(c, w);
    QueuedOk(Popped(c), w, Answer(c.requests[0], reply, origin));
  }

  lemma WaitingOk(c: Conn, w: World)
    requires ConnOk(c, w) && c.requests != [] && !c.awaitingCgi
    ensures ConnOk(Popped(c).(awaitingCgi := true), w)
  {
    hide Drain, Malformed, BytesOf, AnsweredOf, ItemsOk;
    PoppedOk(c, w);
  }

  lemma WakenedOk(c: Conn, w: World)
    requires ConnOk(c, w)
    ensures var c' := c.(awaitingCgi := false);
            Conserved(c') && Faithful(c', w) && ItemsOk(c'.log.items, w, c'.log.parseFailed)
  {
    hide Drain, Malformed, BytesOf, AnsweredOf, ItemsOk;
  }

  /** The answer of a finished CGI is the one answer that was outstanding. */
  lemma DeliveredOk(c: Conn, w: World, request: HttpRequest, reply: bytes, origin: Origin)
    requires ConnOk(c, w) && c.awaitingCgi && c.log.dispatched[|c.log.dispatched| - 1] == request
    requires Justified(w, request, reply, origin)
    ensures ConnOk(QueueWrite(c.(awaitingCgi := false), Answer(request, reply, origin)), w)
  {
    hide Conserved, Faithful, ItemsOk, Justified, QueueWrite, AnsweredOf;
    WakenedOk(c, w);
    QueuedOk(c.(awaitingCgi := false), w, Answer(request, reply, origin));
    var d := c.log.dispatched;
    assert d[..|d| - 1] + [request] == d;
  }

  lemma MalformedStays(input: bytes, data: bytes, maxBody: nat)
    requires Malformed(input, maxBody) || Drain(input + data, maxBody).failure.Some?
    ensures Malformed(input + data, maxBody)
  {
    hide Drain;
    var all := input + data;
    if Malformed(input, maxBody) {
      var n :| 0 <= n <= |input| && Drain(input[..n], maxBody).failure.Some?;
      assert all[..n] == input[..n];
    } else {
      assert all[..|all|] == all;
    }
  }

  lemma IngestFaithful(c: Conn, w: World, data: bytes, now: nat)
    requires Faithful(c, w)
    ensures Faithful(Ingest(c, w, data, now).0, w)
  {
    hide Drain, Malformed;
    var r := Drain(c.readBuf + data, w.maxBody);
    if c.log.parseFailed {
      MalformedStays(c.log.input, data, w.maxBody);
    } else {
      DrainAppend(c.log.input, data, w.maxBody);
      if r.failure.Some? { MalformedStays(c.log.input, data, w.maxBody); }
    }
  }

  lemma IngestOk(c: Conn, w: World, data: bytes, now: nat)
    requires ConnOk(c, w)
    ensures ConnOk(Ingest(c, w, data, now).0, w) && SameTies(c, Ingest(c, w, data, now).0)
  {
    hide Drain, BytesOf, AnsweredOf, Faithful, IsPage, Justified;
    IngestFaithful(c, w, data, now);
    var r := Drain(c.readBuf + data, w.maxBody);
    assert c.log.dispatched + c.requests + r.requests == c.log.dispatched + (c.requests + r.requests);
  }

  lemma AdvancedOk(c: Conn, w: World, count: nat, now: nat)
    requires ConnOk(c, w) && count <= |c.PendingWrite()|
    ensures var c' := Advanced(c, count, now);
            && ConnOk(c', w) && SameTies(c, c')
            && c.PendingWrite() == c.PendingWrite()[..count] + c'.PendingWrite()
            && (c'.WriteComplete() ==> ConnOk(Emptied(c'), w) && SameTies(c, Emptied(c')))
  {
    hide Drain, Malformed, BytesOf, AnsweredOf, ItemOk;
    var data := c.PendingWrite();
    assert data == data[..count] + data[count..];
    assert Advanced(c, count, now).PendingWrite() == data[count..];
    assert c.log.sent + data == c.log.sent + data[..count] + data[count..];
  }

  lemma NewConnOk(w: World, serial: nat, now: nat)
    ensures ConnOk(NewConn(serial, now), w)
  {
    NothingYet(w.maxBody);
  }

  // ------------------------------------------------------------ starting a process

  lemma AddedPiped(cgis: map<Fd, Cgi>, stdinOf: map<Fd, Fd>, out: Fd, cgi: Cgi)
    requires Piped(cgis, stdinOf) && out !in cgis
    requires cgi.stdin.Some? ==> cgi.stdin.value !in stdinOf
    ensures Piped(cgis[out := cgi], if cgi.stdin.Some? then stdinOf[cgi.stdin.value := out] else stdinOf)
  {}

  lemma AddedWatched(
    listeners: set<Fd>, conns: set<Fd>, cgis: set<Fd>, stdins: set<Fd>, interest: map<Fd, Interest>, out: Fd, stdin: Option<Fd>)
    requires Watched(listeners, conns, cgis, stdins, interest)
    requires out !in interest && (stdin.Some? ==> stdin.value !in interest && stdin.value != out)
    ensures Watched(
      listeners, conns, cgis + {out}, stdins + OneOf(stdin),
      (if stdin.Some? then interest[stdin.value := Writable] else interest)[out := Readable])
  {
    var interest' := (if stdin.Some? then interest[stdin.value := Writable] else interest)[out := Readable];
    assert interest'.Keys == interest.Keys + {out} + OneOf(stdin);
  }

  function OneOf(stdin: Option<Fd>): set<Fd> { if stdin.Some? then {stdin.value} else {} }

  /** The tables with a new process in them. */
  lemma AddedTables(s: Loop, k: Kernel, out: Fd, cgi: Cgi)
    requires Tables(s) && out !in s.k.open && k.faults == []
    requires cgi.stdin.Some? ==> cgi.stdin.value !in s.k.open && cgi.stdin.value != out
    requires k.open == s.k.open + {out} + OneOf(cgi.stdin)
    requires k.interest ==
      (if cgi.stdin.Some? then s.k.interest[cgi.stdin.value := Writable] else s.k.interest)[out := Readable]
    ensures Tables(s.(
      cgis := s.cgis[out := cgi],
      stdinOf := if cgi.stdin.Some? then s.stdinOf[cgi.stdin.value := out] else s.stdinOf,
      k := k))
  {
    var stdinOf := if cgi.stdin.Some? then s.stdinOf[cgi.stdin.value := out] else s.stdinOf;
    assert s.cgis[out := cgi].Keys == s.cgis.Keys + {out};
    assert stdinOf.Keys == s.stdinOf.Keys + OneOf(cgi.stdin);
    WatchedAreOpen(s);
    AddedPiped(s.cgis, s.stdinOf, out, cgi);
    AddedWatched(s.listeners, s.conns.Keys, s.cgis.Keys, s.stdinOf.Keys, s.k.interest, out, cgi.stdin);
    hide Watched, Piped;
  }

  lemma WatchedAreOpen(s: Loop)
    requires Tables(s)
    ensures s.k.interest.Keys <= s.k.open
    ensures s.conns.Keys <= s.k.open && s.cgis.Keys <= s.k.open && s.stdinOf.Keys <= s.k.open
  {}

  lemma AddedFamilies(cgis: map<Fd, Cgi>, reap: seq<Pid>, lost: set<Pid>, children: set<Pid>, out: Fd, cgi: Cgi)
    requires Families(cgis, reap, lost, children) && out !in cgis && cgi.pid !in children
    ensures Families(cgis[out := cgi], reap, lost, children + {cgi.pid})
  {
    var cgis' := cgis[out := cgi];
    forall p | p in children + {cgi.pid} ensures p in reap || p in lost || RunsChild(cgis', p) {
      if p == cgi.pid {
        assert out in cgis' && cgis'[out].pid == p;
      } else if RunsChild(cgis, p) {
        var q :| q in cgis && cgis[q].pid == p;
        assert q in cgis' && cgis'[q].pid == p;
      }
    }
  }

  lemma AddedLinks(conns: map<Fd, Conn>, cgis: map<Fd, Cgi>, id: Fd, c: Conn, out: Fd, cgi: Cgi)
    requires Linked(conns, cgis, None) && id in conns && !conns[id].awaitingCgi && out !in cgis
    requires cgi.client == id && WorksFor(cgi, conns[id := c])
    ensures Linked(conns[id := c], cgis[out := cgi], None)
  {
    hide IsServed;
    var conns', cgis' := conns[id := c], cgis[out := cgi];
    assert forall o :: o in cgis ==> WorksFor(cgis[o], conns) && cgis[o].client != id;
    assert forall o :: o in cgis ==> WorksFor(cgis[o], conns');
    forall i | i in conns' && conns'[i].awaitingCgi ensures IsServed(cgis', i) {
      assert i != id ==> IsServed(cgis, i);
      AddedServes(cgis, out, cgi, i);
    }
  }

  lemma AddedServes(cgis: map<Fd, Cgi>, out: Fd, cgi: Cgi, i: Fd)
    requires out !in cgis && (cgi.client == i || IsServed(cgis, i))
    ensures IsServed(cgis[out := cgi], i)
  {
    var cgis' := cgis[out := cgi];
    if cgi.client == i {
      assert out in cgis' && cgis'[out].client == i;
    } else {
      var o :| o in cgis && cgis[o].client == i;
      assert o in cgis' && cgis'[o].client == i;
    }
  }

  /** Descriptors that nobody recorded. */
  lemma LostTables(s: Loop, k: Kernel, fds: set<Fd>, lost: Lost)
    requires Tables(s) && fds !! s.k.open && k.faults == []
    requires k.open == s.k.open + fds && k.interest == s.k.interest && lost.fds == s.lost.fds + fds
    ensures Tables(s.(lost := lost, k := k))
  {
    hide Piped, Watched;
  }

  /** For these children nothing has changed. */
  predicate SameKilled(children: set<Pid>, before: set<Pid>, after: set<Pid>) {
    forall pid :: pid in children ==> (pid in after <==> pid in before)
  }

  lemma LostStops(cgis: map<Fd, Cgi>, reap: seq<Pid>, lost: set<Pid>, children: set<Pid>, killed: set<Pid>, ended: set<Pid>,
                  after: set<Pid>)
    requires Families(cgis, reap, lost, children) && Stops(cgis, reap, killed, ended) && SameKilled(children, killed, after)
    ensures Stops(cgis, reap, after, ended)
  {
    hide RunsChild;
  }

  lemma AddedStops(cgis: map<Fd, Cgi>, reap: seq<Pid>, lost: set<Pid>, children: set<Pid>, killed: set<Pid>, ended: set<Pid>,
                   out: Fd, cgi: Cgi)
    requires Families(cgis, reap, lost, children) && Stops(cgis, reap, killed, ended) && cgi.pid !in children
    ensures Stops(cgis[out := cgi], reap, killed - {cgi.pid}, ended - {cgi.pid})
  {
    hide RunsChild;
  }

  lemma LostFamilies(cgis: map<Fd, Cgi>, reap: seq<Pid>, lost: set<Pid>, children: set<Pid>, pids: set<Pid>)
    requires Families(cgis, reap, lost, children) && pids !! children
    ensures Families(cgis, reap, lost + pids, children + pids)
  {}

  /** What `spawn_cgi` leaves open besides a child's pipes. */
  function LeftOpen(answer: SpawnAnswer): set<Fd> { if answer.PipesLeft? then answer.fds else {} }

  function LeftRunning(answer: SpawnAnswer): set<Pid> { if answer.Orphaned? then {answer.pid} else {} }

  /** What `Spawn` does to the kernel, whatever comes of it. */
  predicate SpawnLeaves(k: Kernel, k': Kernel, answer: SpawnAnswer) {
    && k'.killed == k.killed - (if answer.Forked? then {answer.child.pid} else LeftRunning(answer))
    && k'.interest == k.interest && k'.faults == k.faults && k'.calls == k.calls + 1
    && if answer.Forked? then
         var c := answer.child;
         && c.stdin !in k.open && c.stdout !in k.open && c.stdin != c.stdout && c.pid !in k.children
         && k'.open == k.open + {c.stdin, c.stdout} && k'.children == k.children + {c.pid}
       else
         && LeftOpen(answer) !! k.open && LeftRunning(answer) !! k.children
         && k'.open == k.open + LeftOpen(answer) && k'.children == k.children + LeftRunning(answer)
  }

  lemma SpawnShape(k: Kernel, w: World)
    ensures SpawnLeaves(k, Spawn(k, w).0, Spawn(k, w).1)
  {
    hide AreFour;
    var (k', answer) := Spawn(k, w);
    if answer.Forked? {
      assert IsNew(k, answer.child);
    } else {
      assert k.open + {} == k.open && k.children + {} == k.children;
    }
  }

  lemma OpenStdinShape(k: Kernel, w: World, child: Child, body: bytes)
    requires child.stdin in k.open && child.stdin !in k.interest
    ensures var (k', stdin) := OpenStdin(k, w, child, body);
            && k'.faults == k.faults && k'.children == k.children && k'.killed == k.killed
            && (body != [] && Registers(w) ==> stdin.Some?)
            && (stdin == None || (stdin == Some(child.stdin) && body != []))
            && k'.open == (if stdin.Some? then k.open else k.open - {child.stdin})
            && k'.interest == if stdin.Some? then k.interest[child.stdin := Writable] else k.interest
  {
    assert k.interest - {child.stdin} == k.interest;
  }

  lemma ArmShape(s: Loop, w: World, id: Fd)
    ensures var (s', ok) := ArmWrite(s, w, id);
            && s' == s.(k := s'.k)
            && (id in s.conns ==> Quiet(s.k, s'.k, s.conns.Keys))
            && (id !in s.k.interest ==> Quiet(s.k, s'.k, s.conns.Keys))
  {}

  lemma AnswerNowKeeps(s: Loop, w: World, hole: Option<Fd>, id: Fd, c: Conn)
    requires id in s.conns && Inv(SetConn(s, id, c), w, hole)
    ensures Inv(AnswerNow(s, w, id, c), w, hole)
    ensures AnswerNow(s, w, id, c) == SetConn(s, id, c).(k := AnswerNow(s, w, id, c).k)
  {
    hide Inv, ArmWrite;
    var s1 := SetConn(s, id, c);
    ArmShape(s1, w, id);
    QuietKeeps(s1, w, hole, ArmWrite(s1, w, id).0.k);
  }

  /** The connections stay. */
  predicate Dispatched(s: Loop, s': Loop) {
    s'.conns.Keys == s.conns.Keys && SameFrame(s, s') && SameInstances(s, s')
  }

  lemma RefusedKeeps(s: Loop, w: World, id: Fd)
    requires Inv(s, w, None) && id in s.conns && !s.conns[id].awaitingCgi && s.conns[id].requests != []
    requires AsksCgi(w, s.conns[id].requests[0])
    ensures var s' := SpawnRefused(s, w, id);
            && Inv(s', w, None) && Dispatched(s, s') && s'.lost == s.lost && s'.cgis == s.cgis
            && !s'.conns[id].awaitingCgi
  {
    hide ConnOk, Inv, Answered, AsksCgi;
    assert IsPage(w, ServerErrorPage, w.page(ServerErrorPage, s.k.calls));
    hide IsPage;
    var c := Answered(s.conns[id], w.page(ServerErrorPage, s.k.calls), Refused);
    assert ConnOk(s.conns[id], w) by { ConnOf(s, w, id); }
    AnsweredOk(s.conns[id], w, w.page(ServerErrorPage, s.k.calls), Refused);
    SetConnKeeps(s, w, None, id, c);
    AnswerNowKeeps(s, w, None, id, c);
  }

  lemma ConnOf(s: Loop, w: World, id: Fd)
    requires Inv(s, w, None) && id in s.conns
    ensures ConnOk(s.conns[id], w)
  {}

  lemma SameKeysTables(s: Loop, s': Loop)
    requires Tables(s) && s' == s.(conns := s'.conns, ended := s'.ended) && s'.conns.Keys == s.conns.Keys
    ensures Tables(s')
  {
    hide Owned, Watched, Piped;
  }

  lemma LostKeeps(s: Loop, w: World, k: Kernel, fds: set<Fd>, pids: set<Pid>, lost: Lost)
    requires Inv(s, w, None) && LostOk(lost)
    requires fds !! s.k.open && pids !! s.k.children && k.faults == []
    requires k.open == s.k.open + fds && k.interest == s.k.interest && k.children == s.k.children + pids
    requires lost.fds == s.lost.fds + fds && lost.pids == s.lost.pids + pids
    requires SameKilled(s.k.children, s.k.killed, k.killed)
    ensures Inv(s.(lost := lost, k := k), w, None)
  {
    hide Tables, Families, Stops, Linked, ConnsOk, CgisOk, LostOk;
    LostTables(s, k, fds, lost);
    LostFamilies(s.cgis, s.pendingReap, s.lost.pids, s.k.children, pids);
    LostStops(s.cgis, s.pendingReap, s.lost.pids, s.k.children, s.k.killed, s.ended, k.killed);
  }

  lemma LostOf(s: Loop, w: World)
    requires Inv(s, w, None)
    ensures LostOk(s.lost)
  {}

  /** A failed `spawn_cgi` is told apart by what it leaves. */
  lemma AbandonedOk(k: Kernel, w: World, lost: Lost)
    requires LostOk(lost) && !Spawn(k, w).1.Forked?
    ensures var answer := Spawn(k, w).1;
            var lost' := Abandoned(lost, answer);
            && LostOk(lost') && lost'.fds == lost.fds + LeftOpen(answer) && lost'.pids == lost.pids + LeftRunning(answer)
  {
    var answer := Spawn(k, w).1;
    if answer.PipesLeft? {
      assert answer.fds != {} && lost.fds + answer.fds != {};
    } else if answer.Orphaned? {
      assert answer.pid in lost.pids + {answer.pid};
    }
  }

  lemma AbandonedInv(s: Loop, w: World)
    requires Inv(s, w, None) && !Spawn(s.k, w).1.Forked?
    ensures var (k, answer) := Spawn(s.k, w);
            Inv(s.(k := k, lost := Abandoned(s.lost, answer)), w, None)
  {
    hide Inv, Tables, Spawn, Abandoned, LostOk, LeftOpen, LeftRunning;
    InvBasics(s, w, None);
    LostOf(s, w);
    SpawnShape(s.k, w);
    AbandonedOk(s.k, w, s.lost);
    var (k, answer) := Spawn(s.k, w);
    LostKeeps(s, w, k, LeftOpen(answer), LeftRunning(answer), Abandoned(s.lost, answer));
  }

  /** The kernel `k` after a child was spawned on `k0` and its pipes were dealt with. */
  ghost predicate PipesOpened(k0: Kernel, k: Kernel, child: Child, stdin: Option<Fd>, ok: bool, body: bytes) {
    && child.stdin !in k0.open && child.stdout !in k0.open && child.stdin != child.stdout && child.pid !in k0.children
    && k.faults == k0.faults && k.children == k0.children + {child.pid} && k.killed == k0.killed - {child.pid}
    && (stdin == None || (stdin == Some(child.stdin) && body != []))
    && k.open == k0.open + {child.stdout} + OneOf(stdin)
    && (var watched := if stdin.Some? then k0.interest[child.stdin := Writable] else k0.interest;
        k.interest == if ok then watched[child.stdout := Readable] else watched)
  }

  ghost predicate Registers(w: World) { forall n: nat :: w.registers(n) }

  lemma OpenPipesShape(k0: Kernel, w: World, body: bytes)
    requires k0.interest.Keys <= k0.open && Spawn(k0, w).1.Forked?
    ensures var (k, answer) := Spawn(k0, w);
            var (k2, stdin, ok) := OpenPipes(k, w, answer.child, body);
            && PipesOpened(k0, k2, answer.child, stdin, ok, body)
            && (Registers(w) ==> ok && (body != [] ==> stdin.Some?))
  {
    hide OpenStdin, Spawn;
    SpawnShape(k0, w);
    var (k, answer) := Spawn(k0, w);
    var child := answer.child;
    OpenStdinShape(k, w, child, body);
    var k1 := OpenStdin(k, w, child, body).0;
    assert Registers(w) ==> w.registers(k1.calls);
    assert child.stdout in k1.open && child.stdout !in k1.interest;
  }

  lemma GiveUpShape(k0: Kernel, k: Kernel, child: Child, stdin: Option<Fd>, body: bytes)
    requires k0.interest.Keys <= k0.open && PipesOpened(k0, k, child, stdin, false, body)
    ensures var k4 := GiveUp(k, child, stdin);
            && k4.faults == k0.faults && k4.children == k0.children + {child.pid} && k4.killed == k0.killed + {child.pid}
            && k4.open == k0.open + {child.stdout} && k4.interest == k0.interest
  {
    if stdin.Some? {
      var m := k0.interest[child.stdin := Writable];
      assert m - {child.stdin} == k0.interest;
      assert k0.interest - {child.stdin} == k0.interest;
      assert k0.open + {child.stdout} + {child.stdin} - {child.stdin} == k0.open + {child.stdout};
    }
  }

  lemma ProcessAdded(s: Loop, w: World, id: Fd, c: Conn, k: Kernel, out: Fd, cgi: Cgi)
    requires Inv(s, w, None) && id in s.conns && !s.conns[id].awaitingCgi && cgi.client == id
    requires ConnOk(c, w) && CgiOk(cgi, w) && WorksFor(cgi, s.conns[id := c])
    requires out !in s.k.open && k.faults == [] && cgi.pid !in s.k.children && k.children == s.k.children + {cgi.pid}
    requires k.killed == s.k.killed - {cgi.pid}
    requires cgi.stdin.Some? ==> cgi.stdin.value !in s.k.open && cgi.stdin.value != out
    requires k.open == s.k.open + {out} + OneOf(cgi.stdin)
    requires k.interest ==
      (if cgi.stdin.Some? then s.k.interest[cgi.stdin.value := Writable] else s.k.interest)[out := Readable]
    ensures Inv(
      SetConn(s, id, c).(
        cgis := s.cgis[out := cgi],
        stdinOf := if cgi.stdin.Some? then s.stdinOf[cgi.stdin.value := out] else s.stdinOf,
        ended := s.ended - {cgi.pid},
        k := k),
      w, None)
  {
    hide Tables, Families, Stops, Linked, ConnOk, LostOk, CgiOk, WorksFor;
    WatchedAreOpen(s);
    AddedTables(s, k, out, cgi);
    AddedFamilies(s.cgis, s.pendingReap, s.lost.pids, s.k.children, out, cgi);
    AddedStops(s.cgis, s.pendingReap, s.lost.pids, s.k.children, s.k.killed, s.ended, out, cgi);
    AddedLinks(s.conns, s.cgis, id, c, out, cgi);
    var s1 := s.(
      cgis := s.cgis[out := cgi],
      stdinOf := if cgi.stdin.Some? then s.stdinOf[cgi.stdin.value := out] else s.stdinOf,
      k := k);
    SameKeysTables(s1, SetConn(s1, id, c).(ended := s.ended - {cgi.pid}));
  }

  /** The process that is started for the first request in the queue of `c`. */
  function NewCgi(child: Child, id: Fd, stdin: Option<Fd>, c: Conn, now: nat): Cgi
    requires c.requests != []
  {
    Cgi(child.pid, id, stdin, c.requests[0].body, 0, [], now, c.requests[0], c.log.serial, [], [])
  }

  lemma NewCgiOk(child: Child, id: Fd, stdin: Option<Fd>, c: Conn, now: nat, w: World)
    requires c.requests != [] && AsksCgi(w, c.requests[0])
    requires stdin.Some? ==> c.requests[0].body != []
    requires Delivers(w) && c.requests[0].body != [] ==> stdin.Some?
    ensures CgiOk(NewCgi(child, id, stdin, c, now), w)
  {
    hide AsksCgi, Delivers, IsRead;
  }

  lemma NewCgiWorks(child: Child, id: Fd, stdin: Option<Fd>, c: Conn, now: nat, conns: map<Fd, Conn>)
    requires c.requests != []
    ensures WorksFor(NewCgi(child, id, stdin, c, now), conns[id := Popped(c).(awaitingCgi := true)])
  {}

  lemma StartedInv(s: Loop, w: World, id: Fd, child: Child, stdin: Option<Fd>, k: Kernel)
    requires Inv(s, w, None) && id in s.conns && !s.conns[id].awaitingCgi && s.conns[id].requests != []
    requires AsksCgi(w, s.conns[id].requests[0])
    requires PipesOpened(s.k, k, child, stdin, true, s.conns[id].requests[0].body)
    requires Delivers(w) && s.conns[id].requests[0].body != [] ==> stdin.Some?
    ensures Inv(Started(s, id, child, stdin, k), w, None)
  {
    hide Inv, Tables, ConnOk, CgiOk, WorksFor, Popped, Delivers, AsksCgi;
    var c0 := s.conns[id];
    InvBasics(s, w, None);
    ConnOf(s, w, id);
    NewCgiOk(child, id, stdin, c0, s.clock, w);
    NewCgiWorks(child, id, stdin, c0, s.clock, s.conns);
    WaitingOk(c0, w);
    ProcessAdded(s, w, id, Popped(c0).(awaitingCgi := true), k, child.stdout, NewCgi(child, id, stdin, c0, s.clock));
  }

  lemma ForgottenInv(s: Loop, w: World, child: Child, stdin: Option<Fd>, k: Kernel, body: bytes)
    requires Inv(s, w, None) && PipesOpened(s.k, k, child, stdin, false, body)
    ensures Inv(Forgotten(s, child, stdin, k), w, None)
  {
    InvBasics(s, w, None);
    GiveUpShape(s.k, k, child, stdin, body);
    LostOf(s, w);
    hide Inv, Tables, GiveUp;
    assert stdin.Some? ==> s.stdinOf[child.stdin := child.stdout] - {child.stdin} == s.stdinOf;
    var lost := Forgotten(s, child, stdin, k).lost;
    assert child.stdout in lost.fds && child.pid in lost.pids;
    LostKeeps(s, w, GiveUp(k, child, stdin), {child.stdout}, {child.pid}, lost);
  }

  lemma InvBasics(s: Loop, w: World, hole: Option<Fd>)
    requires Inv(s, w, hole)
    ensures Tables(s) && s.k.faults == []
    ensures s.k.interest.Keys <= s.k.open && s.cgis.Keys <= s.k.open && s.stdinOf.Keys <= s.k.open
  {
    WatchedAreOpen(s);
  }

  lemma SpawnInv(s: Loop, w: World, id: Fd)
    requires Inv(s, w, None) && id in s.conns && !s.conns[id].awaitingCgi && s.conns[id].requests != []
    requires AsksCgi(w, s.conns[id].requests[0])
    ensures Inv(SpawnCgi(s, w, id), w, None)
  {
    hide Inv, Tables, Spawn, OpenPipes, SpawnRefused, Started, PipesOpened, GiveUp, AsksCgi, Abandoned, Delivers, Registers;
    InvBasics(s, w, None);
    SpawnShape(s.k, w);
    var (k, answer) := Spawn(s.k, w);
    if !answer.Forked? {
      AbandonedInv(s, w);
      RefusedKeeps(s.(k := k, lost := Abandoned(s.lost, answer)), w, id);
    } else {
      var body := s.conns[id].requests[0].body;
      OpenPipesShape(s.k, w, body);
      var (k2, stdin, ok) := OpenPipes(k, w, answer.child, body);
      DeliversRegisters(w);
      if ok {
        StartedInv(s, w, id, answer.child, stdin, k2);
      } else {
        ForgottenInv(s, w, answer.child, stdin, k2, body);
        RefusedKeeps(Forgotten(s, answer.child, stdin, k2), w, id);
      }
    }
  }

  lemma DeliversRegisters(w: World)
    ensures Delivers(w) ==> Registers(w)
  {}

  /** Registering never fails, and a child that cannot be started leaves nothing behind. */
  ghost predicate Tidy(w: World) {
    && (forall n: nat :: w.registers(n))
    && (forall n: nat :: w.spawned(n).Forked? || w.spawned(n).NotForked?)
  }

  /** The request got the 500 page because its CGI could not be started. */
  ghost predicate GotRefusal(c: Conn, c': Conn, w: World) {
    && c.requests != [] && c'.requests == c.requests[1..]
    && exists reply: bytes ::
         IsPage(w, ServerErrorPage, reply) && c'.log.items == c.log.items + [Answer(c.requests[0], reply, Refused)]
  }

  /** What `SpawnCgi` changes, however it ends. */
  ghost predicate Spawned(s: Loop, s': Loop, w: World, id: Fd) {
    && Dispatched(s, s')
    && (forall o :: o in s'.cgis && o !in s.cgis ==> s'.cgis[o].startedAt == s.clock)
    && (forall o :: o in s.cgis ==> o in s'.cgis && s'.cgis[o] == s.cgis[o])
    && (Tidy(w) ==> s'.lost == s.lost)
    && (id in s.conns ==> s'.conns[id].awaitingCgi || GotRefusal(s.conns[id], s'.conns[id], w))
  }

  lemma RefusedShape(s: Loop, w: World, id: Fd)
    requires id in s.conns && s.conns[id].requests != []
    ensures var s' := SpawnRefused(s, w, id);
            && Dispatched(s, s') && s'.lost == s.lost && s'.cgis == s.cgis
            && GotRefusal(s.conns[id], s'.conns[id], w)
  {
    assert IsPage(w, ServerErrorPage, w.page(ServerErrorPage, s.k.calls));
    hide IsPage;
  }

  lemma StartedShape(s: Loop, w: World, id: Fd, child: Child, stdin: Option<Fd>, k: Kernel)
    requires id in s.conns && s.conns[id].requests != [] && child.stdout !in s.cgis
    ensures Spawned(s, Started(s, id, child, stdin, k), w, id)
  {
    hide GotRefusal, Tidy;
  }

  lemma TidySpawn(k: Kernel, w: World)
    requires Tidy(w)
    ensures Spawn(k, w).1.Forked? || Spawn(k, w).1.NotForked?
  {}

  lemma SpawnChanges(s: Loop, w: World, id: Fd)
    requires id in s.conns && s.conns[id].requests != [] && s.cgis.Keys <= s.k.open && s.k.interest.Keys <= s.k.open
    ensures Spawned(s, SpawnCgi(s, w, id), w, id)
  {
    hide Spawn, OpenPipes, SpawnRefused, Started, GiveUp, PipesOpened, GotRefusal;
    var (k, answer) := Spawn(s.k, w);
    if Tidy(w) { TidySpawn(s.k, w); }
    if !answer.Forked? {
      RefusedShape(s.(k := k, lost := Abandoned(s.lost, answer)), w, id);
    } else {
      var body := s.conns[id].requests[0].body;
      OpenPipesShape(s.k, w, body);
      var (k2, stdin, ok) := OpenPipes(k, w, answer.child, body);
      assert Tidy(w) ==> Registers(w) && ok;
      hide Tidy;
      if ok {
        assert answer.child.stdout !in s.cgis by { SpawnShape(s.k, w); }
        hide Spawned;
        StartedShape(s, w, id, answer.child, stdin, k2);
      } else {
        RefusedShape(Forgotten(s, answer.child, stdin, k2), w, id);
      }
    }
  }

  /** Starting a CGI keeps the invariant; the connection waits for it, or has the 500 for the request. */
  lemma SpawnKeeps(s: Loop, w: World, id: Fd)
    requires Inv(s, w, None) && id in s.conns && !s.conns[id].awaitingCgi && s.conns[id].requests != []
    requires AsksCgi(w, s.conns[id].requests[0])
    ensures Inv(SpawnCgi(s, w, id), w, None) && Spawned(s, SpawnCgi(s, w, id), w, id)
  {
    hide Inv, SpawnCgi, Spawned, AsksCgi, Tables;
    InvBasics(s, w, None);
    SpawnInv(s, w, id);
    SpawnChanges(s, w, id);
  }
}
