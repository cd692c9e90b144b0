/** What a CGI process is given and what becomes of what it writes, event by event. */
module LoopOutcomes {
  import opened Bytes
  import opened Kernel
  import opened Loop
  import opened LoopInvariants
  import opened LoopHandlers
  import opened LoopRuns
  import opened LoopResults
  import opened LoopNotices

  /** The event makes the loop read from the stdout of a process. */
  predicate ReadsOutput(s: Loop, e: Event) { e.fd in s.cgis && (e.error || e.hup || e.readable) }

  lemma OutputHandled(s: Loop, w: World, e: Event)
    requires Good(s, w) && ReadsOutput(s, e)
    ensures Handle(s, w, e) == CgiStdoutReadable(s, w, e.fd)
  {
    hide Good, CgiStdoutReadable;
    OnlyCgi(s, w, e.fd);
  }

  /** Data from a process is kept behind what it wrote before, and nothing else happens. */
  lemma OutputGrows(s: Loop, w: World, e: Event, data: bytes)
    requires Good(s, w) && ReadsOutput(s, e) && w.reads_(s.k.calls) == Received(data) && data != []
    ensures var s' := Handle(s, w, e);
            && e.fd in s'.cgis && s'.cgis[e.fd].output == s.cgis[e.fd].output + data
            && s'.cgis.Keys == s.cgis.Keys && s'.conns == s.conns
  {
    hide Good;
    OutputHandled(s, w, e);
  }

  /** The item is the page made of what a process wrote up to its end or, only if it wrote nothing
      and exited with something else than 0, the 500. */
  ghost predicate IsEndAnswer(w: World, item: Item, cgi: Cgi) {
    && item.Answer? && item.request == cgi.request
    && (cgi.output != [] ==> IsCgiReply(w, cgi.output, item.reply))
    && (IsCgiReply(w, cgi.output, item.reply)
        || (IsPage(w, ServerErrorPage, item.reply) && exists code, n: nat :: code != 0 && w.exits(n) == Some(code)))
  }

  lemma EndAnswers(w: World, item: Item, cgi: Cgi, at: nat)
    requires AnswersFor(w, item, cgi, AtEnd, at)
    ensures IsEndAnswer(w, item, cgi)
  {
    hide IsPage, IsCgiReply, IsEnd;
  }

  /** When a process is found to have closed its stdout, the answer made of all it wrote is next
      on the stream of the instance that asked, unless that connection breaks at this very moment. */
  lemma EndAnswered(s: Loop, w: World, e: Event)
    requires Good(s, w) && ReadsOutput(s, e)
    requires w.reads_(s.k.calls) == EndOfFile || w.reads_(s.k.calls) == Received([])
    ensures var cgi, s' := s.cgis[e.fd], Handle(s, w, e);
            && cgi.client in s.conns
            && (Reliable(w) ==> cgi.client in s'.conns)
            && (cgi.client in s'.conns ==> exists item: Item ::
                  IsEndAnswer(w, item, cgi) && s.conns[cgi.client].log.items + [item] <= s'.conns[cgi.client].log.items)
  {
    hide Good, Sound, FinishCgi, AnswersFor, IsEndAnswer, GrowsBy, Reliable, MayFinish;
    OutputHandled(s, w, e);
    ReadGood(s, w);
    EndMayFinish(s, w, e.fd);
    var s1, cgi := s.(k := Read(s.k, w).0), s.cgis[e.fd];
    OutcomeReachesAsker(s1, w, e.fd, AtEnd);
    var s' := FinishCgi(s1, w, e.fd, AtEnd);
    if cgi.client in s'.conns {
      var item: Item :|
        AnswersFor(w, item, cgi, AtEnd, s.clock) && s.conns[cgi.client].log.items + [item] <= s'.conns[cgi.client].log.items;
      EndAnswers(w, item, cgi, s.clock);
    }
  }

  // --------------------------------------------------------------------- stdin

  function Least(a: nat, b: nat): nat { if a <= b then a else b }

  lemma OnlyStdin(s: Loop, w: World, i: Fd)
    requires Good(s, w) && i in s.stdinOf
    ensures i !in s.listeners && i !in s.cgis && s.stdinOf[i] in s.cgis && CgiOk(s.cgis[s.stdinOf[i]], w)
    ensures s.cgis[s.stdinOf[i]].stdin == Some(i)
  {
    hide Good, Sound, Inv, CgiOk, Tables, Settled, WorksFor, ConnOk;
    SoundOf(s, w);
    InvOf(s, w);
    InvBasics(s, w, None);
    StdinIsOpen(s, i);
    ServedBy(s, w, s.stdinOf[i]);
  }

  lemma StdinIsOpen(s: Loop, i: Fd)
    requires Tables(s) && i in s.stdinOf
    ensures i !in s.listeners && i !in s.cgis && s.stdinOf[i] in s.cgis && s.cgis[s.stdinOf[i]].stdin == Some(i)
  {
    hide Watched;
  }

  lemma Remains(cgi: Cgi, w: World)
    requires CgiOk(cgi, w) && cgi.stdin.Some?
    ensures cgi.StdinRemaining() != [] && cgi.delivered + cgi.StdinRemaining() == cgi.request.body
  {
    hide OutputOk, AsksCgi, Delivers;
  }

  /** A child whose stdin can be written is given the next bytes of the request body, as many as
      the kernel takes; its stdin is closed exactly when it has been given all of them. */
  lemma StdinFed(s: Loop, w: World, e: Event, n: nat)
    requires Good(s, w) && e.fd in s.stdinOf && e.writable && w.writes(s.k.calls) == Wrote(n) && n > 0
    ensures var o, s' := s.stdinOf[e.fd], Handle(s, w, e);
            && o in s.cgis && o in s'.cgis
            && var body, before, after := s.cgis[o].request.body, |s.cgis[o].delivered|, s'.cgis[o].delivered;
               && before < |body| && after == body[..Least(before + n, |body|)]
               && (s'.cgis[o].stdin.Some? <==> |after| < |body|)
               && s'.cgis[o].request == s.cgis[o].request
  {
    hide Good, Close, CgiOk;
    OnlyStdin(s, w, e.fd);
    var o := s.stdinOf[e.fd];
    var cgi := s.cgis[o];
    Remains(cgi, w);
    DeliveredIs(cgi, w);
    assert Handle(s, w, e) == CgiStdinWritable(s, w, e.fd);
    var data := cgi.StdinRemaining();
    var count := Write(s.k, w, data).1.count;
    assert count == Least(n, |data|);
    hide Write;
    FedBytes(cgi.request.body, cgi.stdinWritten, count);
  }

  lemma DeliveredIs(cgi: Cgi, w: World)
    requires CgiOk(cgi, w)
    ensures cgi.stdinWritten <= |cgi.request.body| && cgi.body == cgi.request.body
    ensures cgi.delivered == cgi.request.body[..cgi.stdinWritten] && |cgi.delivered| == cgi.stdinWritten
  {
    hide OutputOk, AsksCgi, Delivers;
  }

  lemma FedBytes(body: bytes, n: nat, count: nat)
    requires n <= |body| && count <= |body[n..]|
    ensures body[..n] + body[n..][..count] == body[..n + count]
  {}
}
