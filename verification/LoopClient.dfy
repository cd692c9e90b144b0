/** What a client that follows RFC 7230 makes of the bytes it receives. */
module LoopClient {
  import opened Bytes
  import opened Parser
  import opened Printer
  import opened Pipeline
  import opened Kernel
  import opened Loop
  import opened LoopInvariants
  import opened LoopResults
  import opened LoopEndings
  import Response

  const HEAD_METHOD: bytes := "HEAD"

  predicate IsHead(request: HttpRequest) { request.verb == Other(HEAD_METHOD) }

  ghost predicate Serializes(reply: bytes, t: Response.Timed) {
    && Response.IsWritable(t.response) && Response.IsFramed(t.response, false) && !t.toHead
    && reply == Response.Serialized(t.response, t.now)
  }

  /** The reply is a response that delimits itself. */
  ghost predicate IsDelimited(reply: bytes) { exists t :: Serializes(reply, t) }

  /** Every reply to a request other than HEAD, be it a script's, delimits itself. */
  ghost predicate Delimits(w: World) {
    && (forall request: HttpRequest, n: nat ::
          w.handle(request, n).Respond? && !IsHead(request) ==> IsDelimited(w.handle(request, n).reply))
    && (forall output: bytes, n: nat :: IsDelimited(w.cgiPage(output, n)))
    && (forall page: Page, n: nat :: IsDelimited(w.page(page, n)))
  }

  ghost predicate AllDelimited(items: seq<Item>) {
    forall i :: 0 <= i < |items| ==> IsDelimited(items[i].reply)
  }

  lemma {:induction false} AnsweredRequests(items: seq<Item>, i: nat)
    requires i < |items| && items[i].Answer?
    ensures items[i].request in AnsweredOf(items)
    decreases |items|
  {
    if i < |items| - 1 {
      assert items[..|items| - 1][i] == items[i];
      AnsweredRequests(items[..|items| - 1], i);
    }
  }

  lemma ItemDelimited(item: Item, w: World)
    requires Delimits(w) && ItemOk(item, w, false) && (item.Answer? ==> !IsHead(item.request))
    ensures IsDelimited(item.reply)
  {
    hide IsDelimited, OutputOk, AsksCgi, IsHead;
  }

  lemma ItemsDelimited(items: seq<Item>, w: World)
    requires Delimits(w) && ItemsOk(items, w, false)
    requires forall r :: r in AnsweredOf(items) ==> !IsHead(r)
    ensures AllDelimited(items)
  {
    hide Delimits, ItemOk, IsDelimited, IsHead, AnsweredOf;
    forall i | 0 <= i < |items| ensures IsDelimited(items[i].reply) {
      if items[i].Answer? { AnsweredRequests(items, i); }
      ItemDelimited(items[i], w);
    }
  }

  lemma {:induction false} StreamAppend(ts: seq<Response.Timed>, t: Response.Timed)
    ensures Response.Stream(ts + [t]) == Response.Stream(ts) + Response.Serialized(t.response, t.now)
  {
    hide Response.Serialized;
    if ts == [] {
      assert [t][1..] == [];
      assert ts + [t] == [t];
    } else {
      assert (ts + [t])[1..] == ts[1..] + [t];
      StreamAppend(ts[1..], t);
    }
  }

  /** The responses `ts` are those of these items, one by one. */
  ghost predicate Matches(items: seq<Item>, ts: seq<Response.Timed>) {
    |ts| == |items| && forall i :: 0 <= i < |ts| ==> Serializes(items[i].reply, ts[i])
  }

  lemma {:induction false} ResponsesOf(items: seq<Item>) returns (ts: seq<Response.Timed>)
    requires AllDelimited(items)
    ensures Matches(items, ts) && Response.Stream(ts) == BytesOf(items)
    decreases |items|
  {
    hide Serializes, Response.Stream, Matches, IsDelimited;
    if items == [] {
      ts := [];
      NoResponses();
    } else {
      var front, last := items[..|items| - 1], items[|items| - 1];
      assert items == front + [last] && AllDelimited(front) && IsDelimited(items[|items| - 1].reply);
      var before := ResponsesOf(front);
      var t := ResponseOf(last.reply);
      ts := before + [t];
      StreamAppend(before, t);
      SerializedIs(last.reply, t);
      MatchesAppend(front, before, last, t);
    }
  }

  lemma NoResponses()
    ensures Matches([], []) && Response.Stream([]) == []
  {}

  lemma ResponseOf(reply: bytes) returns (t: Response.Timed)
    requires IsDelimited(reply)
    ensures Serializes(reply, t)
  {
    hide Serializes;
    t :| Serializes(reply, t);
  }

  lemma MatchesAppend(items: seq<Item>, ts: seq<Response.Timed>, item: Item, t: Response.Timed)
    requires Matches(items, ts) && Serializes(item.reply, t)
    ensures Matches(items + [item], ts + [t])
  {
    hide Serializes;
  }

  lemma SerializedIs(reply: bytes, t: Response.Timed)
    requires Serializes(reply, t)
    ensures reply == Response.Serialized(t.response, t.now)
  {}

  /** A client reads from the stream, one by one, the answers to these requests, in order, and 408s. */
  ghost predicate Recovers(stream: bytes, requests: seq<HttpRequest>, w: World) {
    exists items: seq<Item>, ts: seq<Response.Timed> ::
      && Matches(items, ts) && AnsweredOf(items) == requests && ItemsOk(items, w, false)
      && Response.ReadStream(stream, Response.Heads(ts)) == Some(Response.AllSent(ts))
  }

  lemma StreamRecovers(items: seq<Item>, w: World)
    requires AllDelimited(items) && ItemsOk(items, w, false)
    ensures Recovers(BytesOf(items), AnsweredOf(items), w)
  {
    hide AllDelimited, ItemsOk, AnsweredOf, BytesOf, Response.IsWritable, Response.IsFramed, Response.Serialized, Response.ReadStream;
    var ts := ResponsesOf(items);
    Response.StreamSplits(ts);
    assert Matches(items, ts);
  }

  /** A client sends well-formed requests, none of them HEAD, to a server whose replies delimit
      themselves.  From the bytes sent and still to be sent, it recovers, response by response, what
      became of a beginning of its requests, in order; of all of them, once everything is sent and no
      CGI is running or was refused. */
  lemma ClientRecovers(s: Loop, w: World, id: Fd, ms: seq<Message>, rest: bytes)
    requires Reachable(s, w) && Delimits(w) && id in s.conns && s.conns[id].log.input + rest == PrintAll(ms)
    requires forall i :: 0 <= i < |ms| ==> Fits(ms[i], w.maxBody)
    requires forall r :: r in Meanings(ms) ==> !IsHead(r)
    requires w.maxBody <= USIZE_MAX && |PrintAll(ms)| <= USIZE_MAX
    ensures var c := s.conns[id];
            exists answered :: answered <= Meanings(ms) && Recovers(c.log.sent + c.PendingWrite(), answered, w)
              && (rest == [] && !c.awaitingCgi ==> answered == Meanings(ms) || RefusedLast(c, w))
  {
    hide Reachable, Fits, PrintAll, Meanings, AnsweredOf, Faithful, BytesOf, ItemsOk, RefusedLast, Delimits, Recovers, IsHead,
      AllDelimited;
    GoodConn(s, w, id);
    QueuesMove(s, w, id);
    BytesConserved(s, w, id);
    var c := s.conns[id];
    RequestsArrive(c, w, ms, rest);
    var answered := AnsweredOf(c.log.items);
    assert answered <= Meanings(ms);
    ItemsDelimited(c.log.items, w);
    StreamRecovers(c.log.items, w);
  }
}
