/** The read loop of the server (src/server/event_loop.rs, the loop over
    `parse_request` in `handle_client_readable`): how a byte stream that arrives
    in arbitrary pieces turns into requests. */
module Pipeline {
  import opened Bytes
  import opened Parser
  import opened ParserStability
  import opened ChunkCodec
  import opened Printer

  /** Requests recognised, bytes kept for the next read, and the error that ended the loop. */
  datatype ReadOut = ReadOut(requests: seq<HttpRequest>, rest: bytes, failure: Option<ParseError>)

  /** Everything that can be parsed from `buffer`; an error discards what is left of it. */
  function Drain(buffer: bytes, maxBody: nat): ReadOut
    decreases |buffer|
  {
    match RequestOf(buffer, maxBody)
    case Complete(request, consumed) =>
      var more := Drain(buffer[consumed..], maxBody);
      ReadOut([request] + more.requests, more.rest, more.failure)
    case Incomplete => ReadOut([], buffer, None)
    case Failed(e) => ReadOut([], [], Some(e))
  }

  /** Successive reads, each appended to what the last one left, up to the first error. */
  function ReadAll(segments: seq<bytes>, buffer: bytes, maxBody: nat): ReadOut
    decreases |segments|
  {
    if segments == [] then ReadOut([], buffer, None)
    else
      var r := Drain(buffer + segments[0], maxBody);
      if r.failure.Some? then r
      else
        var more := ReadAll(segments[1..], r.rest, maxBody);
        ReadOut(r.requests + more.requests, more.rest, more.failure)
  }

  function Concat(parts: seq<bytes>): bytes {
    if parts == [] then [] else parts[0] + Concat(parts[1..])
  }

  lemma {:induction false} ConcatAppend(pieces: seq<bytes>, data: bytes)
    ensures Concat(pieces + [data]) == Concat(pieces) + data
  {
    if pieces == [] {
      assert ([] + [data])[1..] == [] && Concat([data]) == data + Concat([data][1..]);
    } else {
      assert (pieces + [data])[1..] == pieces[1..] + [data];
      ConcatAppend(pieces[1..], data);
    }
  }

  // -------------------------------------------------------- one read at a time

  /** While nothing has failed, reading on is the same as having read everything at once. */
  lemma {:induction false} DrainAppend(b: bytes, ext: bytes, maxBody: nat)
    requires Drain(b, maxBody).failure.None?
    ensures var r, s := Drain(b, maxBody), Drain(Drain(b, maxBody).rest + ext, maxBody);
            Drain(b + ext, maxBody) == ReadOut(r.requests + s.requests, s.rest, s.failure)
    decreases |b|
  {
    hide RequestOf;
    var v := RequestOf(b, maxBody);
    if v.Complete? {
      CompleteAndErrorsAreFinal(b, ext, maxBody);
      DrainAppend(b[v.consumed..], ext, maxBody);
      assert (b + ext)[v.consumed..] == b[v.consumed..] + ext;
    }
  }

  /** The head ends in the last three places the limit allows. */
  predicate Borderline(b: bytes) {
    var end := Find(b, CRLF_CRLF);
    end.Some? && MAX_HEADER_SIZE - 3 < end.value <= MAX_HEADER_SIZE
  }

  /** No request of the stream has a borderline head. */
  predicate Smooth(b: bytes, maxBody: nat)
    decreases |b|
  {
    var v := RequestOf(b, maxBody);
    !Borderline(b) && (v.Complete? ==> Smooth(b[v.consumed..], maxBody))
  }

  lemma FailureIsFinal(b: bytes, ext: bytes, maxBody: nat)
    requires RequestOf(b, maxBody).Failed? && !Borderline(b + ext)
    ensures RequestOf(b + ext, maxBody) == RequestOf(b, maxBody)
  {
    if MayStillFit(b) {
      assert |b| > MAX_HEADER_SIZE && HeadOf(b) == Failed(HeaderTooLarge);
      if Find(b + ext, CRLF_CRLF).Some? {
        FindLate(b, CRLF_CRLF, ext);
      }
    } else {
      VerdictStable(b, ext, maxBody);
    }
  }

  lemma {:induction false} DrainPrefix(b: bytes, ext: bytes, maxBody: nat)
    requires Smooth(b + ext, maxBody)
    ensures var r := Drain(b, maxBody);
            if r.failure.Some? then Drain(b + ext, maxBody) == r
            else RequestOf(r.rest, maxBody).Incomplete? && Smooth(r.rest + ext, maxBody)
    decreases |b|
  {
    hide RequestOf, Borderline;
    var v := RequestOf(b, maxBody);
    if v.Complete? {
      CompleteAndErrorsAreFinal(b, ext, maxBody);
      assert (b + ext)[v.consumed..] == b[v.consumed..] + ext;
      DrainPrefix(b[v.consumed..], ext, maxBody);
    } else if v.Failed? {
      FailureIsFinal(b, ext, maxBody);
    }
  }

  lemma {:induction false} ReadsFrom(segments: seq<bytes>, buffer: bytes, maxBody: nat)
    requires RequestOf(buffer, maxBody).Incomplete? && Smooth(buffer + Concat(segments), maxBody)
    ensures ReadAll(segments, buffer, maxBody) == Drain(buffer + Concat(segments), maxBody)
    decreases |segments|
  {
    hide RequestOf, Smooth;
    if segments == [] {
      assert buffer + Concat(segments) == buffer;
    } else {
      var b, ext := buffer + segments[0], Concat(segments[1..]);
      assert buffer + Concat(segments) == b + ext;
      DrainPrefix(b, ext, maxBody);
      var r := Drain(b, maxBody);
      if r.failure.None? {
        ReadsFrom(segments[1..], r.rest, maxBody);
        DrainAppend(b, ext, maxBody);
      }
    }
  }

  // ------------------------------------------------------ the exact condition

  /** A recognised request needs no byte beyond the ones it consumed. */
  lemma CompleteSuffices(b: bytes, maxBody: nat, n: nat)
    requires |b| <= USIZE_MAX && maxBody <= USIZE_MAX
    requires RequestOf(b, maxBody).Complete? && RequestOf(b, maxBody).consumed <= n <= |b|
    ensures RequestOf(b[..n], maxBody) == RequestOf(b, maxBody)
  {
    hide HeadOfText, ChunkedOf, Encoding, IsCoded;
    var p := Find(b, CRLF_CRLF).value;
    var cut := b[..n];
    assert cut + b[n..] == b;
    MatchExtend(cut, CRLF_CRLF, b[n..], p);
    forall j | 0 <= j < p ensures !MatchesAt(cut, CRLF_CRLF, j) {
      MatchExtend(cut, CRLF_CRLF, b[n..], j);
    }
    FindIs(cut, CRLF_CRLF, p);
    assert cut[..p] == b[..p];
    var head, end := HeadOf(b).value, p + 4;
    match head.framing
    case NoBody =>
    case ContentLength(length) =>
      assert cut[end..end + length] == b[end..end + length];
    case Chunked =>
      var used := ChunkedOf(b[end..], 0, [], maxBody).consumed;
      assert cut[end..][..used] == b[end..][..used];
      ChunkedSuffices(b[end..], maxBody, n - end);
      assert cut[end..] == b[end..][..n - end];
  }

  lemma ChunkedSuffices(b: bytes, maxBody: nat, n: nat)
    requires |b| <= USIZE_MAX && maxBody <= USIZE_MAX
    requires ChunkedOf(b, 0, [], maxBody).Complete? && ChunkedOf(b, 0, [], maxBody).consumed <= n <= |b|
    ensures ChunkedOf(b[..n], 0, [], maxBody) == ChunkedOf(b, 0, [], maxBody)
  {
    hide ChunkedOf, Encoding, IsCoded;
    var used := ChunkedOf(b, 0, [], maxBody).consumed;
    var c := EncodedFrom(b, 0, [], maxBody);
    assert b == Encoding(c) + b[used..];
    DecodeEncoding(c, b[used..], maxBody);
    assert b[..n] == Encoding(c) + b[used..n];
    DecodeEncoding(c, b[used..n], maxBody);
  }

  /** A borderline head is refused when its last bytes come in a later read. */
  lemma {:induction false} RoughCut(b: bytes, maxBody: nat) returns (n: nat)
    requires !Smooth(b, maxBody) && |b| <= USIZE_MAX && maxBody <= USIZE_MAX
    ensures n <= |b|
    ensures Drain(b[..n], maxBody).failure == Some(HeaderTooLarge)
    ensures Drain(b[..n], maxBody) != Drain(b, maxBody)
    decreases |b|
  {
    hide RequestOf;
    if Borderline(b) {
      n := MAX_HEADER_SIZE + 1;
      BorderlineCut(b, maxBody);
      TooLargeComesFromSize(b, maxBody);
    } else {
      var v := RequestOf(b, maxBody);
      var m := RoughCut(b[v.consumed..], maxBody);
      n := v.consumed + m;
      CompleteSuffices(b, maxBody, n);
      assert b[..n][v.consumed..] == b[v.consumed..][..m];
      assert Drain(b, maxBody).requests[1..] == Drain(b[v.consumed..], maxBody).requests;
      assert Drain(b[..n], maxBody).requests[1..] == Drain(b[v.consumed..][..m], maxBody).requests;
    }
  }

  lemma BorderlineCut(b: bytes, maxBody: nat)
    requires Borderline(b)
    ensures |b| > MAX_HEADER_SIZE
    ensures RequestOf(b[..MAX_HEADER_SIZE + 1], maxBody) == Failed(HeaderTooLarge)
    ensures HeadOf(b) != Failed(HeaderTooLarge)
  {
    hide HeadOfText, MatchesAt;
    var end := Find(b, CRLF_CRLF).value;
    BlankLength(b, end);
    TextErrors(b[..end]);
    var cut := b[..MAX_HEADER_SIZE + 1];
    assert cut + b[MAX_HEADER_SIZE + 1..] == b;
    if Find(cut, CRLF_CRLF).Some? {
      FindExtend(cut, CRLF_CRLF, b[MAX_HEADER_SIZE + 1..]);
      BlankLength(cut, end);
    }
  }

  lemma BlankLength(b: bytes, i: int)
    requires MatchesAt(b, CRLF_CRLF, i)
    ensures i + 4 <= |b|
  {}

  /** How a stream is cut into reads makes no difference, for every way of cutting
      it, exactly when none of its requests has a borderline head. */
  lemma SegmentationIff(w: bytes, maxBody: nat)
    requires |w| <= USIZE_MAX && maxBody <= USIZE_MAX
    ensures (forall segments | Concat(segments) == w :: ReadAll(segments, [], maxBody) == Drain(w, maxBody))
            <==> Smooth(w, maxBody)
  {
    hide RequestOf, Smooth;
    if Smooth(w, maxBody) {
      forall segments | Concat(segments) == w ensures ReadAll(segments, [], maxBody) == Drain(w, maxBody) {
        assert [] + Concat(segments) == w;
        NothingYet(maxBody);
        ReadsFrom(segments, [], maxBody);
      }
    } else {
      var n := RoughCut(w, maxBody);
      var segments := [w[..n], w[n..]];
      assert Concat(segments[1..]) == w[n..] + Concat(segments[1..][1..]) == w[n..];
      assert Concat(segments) == w;
      assert [] + w[..n] == w[..n];
      assert ReadAll(segments, [], maxBody) == Drain(w[..n], maxBody);
    }
  }

  lemma NothingYet(maxBody: nat)
    ensures RequestOf([], maxBody).Incomplete?
  {}

  // ------------------------------------------------------------- round trip

  function PrintAll(ms: seq<Message>): bytes {
    if ms == [] then [] else Print(ms[0]) + PrintAll(ms[1..])
  }

  function Meanings(ms: seq<Message>): seq<HttpRequest> {
    if ms == [] then [] else [Meaning(ms[0])] + Meanings(ms[1..])
  }

  /** A well-formed request within the limits, its head (with the blank line) at most one byte over. */
  predicate Fits(m: Message, maxBody: nat) {
    IsMessage(m) && |PrintHead(m)| <= MAX_HEADER_SIZE + 1 && |Body(m.payload)| <= maxBody
  }

  lemma {:induction false} DrainOfPrints(ms: seq<Message>, maxBody: nat)
    requires forall i :: 0 <= i < |ms| ==> Fits(ms[i], maxBody)
    requires maxBody <= USIZE_MAX && |PrintAll(ms)| <= USIZE_MAX
    ensures Drain(PrintAll(ms), maxBody) == ReadOut(Meanings(ms), [], None)
    ensures Smooth(PrintAll(ms), maxBody)
  {
    hide RequestOf, IsMessage, PrintHead, PrintPayload, Meaning, Body, Borderline;
    var w := PrintAll(ms);
    if ms == [] {
      NothingYet(maxBody);
      assert !Borderline([]) by { NotBorderlineShort([]); }
    } else {
      var rest := PrintAll(ms[1..]);
      ParseOfPrint(ms[0], rest, maxBody);
      assert w[|Print(ms[0])|..] == rest;
      DrainOfPrints(ms[1..], maxBody);
      PrintNotBorderline(ms[0], rest, maxBody);
    }
  }

  lemma NotBorderlineShort(b: bytes)
    requires |b| < 4
    ensures !Borderline(b)
  {}

  lemma PrintNotBorderline(m: Message, rest: bytes, maxBody: nat)
    requires Fits(m, maxBody) && maxBody <= USIZE_MAX
    ensures !Borderline(Print(m) + rest)
  {
    hide IsMessage, PrintPayload, Body, HeadOfText, HeadMeant, PrintHead;
    HeadRead(m, PrintPayload(m.payload) + rest);
    assert Print(m) + rest == PrintHead(m) + (PrintPayload(m.payload) + rest);
  }

  /** Any list of requests that fit, printed one after the other and cut into
      reads anywhere, is received as exactly that list, and nothing is left over. */
  lemma RoundTrip(ms: seq<Message>, segments: seq<bytes>, maxBody: nat)
    requires forall i :: 0 <= i < |ms| ==> Fits(ms[i], maxBody)
    requires maxBody <= USIZE_MAX && |PrintAll(ms)| <= USIZE_MAX
    requires Concat(segments) == PrintAll(ms)
    ensures ReadAll(segments, [], maxBody) == ReadOut(Meanings(ms), [], None)
  {
    hide RequestOf, Smooth, Fits;
    DrainOfPrints(ms, maxBody);
    NothingYet(maxBody);
    assert [] + Concat(segments) == PrintAll(ms);
    ReadsFrom(segments, [], maxBody);
  }

  // ------------------------------------------------------------ the loop itself

  method ReadLoop(buffer: bytes, maxBody: nat)
    returns (requests: seq<HttpRequest>, rest: bytes, failure: Option<ParseError>)
    ensures ReadOut(requests, rest, failure) == Drain(buffer, maxBody)
  {
    hide RequestOf;
    requests, rest, failure := [], buffer, None;
    while true
      invariant var r := Drain(rest, maxBody);
                Drain(buffer, maxBody) == ReadOut(requests + r.requests, r.rest, r.failure)
      decreases |rest|
    {
      var parsed := ParseRequest(rest, maxBody);
      match parsed
      case Complete(request, consumed) =>
        requests := requests + [request];
        rest := rest[consumed..];
      case Incomplete =>
        return;
      case Failed(e) =>
        rest, failure := [], Some(e);
        return;
    }
  }
}
