/** The parser runs again over the whole buffer after every read.  A verdict it
    has reached is not changed by the bytes that arrive later -- with one
    exception, whose exact extent is proved here. */
module ParserStability {
  import opened Bytes
  import opened Parser

  // ------------------------------------------------------------ chunked body

  lemma TrailerExtend(b: bytes, ext: bytes)
    requires TrailerEnd(b).Some?
    ensures TrailerEnd(b + ext) == TrailerEnd(b)
  {
    if |b| >= 2 { MatchExtend(b, CRLF, ext, 0); }
    if !MatchesAt(b, CRLF, 0) {
      FindExtend(b, CRLF_CRLF, ext);
    }
  }

  lemma ChunkAtExtend(b: bytes, ext: bytes, offset: nat, decoded: nat, maxBody: nat)
    requires offset <= |b|
    requires !ChunkAt(b, offset, decoded, maxBody).NeedMore?
    ensures ChunkAt(b + ext, offset, decoded, maxBody) == ChunkAt(b, offset, decoded, maxBody)
  {
    hide ChunkSizeOf, TrailerEnd, Find;
    assert (b + ext)[offset..] == b[offset..] + ext;
    FindExtend(b[offset..], CRLF, ext);
    var i := Find(b[offset..], CRLF).value;
    var start := offset + i + 2;
    assert (b + ext)[offset..offset + i] == b[offset..offset + i];
    var size := ChunkSizeOf(b[offset..offset + i]);
    if size == Some(0) {
      assert (b + ext)[start..] == b[start..] + ext;
      TrailerExtend(b[start..], ext);
    } else if size.Some? && |b| >= start + size.value + 2 {
      assert (b + ext)[start + size.value..start + size.value + 2] == b[start + size.value..start + size.value + 2];
    }
  }

  lemma {:induction false} ChunkedExtend(b: bytes, ext: bytes, offset: nat, body: bytes, maxBody: nat)
    requires offset <= |b|
    requires !ChunkedOf(b, offset, body, maxBody).Incomplete?
    ensures ChunkedOf(b + ext, offset, body, maxBody) == ChunkedOf(b, offset, body, maxBody)
    decreases |b| - offset
  {
    hide ChunkAt;
    ChunkAtExtend(b, ext, offset, |body|, maxBody);
    match ChunkAt(b, offset, |body|, maxBody)
    case ChunkData(start, size) =>
      assert (b + ext)[start..start + size] == b[start..start + size];
      ChunkedExtend(b, ext, start + size + 2, body + b[start..start + size], maxBody);
    case _ =>
  }

  lemma ChunkAtErrors(b: bytes, offset: nat, decoded: nat, maxBody: nat)
    requires offset <= |b|
    ensures ChunkAt(b, offset, decoded, maxBody) != Bad(HeaderTooLarge)
  {}

  lemma {:induction false} ChunkedErrors(b: bytes, offset: nat, body: bytes, maxBody: nat)
    requires offset <= |b|
    ensures ChunkedOf(b, offset, body, maxBody) != Failed(HeaderTooLarge)
    decreases |b| - offset
  {
    hide ChunkAt;
    ChunkAtErrors(b, offset, |body|, maxBody);
    var step := ChunkAt(b, offset, |body|, maxBody);
    if step.ChunkData? {
      ChunkedErrors(b, step.start + step.size + 2, body + b[step.start..step.start + step.size], maxBody);
    }
  }

  // -------------------------------------------------------------------- head

  lemma {:induction false} HeadersErrors(lines: seq<bytes>)
    ensures HeadersOf(lines) != Err(HeaderTooLarge)
  {
    if lines != [] { HeadersErrors(lines[1..]); }
  }

  lemma {:induction false} LengthPartsErrors(parts: seq<bytes>, before: Option<nat>)
    ensures LengthParts(parts, before) != Err(HeaderTooLarge)
  {
    if parts != [] {
      var next := LengthPart(parts[0], before);
      if next.Ok? { LengthPartsErrors(parts[1..], next.value); }
    }
  }

  lemma {:induction false} LengthValuesErrors(values: seq<bytes>, before: Option<nat>)
    ensures LengthValues(values, before) != Err(HeaderTooLarge)
  {
    if values != [] {
      LengthPartsErrors(Split(values[0], ","), before);
      var next := LengthParts(Split(values[0], ","), before);
      if next.Ok? { LengthValuesErrors(values[1..], next.value); }
    }
  }

  lemma FramingErrors(headers: seq<Header>)
    ensures FramingOf(headers) != Err(HeaderTooLarge)
  {
    hide Split, Join, ListItems, ValuesOf, LengthValues;
    LengthValuesErrors(ValuesOf(headers, CONTENT_LENGTH), None);
  }

  lemma RequestLineErrors(line: bytes)
    ensures RequestLineOf(line) != Err(HeaderTooLarge)
  {}

  /** Only the size tests of `HeadOf` report an oversized header. */
  lemma TextErrors(text: bytes)
    ensures HeadOfText(text) != Err(HeaderTooLarge)
  {
    hide RequestLineOf, HeadersOf, FramingOf, Utf8, Split, SplitTarget;
    var lines := Split(text, CRLF);
    RequestLineErrors(lines[0]);
    HeadersErrors(lines[1..]);
    if HeadersOf(lines[1..]).Ok? {
      FramingErrors(HeadersOf(lines[1..]).value);
    }
  }

  /** `b` is over the limit without a terminator, but ends in the start of one
      that would still lie within the limit. */
  predicate MayStillFit(b: bytes) {
    && Find(b, CRLF_CRLF).None?
    && exists p | 0 <= p < |b| :: EndsInTerminator(b, p)
  }

  /** From `p`, within the limit, `b` is the beginning of a terminator. */
  predicate EndsInTerminator(b: bytes, p: int) {
    |b| - 3 <= p <= MAX_HEADER_SIZE && 0 <= p < |b| && b[p..] <= CRLF_CRLF
  }

  lemma HeadExtend(b: bytes, ext: bytes)
    requires !HeadOf(b).Incomplete? && !MayStillFit(b)
    ensures HeadOf(b + ext) == HeadOf(b)
  {
    if Find(b, CRLF_CRLF).Some? {
      FindExtend(b, CRLF_CRLF, ext);
      var p := Find(b, CRLF_CRLF).value;
      assert (b + ext)[..p] == b[..p];
    } else if Find(b + ext, CRLF_CRLF).Some? {
      FindLate(b, CRLF_CRLF, ext);
      var q := Find(b + ext, CRLF_CRLF).value;
      if q < |b| {
        assert b[q..] == (b + ext)[q..q + 4][..|b| - q];
        assert q <= MAX_HEADER_SIZE ==> EndsInTerminator(b, q);
      }
    }
  }

  // ------------------------------------------------------------- whole request

  lemma BodyExtend(b: bytes, ext: bytes, head: RequestHead, end: nat, maxBody: nat)
    requires end <= |b|
    requires !BodyOf(b, head, end, maxBody).Incomplete?
    ensures BodyOf(b + ext, head, end, maxBody) == BodyOf(b, head, end, maxBody)
  {
    hide ChunkedOf;
    match head.framing
    case NoBody =>
    case ContentLength(length) =>
      if end + length <= |b| {
        assert (b + ext)[end..end + length] == b[end..end + length];
      }
    case Chunked =>
      assert (b + ext)[end..] == b[end..] + ext;
      ChunkedExtend(b[end..], ext, 0, [], maxBody);
  }

  /** Every verdict other than "not yet" is final, unless the header may still fit. */
  lemma VerdictStable(b: bytes, ext: bytes, maxBody: nat)
    requires !RequestOf(b, maxBody).Incomplete? && !MayStillFit(b)
    ensures RequestOf(b + ext, maxBody) == RequestOf(b, maxBody)
  {
    hide BodyOf, HeadOf;
    HeadExtend(b, ext);
    if HeadOf(b).Complete? {
      BodyExtend(b, ext, HeadOf(b).value, HeadOf(b).consumed, maxBody);
    }
  }

  lemma TooLargeComesFromSize(b: bytes, maxBody: nat)
    ensures RequestOf(b, maxBody) == Failed(HeaderTooLarge) <==> HeadOf(b) == Failed(HeaderTooLarge)
    ensures MayStillFit(b) && |b| > MAX_HEADER_SIZE ==> RequestOf(b, maxBody) == Failed(HeaderTooLarge)
  {
    if Find(b, CRLF_CRLF).Some? { TextErrors(b[..Find(b, CRLF_CRLF).value]); }
    if HeadOf(b).Complete? { ChunkedErrors(b[HeadOf(b).consumed..], 0, [], maxBody); }
  }

  /** A request once recognised stays recognised, with the same length, and so
      does every error except an oversized header. */
  lemma CompleteAndErrorsAreFinal(b: bytes, ext: bytes, maxBody: nat)
    requires !RequestOf(b, maxBody).Incomplete? && RequestOf(b, maxBody) != Failed(HeaderTooLarge)
    ensures RequestOf(b + ext, maxBody) == RequestOf(b, maxBody)
  {
    TooLargeComesFromSize(b, maxBody);
    VerdictStable(b, ext, maxBody);
  }

  /** The exception, exactly: an oversized-header verdict is final if and only if
      the buffer does not end in the start of a terminator within the limit. */
  lemma TooLargeIsFinalIff(b: bytes, maxBody: nat)
    requires RequestOf(b, maxBody) == Failed(HeaderTooLarge)
    ensures (forall ext: bytes :: RequestOf(b + ext, maxBody) == Failed(HeaderTooLarge)) <==> !MayStillFit(b)
  {
    if MayStillFit(b) {
      var _ := TooLargeUndone(b, maxBody);
    } else {
      forall ext: bytes ensures RequestOf(b + ext, maxBody) == Failed(HeaderTooLarge) {
        VerdictStable(b, ext, maxBody);
      }
    }
  }

  lemma EndsIn(b: bytes, p: nat) returns (ext: bytes)
    requires EndsInTerminator(b, p)
    ensures |ext| <= 3 && MatchesAt(b + ext, CRLF_CRLF, p)
  {
    ext := CRLF_CRLF[|b| - p..];
    assert b[p..] + ext == CRLF_CRLF;
    assert (b + ext)[p..p + 4] == b[p..] + ext;
  }

  lemma HeadWithin(w: bytes, p: nat)
    requires MatchesAt(w, CRLF_CRLF, p) && p <= MAX_HEADER_SIZE
    ensures HeadOf(w) != Failed(HeaderTooLarge)
  {
    hide HeadOfText;
    var q := Find(w, CRLF_CRLF).value;
    TextErrors(w[..q]);
  }

  /** At most three more bytes take the verdict back. */
  lemma TooLargeUndone(b: bytes, maxBody: nat) returns (ext: bytes)
    requires MayStillFit(b)
    ensures |ext| <= 3 && RequestOf(b + ext, maxBody) != Failed(HeaderTooLarge)
  {
    hide HeadOf, RequestOf, MatchesAt, Find;
    var p :| 0 <= p < |b| && EndsInTerminator(b, p);
    ext := EndsIn(b, p);
    HeadWithin(b + ext, p);
    TooLargeComesFromSize(b + ext, maxBody);
  }

  /** In particular no buffer of more than `MAX_HEADER_SIZE + 3` bytes is affected. */
  lemma LongBuffersAreFinal(b: bytes, ext: bytes, maxBody: nat)
    requires |b| > MAX_HEADER_SIZE + 3 && !RequestOf(b, maxBody).Incomplete?
    ensures RequestOf(b + ext, maxBody) == RequestOf(b, maxBody)
  {
    VerdictStable(b, ext, maxBody);
  }

  /** The exception is real: a buffer one byte over the limit that is rejected,
      and whose completion is not. */
  lemma TooLargeWitness(maxBody: nat) returns (b: bytes, ext: bytes)
    ensures RequestOf(b, maxBody) == Failed(HeaderTooLarge)
    ensures RequestOf(b + ext, maxBody) != Failed(HeaderTooLarge)
  {
    var pad: bytes := seq(MAX_HEADER_SIZE, _ => 'a');
    b := pad + "\r";
    assert b[MAX_HEADER_SIZE..] == "\r" <= CRLF_CRLF;
    assert EndsInTerminator(b, MAX_HEADER_SIZE);
    forall j | 0 <= j ensures !MatchesAt(b, CRLF_CRLF, j) {
      if j + 4 <= |b| {
        assert b[j..j + 4][0] == b[j] == 'a';
      }
    }
    assert MayStillFit(b);
    TooLargeComesFromSize(b, maxBody);
    ext := TooLargeUndone(b, maxBody);
  }
}
