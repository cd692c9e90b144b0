/** The incremental HTTP/1.1 request parser (src/http/parser.rs).

    The `...Of` functions say what each step of the parser decides; the methods
    at the end run the loops the program runs and compute the same thing. */
module Parser {
  import opened Bytes
  import opened Numbers

  const MAX_HEADER_SIZE := 32 * 1024

  const HOST: bytes := "host"
  const CONTENT_LENGTH: bytes := "content-length"
  const TRANSFER_ENCODING: bytes := "transfer-encoding"
  const CHUNKED: bytes := "chunked"
  const HTTP_VERSION: bytes := "HTTP/1.1"

  datatype ParseError =
    | HeaderTooLarge
    | InvalidUtf8
    | InvalidRequestLine
    | InvalidMethod
    | InvalidTarget
    | UnsupportedVersion(version: bytes)
    | InvalidHeader
    | MissingHost
    | DuplicateHost
    | InvalidContentLength
    | ConflictingContentLength
    | ConflictingBodyFraming
    | UnsupportedTransferEncoding(encoding: bytes)
    | InvalidChunkSize
    | BodyTooLarge

  datatype Result<+T> = Ok(value: T) | Err(error: ParseError) {
    predicate IsFailure() { Err? }

    function PropagateFailure<U>(): Result<U>
      requires Err?
    {
      Err(error)
    }

    function Extract(): T
      requires Ok?
    {
      value
    }
  }

  /** `Result<ParseResult<T>, ParseError>`. */
  datatype Parsed<+T> =
    | Complete(value: T, consumed: nat)
    | Incomplete
    | Failed(error: ParseError)

  datatype Method = Get | Post | Delete | Other(name: bytes)

  datatype Header = Header(name: bytes, value: bytes)

  datatype BodyFraming = NoBody | ContentLength(length: nat) | Chunked

  datatype RequestLine = RequestLine(verb: Method, target: bytes)

  datatype RequestHead = RequestHead(
    verb: Method,
    target: bytes,
    path: bytes,
    query: Option<bytes>,
    headers: seq<Header>,
    framing: BodyFraming)

  datatype HttpRequest = HttpRequest(
    verb: Method,
    target: bytes,
    path: bytes,
    query: Option<bytes>,
    headers: seq<Header>,
    body: bytes)

  // ------------------------------------------------------------- request line

  predicate IsTokenByte(c: byte) {
    || c in "!#$%&'*+-.^_`|~"
    || '0' <= c <= '9'
    || 'A' <= c <= 'Z'
    || 'a' <= c <= 'z'
  }

  predicate IsToken(s: bytes) {
    forall i :: 0 <= i < |s| ==> IsTokenByte(s[i])
  }

  predicate IsTargetText(s: bytes) {
    forall i :: 0 <= i < |s| ==> !(s[i] <= ' ' || s[i] == '\U{7F}')
  }

  function MethodOf(name: bytes): Method {
    if name == "GET" then Get
    else if name == "POST" then Post
    else if name == "DELETE" then Delete
    else Other(name)
  }

  function RequestLineOf(line: bytes): Result<RequestLine> {
    var parts := Split(line, " ");
    if |parts| != 3 || parts[0] == [] || parts[1] == [] || parts[2] == [] then
      Err(InvalidRequestLine)
    else if !IsToken(parts[0]) then
      Err(InvalidMethod)
    else if !IsTargetText(parts[1]) then
      Err(InvalidTarget)
    else if parts[2] != HTTP_VERSION then
      Err(UnsupportedVersion(parts[2]))
    else
      Ok(RequestLine(MethodOf(parts[0]), parts[1]))
  }

  function SplitTarget(target: bytes): (bytes, Option<bytes>) {
    match Find(target, "?")
    case Some(i) => (target[..i], Some(target[i + 1..]))
    case None => (target, None)
  }

  // ------------------------------------------------------------------ headers

  predicate IsBlank(c: byte) { c == ' ' || c == '\t' }

  function TrimBlanksFront(s: bytes): bytes {
    if s != [] && IsBlank(s[0]) then TrimBlanksFront(s[1..]) else s
  }

  function TrimBlanksBack(s: bytes): bytes {
    if s != [] && IsBlank(s[|s| - 1]) then TrimBlanksBack(s[..|s| - 1]) else s
  }

  function TrimBlanks(s: bytes): bytes {
    TrimBlanksBack(TrimBlanksFront(s))
  }

  predicate IsFieldText(s: bytes) {
    forall i :: 0 <= i < |s| ==> !((s[i] < ' ' && s[i] != '\t') || s[i] == '\U{7F}')
  }

  function HeaderOf(line: bytes): Result<Header> {
    if line != [] && IsBlank(line[0]) then
      Err(InvalidHeader)
    else
      match Find(line, ":")
      case None => Err(InvalidHeader)
      case Some(i) =>
        var name, value := line[..i], TrimBlanks(line[i + 1..]);
        if name == [] || !IsToken(name) || !IsFieldText(value) then
          Err(InvalidHeader)
        else
          Ok(Header(Lower(name), value))
  }

  function HeadersOf(lines: seq<bytes>): Result<seq<Header>> {
    if lines == [] then
      Ok([])
    else if lines[0] == [] then
      HeadersOf(lines[1..])
    else
      var header :- HeaderOf(lines[0]);
      var rest :- HeadersOf(lines[1..]);
      Ok([header] + rest)
  }

  /** The values of the headers called `name`, in order. */
  function ValuesOf(headers: seq<Header>, name: bytes): seq<bytes> {
    if headers == [] then []
    else
      (if EqIgnoreCase(headers[0].name, name) then [headers[0].value] else [])
      + ValuesOf(headers[1..], name)
  }

  function HostCheck(headers: seq<Header>): Result<()> {
    var hosts := ValuesOf(headers, HOST);
    if hosts == [] then Err(MissingHost)
    else if |hosts| > 1 then Err(DuplicateHost)
    else if Trim(hosts[0]) == [] then Err(MissingHost)
    else Ok(())
  }

  // ------------------------------------------------------------- body framing

  function Join(parts: seq<bytes>, sep: bytes): bytes
  {
    if parts == [] then []
    else if |parts| == 1 then parts[0]
    else parts[0] + sep + Join(parts[1..], sep)
  }

  /** The non-empty items of a comma-separated list, trimmed and lower-cased. */
  function ListItems(parts: seq<bytes>): seq<bytes> {
    if parts == [] then []
    else
      var item := Lower(Trim(parts[0]));
      (if item == [] then [] else [item]) + ListItems(parts[1..])
  }

  predicate AllDigits(s: bytes) {
    forall i :: 0 <= i < |s| ==> IsDigit(s[i])
  }

  /** One comma-separated part of a Content-Length value, given what was read before it. */
  function LengthPart(part: bytes, before: Option<nat>): Result<Option<nat>> {
    var digits := Trim(part);
    if digits == [] || !AllDigits(digits) then
      Err(InvalidContentLength)
    else
      match FromStrRadix(digits, 10)
      case None => Err(InvalidContentLength)
      case Some(v) =>
        if before.Some? && before.value != v then Err(ConflictingContentLength) else Ok(Some(v))
  }

  function LengthParts(parts: seq<bytes>, before: Option<nat>): Result<Option<nat>> {
    if parts == [] then Ok(before)
    else
      var next :- LengthPart(parts[0], before);
      LengthParts(parts[1..], next)
  }

  function LengthValues(values: seq<bytes>, before: Option<nat>): Result<Option<nat>> {
    if values == [] then Ok(before)
    else
      var next :- LengthParts(Split(values[0], ","), before);
      LengthValues(values[1..], next)
  }

  function FramingOf(headers: seq<Header>): Result<BodyFraming> {
    var lengths := ValuesOf(headers, CONTENT_LENGTH);
    var encodings := ValuesOf(headers, TRANSFER_ENCODING);
    if lengths != [] && encodings != [] then
      Err(ConflictingBodyFraming)
    else if encodings != [] then
      var combined := Join(encodings, ",");
      if ListItems(Split(combined, ",")) == [CHUNKED] then Ok(Chunked)
      else Err(UnsupportedTransferEncoding(combined))
    else if lengths == [] then
      Ok(NoBody)
    else
      var length :- LengthValues(lengths, None);
      if length.Some? then Ok(ContentLength(length.value)) else Err(InvalidContentLength)
  }

  // --------------------------------------------------------------------- head

  function HeadOfText(text: bytes): Result<RequestHead> {
    if !Utf8(text) then Err(InvalidUtf8) else
      var lines := Split(text, CRLF);
      var line :- RequestLineOf(lines[0]);
      var headers :- HeadersOf(lines[1..]);
      var _ :- HostCheck(headers);
      var framing :- FramingOf(headers);
      var (path, query) := SplitTarget(line.target);
      Ok(RequestHead(line.verb, line.target, path, query, headers, framing))
  }

  function HeadOf(buffer: bytes): (r: Parsed<RequestHead>)
    ensures r.Complete? ==> 4 <= r.consumed <= |buffer|
  {
    match Find(buffer, CRLF_CRLF)
    case None => if |buffer| > MAX_HEADER_SIZE then Failed(HeaderTooLarge) else Incomplete
    case Some(end) =>
      if end > MAX_HEADER_SIZE then Failed(HeaderTooLarge) else
        match HeadOfText(buffer[..end])
        case Ok(head) => Complete(head, end + 4)
        case Err(e) => Failed(e)
  }

  // ------------------------------------------------------------- chunked body

  /** `parse_chunk_size`: the part before ';', trimmed, in hexadecimal. */
  function ChunkSizeOf(line: bytes): (r: Option<nat>)
    ensures r.Some? ==> r.value <= USIZE_MAX
  {
    var hex := match Find(line, ";") case Some(i) => line[..i] case None => line;
    if hex == [] || !Utf8(hex) then None else FromStrRadix(Trim(hex), 16)
  }

  /** `find_crlf_crlf_or_bare_crlf`. */
  function TrailerEnd(buffer: bytes): (r: Option<nat>)
    ensures r.Some? ==> MatchesAt(buffer, CRLF, r.value)
  {
    if MatchesAt(buffer, CRLF, 0) then Some(0)
    else
      match Find(buffer, CRLF_CRLF)
      case Some(i) =>
        assert buffer[i..i + 4][2..] == buffer[i + 2..i + 4];
        Some(i + 2)
      case None => None
  }

  /** What the decoder finds at one chunk-size line. */
  datatype ChunkStep =
    | ChunkData(start: nat, size: nat)
    | LastChunk(consumed: nat)
    | NeedMore
    | Bad(error: ParseError)

  function ChunkAt(buffer: bytes, offset: nat, decoded: nat, maxBody: nat): (r: ChunkStep)
    requires offset <= |buffer|
    ensures r.LastChunk? ==> offset + 4 <= r.consumed <= |buffer|
    ensures r.ChunkData? ==> offset + 2 <= r.start && 0 < r.size && r.start + r.size + 2 <= |buffer|
  {
    match Find(buffer[offset..], CRLF)
    case None => NeedMore
    case Some(i) =>
      match ChunkSizeOf(buffer[offset..offset + i])
      case None => Bad(InvalidChunkSize)
      case Some(size) =>
        var start := offset + i + 2;
        if size == 0 then
          match TrailerEnd(buffer[start..])
          case Some(t) => assert i > 0; LastChunk(start + t + 2)
          case None => NeedMore
        else if decoded + size > USIZE_MAX || decoded + size > maxBody then Bad(BodyTooLarge)
        else if start + size + 2 > USIZE_MAX then Bad(InvalidChunkSize)
        else if |buffer| < start + size + 2 then NeedMore
        else if buffer[start + size..start + size + 2] != CRLF then Bad(InvalidChunkSize)
        else ChunkData(start, size)
  }

  /** Decoding from `offset`, with `body` decoded so far. */
  function ChunkedOf(buffer: bytes, offset: nat, body: bytes, maxBody: nat): (r: Parsed<bytes>)
    requires offset <= |buffer|
    ensures r.Complete? ==> offset + 4 <= r.consumed <= |buffer|
    decreases |buffer| - offset
  {
    match ChunkAt(buffer, offset, |body|, maxBody)
    case ChunkData(start, size) =>
      ChunkedOf(buffer, start + size + 2, body + buffer[start..start + size], maxBody)
    case LastChunk(consumed) => Complete(body, consumed)
    case NeedMore => Incomplete
    case Bad(e) => Failed(e)
  }

  // ------------------------------------------------------------------ request

  function RequestWith(head: RequestHead, body: bytes): HttpRequest {
    HttpRequest(head.verb, head.target, head.path, head.query, head.headers, body)
  }

  /** What `parse_request` answers for the bytes received so far. */
  function RequestOf(buffer: bytes, maxBody: nat): (r: Parsed<HttpRequest>)
    ensures r.Complete? ==> 4 <= r.consumed <= |buffer|
  {
    match HeadOf(buffer)
    case Incomplete => Incomplete
    case Failed(e) => Failed(e)
    case Complete(head, headEnd) => BodyOf(buffer, head, headEnd, maxBody)
  }

  function BodyOf(buffer: bytes, head: RequestHead, headEnd: nat, maxBody: nat): (r: Parsed<HttpRequest>)
    requires headEnd <= |buffer|
    ensures r.Complete? ==> headEnd <= r.consumed <= |buffer|
  {
    match head.framing
    case NoBody => Complete(RequestWith(head, []), headEnd)
    case ContentLength(length) =>
      if length > maxBody then Failed(BodyTooLarge)
      else if headEnd + length > USIZE_MAX then Failed(InvalidContentLength)
      else if |buffer| < headEnd + length then Incomplete
      else Complete(RequestWith(head, buffer[headEnd..headEnd + length]), headEnd + length)
    case Chunked =>
      match ChunkedOf(buffer[headEnd..], 0, [], maxBody)
      case Complete(body, used) => Complete(RequestWith(head, body), headEnd + used)
      case Incomplete => Incomplete
      case Failed(e) => Failed(e)
  }

  // ------------------------------------------------- the loops of the program

  method ParseHeaderLines(lines: seq<bytes>) returns (r: Result<seq<Header>>)
    ensures r == HeadersOf(lines)
  {
    var headers := [];
    assert lines[0..] == lines;
    for i := 0 to |lines|
      invariant match HeadersOf(lines[i..])
                case Ok(rest) => HeadersOf(lines).Ok? && HeadersOf(lines).value == headers + rest
                case Err(e) => HeadersOf(lines) == Err(e)
    {
      assert lines[i..][1..] == lines[i + 1..];
      assert lines[i..] != [];
      if lines[i] == [] {
        continue;
      }
      var header := HeaderOf(lines[i]);
      if header.Err? {
        return Err(header.error);
      }
      headers := headers + [header.value];
    }
    assert HeadersOf(lines[|lines|..]) == Ok([]);
    assert headers + [] == headers;
    return Ok(headers);
  }

  method DetermineBodyFraming(headers: seq<Header>) returns (r: Result<BodyFraming>)
    ensures r == FramingOf(headers)
  {
    hide Split, Join, ListItems, ValuesOf, LengthPart;
    var lengths := ValuesOf(headers, CONTENT_LENGTH);
    var encodings := ValuesOf(headers, TRANSFER_ENCODING);
    if lengths != [] && encodings != [] {
      return Err(ConflictingBodyFraming);
    }
    if encodings != [] {
      var combined := Join(encodings, ",");
      if ListItems(Split(combined, ",")) == [CHUNKED] {
        return Ok(Chunked);
      }
      return Err(UnsupportedTransferEncoding(combined));
    }
    if lengths == [] {
      return Ok(NoBody);
    }
    var parsed: Option<nat> := None;
    for i := 0 to |lengths|
      invariant LengthValues(lengths, None) == LengthValues(lengths[i..], parsed)
    {
      assert lengths[i..][1..] == lengths[i + 1..];
      var parts := Split(lengths[i], ",");
      ghost var before := parsed;
      for j := 0 to |parts|
        invariant LengthParts(parts, before) == LengthParts(parts[j..], parsed)
      {
        assert parts[j..][1..] == parts[j + 1..];
        var next := LengthPart(parts[j], parsed);
        if next.Err? {
          return Err(next.error);
        }
        parsed := next.value;
      }
    }
    if parsed.None? {
      return Err(InvalidContentLength);
    }
    return Ok(ContentLength(parsed.value));
  }

  lemma ChunkedUnfold(buffer: bytes, offset: nat, body: bytes, maxBody: nat)
    requires offset <= |buffer|
    ensures var step := ChunkAt(buffer, offset, |body|, maxBody);
            ChunkedOf(buffer, offset, body, maxBody) ==
            match step
            case ChunkData(start, size) =>
              ChunkedOf(buffer, start + size + 2, body + buffer[start..start + size], maxBody)
            case LastChunk(consumed) => Complete(body, consumed)
            case NeedMore => Incomplete
            case Bad(e) => Failed(e)
  {
    hide ChunkAt;
  }

  method DecodeChunkedBody(buffer: bytes, maxBody: nat) returns (r: Parsed<bytes>)
    ensures r == ChunkedOf(buffer, 0, [], maxBody)
  {
    hide ChunkedOf, ChunkSizeOf, TrailerEnd, Find;
    var body: bytes := [];
    var offset := 0;
    while true
      invariant offset <= |buffer|
      invariant ChunkedOf(buffer, 0, [], maxBody) == ChunkedOf(buffer, offset, body, maxBody)
      decreases |buffer| - offset
    {
      ghost var step := ChunkAt(buffer, offset, |body|, maxBody);
      ChunkedUnfold(buffer, offset, body, maxBody);
      var line := Find(buffer[offset..], CRLF);
      if line.None? {
        assert step == NeedMore;
        return Incomplete;
      }
      var lineEnd := offset + line.value;
      var size := ChunkSizeOf(buffer[offset..lineEnd]);
      if size.None? {
        assert step == Bad(InvalidChunkSize);
        return Failed(InvalidChunkSize);
      }
      offset := lineEnd + 2;
      if size.value == 0 {
        var trailer := TrailerEnd(buffer[offset..]);
        if trailer.None? {
          assert step == NeedMore;
          return Incomplete;
        }
        assert step == LastChunk(offset + trailer.value + 2);
        return Complete(body, offset + trailer.value + 2);
      }
      if |body| + size.value > USIZE_MAX || |body| + size.value > maxBody {
        assert step == Bad(BodyTooLarge);
        return Failed(BodyTooLarge);
      }
      var dataEnd := offset + size.value;
      if dataEnd + 2 > USIZE_MAX {
        assert step == Bad(InvalidChunkSize);
        return Failed(InvalidChunkSize);
      }
      if |buffer| < dataEnd + 2 {
        assert step == NeedMore;
        return Incomplete;
      }
      if buffer[dataEnd..dataEnd + 2] != CRLF {
        assert step == Bad(InvalidChunkSize);
        return Failed(InvalidChunkSize);
      }
      assert step == ChunkData(offset, size.value);
      body := body + buffer[offset..dataEnd];
      offset := dataEnd + 2;
    }
  }

  method ParseRequestHead(buffer: bytes) returns (r: Parsed<RequestHead>)
    ensures r == HeadOf(buffer)
  {
    var found := Find(buffer, CRLF_CRLF);
    if found.None? {
      return if |buffer| > MAX_HEADER_SIZE then Failed(HeaderTooLarge) else Incomplete;
    }
    var headerEnd := found.value;
    if headerEnd > MAX_HEADER_SIZE {
      return Failed(HeaderTooLarge);
    }
    var text := buffer[..headerEnd];
    if !Utf8(text) {
      return Failed(InvalidUtf8);
    }
    var lines := Split(text, CRLF);
    var line := RequestLineOf(lines[0]);
    if line.Err? {
      return Failed(line.error);
    }
    var headers := ParseHeaderLines(lines[1..]);
    if headers.Err? {
      return Failed(headers.error);
    }
    var host := HostCheck(headers.value);
    if host.Err? {
      return Failed(host.error);
    }
    var framing := DetermineBodyFraming(headers.value);
    if framing.Err? {
      return Failed(framing.error);
    }
    var target := line.value.target;
    var (path, query) := SplitTarget(target);
    return Complete(RequestHead(line.value.verb, target, path, query, headers.value, framing.value), headerEnd + 4);
  }

  method ParseRequest(buffer: bytes, maxBody: nat) returns (r: Parsed<HttpRequest>)
    ensures r == RequestOf(buffer, maxBody)
  {
    hide HeadOf, ChunkedOf;
    var parsed := ParseRequestHead(buffer);
    if parsed.Incomplete? {
      return Incomplete;
    }
    if parsed.Failed? {
      return Failed(parsed.error);
    }
    var head, consumed := parsed.value, parsed.consumed;
    match head.framing
    case NoBody =>
      return Complete(RequestWith(head, []), consumed);
    case ContentLength(length) =>
      if length > maxBody {
        return Failed(BodyTooLarge);
      }
      var total := consumed + length;
      if total > USIZE_MAX {
        return Failed(InvalidContentLength);
      }
      if |buffer| < total {
        return Incomplete;
      }
      return Complete(RequestWith(head, buffer[consumed..total]), total);
    case Chunked =>
      var body := DecodeChunkedBody(buffer[consumed..], maxBody);
      if body.Incomplete? {
        return Incomplete;
      }
      if body.Failed? {
        return Failed(body.error);
      }
      return Complete(RequestWith(head, body.value), consumed + body.consumed);
  }
}
