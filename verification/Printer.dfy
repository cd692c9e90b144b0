/** Requests as a client writes them, and the proof that the parser reads them back. */
module Printer {
  import opened Bytes
  import opened Numbers
  import opened Parser
  import opened TextLines
  import opened ChunkCodec

  datatype Chunk = Chunk(data: bytes, ext: bytes)

  datatype Payload =
    | Empty
    | Sized(body: bytes)
    | Chunks(chunks: seq<Chunk>, lastExt: bytes, trailers: seq<bytes>)

  /** A request in its parts: nothing about it is left to be read out of text. */
  datatype Message = Message(verb: Method, path: bytes, query: Option<bytes>, headers: seq<Header>, payload: Payload)

  // ---------------------------------------------------------------- well-formed

  const GET_NAME: bytes := "GET"
  const POST_NAME: bytes := "POST"
  const DELETE_NAME: bytes := "DELETE"
  const MARK: bytes := "?"

  function VerbName(verb: Method): bytes {
    match verb
    case Get => GET_NAME
    case Post => POST_NAME
    case Delete => DELETE_NAME
    case Other(name) => name
  }

  /** Any other verb is a token that is none of the three names. */
  predicate IsVerb(verb: Method) {
    verb.Other? ==> verb.name != [] && IsToken(verb.name) && verb.name !in [GET_NAME, POST_NAME, DELETE_NAME]
  }

  /** The target a path and a query are written as. */
  function TargetOf(path: bytes, query: Option<bytes>): bytes {
    path + if query.Some? then MARK + query.value else []
  }

  predicate IsPath(path: bytes) { forall i :: 0 <= i < |path| ==> path[i] != '?' }

  predicate IsTarget(target: bytes) { target != [] && IsTargetText(target) }

  function Target(m: Message): bytes { TargetOf(m.path, m.query) }

  predicate IsField(h: Header) {
    && h.name != [] && IsToken(h.name)
    && IsFieldText(h.value) && Utf8(h.value) && TrimBlanks(h.value) == h.value
  }

  predicate IsFraming(h: Header) {
    EqIgnoreCase(h.name, CONTENT_LENGTH) || EqIgnoreCase(h.name, TRANSFER_ENCODING)
  }

  /** Well-formed fields, exactly one non-blank Host among them, framing left to the payload. */
  predicate AreFields(headers: seq<Header>) {
    && (forall i :: 0 <= i < |headers| ==> IsField(headers[i]) && !IsFraming(headers[i]))
    && |ValuesOf(headers, HOST)| == 1
    && Trim(ValuesOf(headers, HOST)[0]) != []
  }

  predicate IsPayload(p: Payload) {
    match p
    case Empty => true
    case Sized(body) => true
    case Chunks(chunks, lastExt, trailers) =>
      && (forall i :: 0 <= i < |chunks| ==> chunks[i].data != [] && IsExtension(chunks[i].ext))
      && IsExtension(lastExt)
      && AreLines(trailers)
  }

  predicate IsMessage(m: Message) {
    && IsVerb(m.verb) && IsPath(m.path) && IsTarget(Target(m)) && Utf8(Target(m))
    && AreFields(m.headers)
    && IsPayload(m.payload)
  }

  // ------------------------------------------------------------------- printing

  const ENCODING_FIELD: bytes := "Transfer-Encoding"

  function FramingFields(p: Payload): seq<Header> {
    match p
    case Empty => []
    case Sized(body) => [Header(LENGTH_FIELD, Dec(|body|))]
    case Chunks(_, _, _) => [Header(ENCODING_FIELD, CHUNKED)]
  }

  function RequestLineText(verb: Method, target: bytes): bytes {
    Join([VerbName(verb), target, HTTP_VERSION], " ")
  }

  function StartLine(m: Message): bytes {
    RequestLineText(m.verb, Target(m))
  }

  function HeadLines(m: Message): seq<bytes> {
    [StartLine(m)] + FieldLines(m.headers + FramingFields(m.payload))
  }

  function PrintHead(m: Message): bytes {
    Lines(HeadLines(m)) + CRLF
  }

  function Pieces(chunks: seq<Chunk>): seq<Piece> {
    if chunks == [] then []
    else [Piece(Hex(|chunks[0].data|) + chunks[0].ext, chunks[0].data)] + Pieces(chunks[1..])
  }

  function CodedOf(p: Payload): Coded
    requires p.Chunks?
  {
    Coded(Pieces(p.chunks), Hex(0) + p.lastExt, Lines(p.trailers) + CRLF)
  }

  function PrintPayload(p: Payload): bytes {
    match p
    case Empty => []
    case Sized(body) => body
    case Chunks(_, _, _) => Encoding(CodedOf(p))
  }

  function Print(m: Message): bytes {
    PrintHead(m) + PrintPayload(m.payload)
  }

  // ------------------------------------------------------- the request it means

  function Body(p: Payload): bytes {
    match p
    case Empty => []
    case Sized(body) => body
    case Chunks(chunks, _, _) => Data(Pieces(chunks))
  }

  function Lowered(headers: seq<Header>): seq<Header> {
    if headers == [] then []
    else [Header(Lower(headers[0].name), headers[0].value)] + Lowered(headers[1..])
  }

  function FramingMeant(p: Payload): BodyFraming {
    match p
    case Empty => NoBody
    case Sized(body) => ContentLength(|body|)
    case Chunks(_, _, _) => Chunked
  }

  function HeadMeant(m: Message): RequestHead {
    RequestHead(
      m.verb, Target(m), m.path, m.query,
      Lowered(m.headers + FramingFields(m.payload)), FramingMeant(m.payload))
  }

  function Meaning(m: Message): HttpRequest {
    RequestWith(HeadMeant(m), Body(m.payload))
  }

  // ------------------------------------------------------------ line by line

  /** Tokens contain neither separators nor line ends. */
  lemma TokenFacts(s: bytes)
    requires IsToken(s)
    ensures Ascii(s)
    ensures forall i :: 0 <= i < |s| ==> s[i] != ' ' && s[i] != '\t' && s[i] != ':' && s[i] != '\r'
  {
    forall i | 0 <= i < |s| ensures s[i] < '\U{80}' && s[i] != ' ' && s[i] != '\t' && s[i] != ':' && s[i] != '\r' {
      assert IsTokenByte(s[i]);
    }
  }

  lemma VerbRead(verb: Method)
    requires IsVerb(verb)
    ensures MethodOf(VerbName(verb)) == verb && VerbName(verb) != [] && IsToken(VerbName(verb))
  {}

  lemma VerbOf(name: bytes)
    requires name != [] && IsToken(name)
    ensures IsVerb(MethodOf(name)) && VerbName(MethodOf(name)) == name
  {}

  /** A target is split where its first question mark is. */
  lemma TargetIff(target: bytes, path: bytes, query: Option<bytes>)
    ensures SplitTarget(target) == (path, query) <==> target == TargetOf(path, query) && IsPath(path)
  {
    if target == TargetOf(path, query) && IsPath(path) {
      FindNone(path, MARK);
      if query.Some? {
        FindAfter(path, MARK, query.value);
        assert path + MARK + query.value == target;
        assert target[..|path|] == path && target[|path| + 1..] == query.value;
      } else {
        assert target == path;
      }
    }
    if SplitTarget(target) == (path, query) { SplitJoins(target); }
  }

  lemma SplitJoins(target: bytes)
    ensures var (path, query) := SplitTarget(target); target == TargetOf(path, query) && IsPath(path)
  {
    var mark := Find(target, MARK);
    if mark.Some? {
      var i := mark.value;
      assert target[i..i + 1] == MARK;
      assert target == target[..i] + MARK + target[i + 1..];
      forall j | 0 <= j < i ensures target[j] != '?' { MarkAt(target, j); }
    } else {
      forall j | 0 <= j < |target| ensures target[j] != '?' { MarkAt(target, j); }
    }
  }

  lemma MarkAt(target: bytes, j: nat)
    requires j < |target|
    ensures MatchesAt(target, MARK, j) <==> target[j] == '?'
  {
    assert target[j..j + 1] == [target[j]];
  }

  lemma LineRead(verb: Method, target: bytes)
    requires IsVerb(verb) && IsTarget(target)
    ensures RequestLineOf(RequestLineText(verb, target)) == Ok(RequestLine(verb, target))
  {
    hide Split, MethodOf, VerbName, IsVerb, Join;
    var name, version := VerbName(verb), HTTP_VERSION;
    var parts: seq<bytes> := [name, target, version];
    VerbRead(verb);
    TokenFacts(name);
    FindNone(name, " ");
    FindNone(target, " ");
    FindNone(version, " ");
    SplitOfJoin(parts, " ");
  }

  lemma StartLineRead(m: Message)
    requires IsMessage(m)
    ensures RequestLineOf(StartLine(m)) == Ok(RequestLine(m.verb, Target(m)))
    ensures IsLine(StartLine(m)) && Utf8(StartLine(m))
  {
    hide Utf8, AreFields, IsPayload, RequestLineOf, RequestLineText, IsVerb, IsTarget;
    LineRead(m.verb, Target(m));
    StartLineText(m);
    FindNone(StartLine(m), CRLF);
  }

  lemma StartLineText(m: Message)
    requires IsMessage(m)
    ensures StartLine(m) != [] && Utf8(StartLine(m))
    ensures forall i :: 0 <= i < |StartLine(m)| ==> StartLine(m)[i] != '\r'
  {
    hide Utf8, AreFields, IsPayload, VerbName, IsVerb, IsTargetText, Target, Join, IsToken;
    var name, target, version := VerbName(m.verb), Target(m), HTTP_VERSION;
    LineParts(m.verb, target);
    VerbRead(m.verb);
    TokenFacts(name);
    TargetFacts(target);
    AsciiIsUtf8(name);
    AsciiIsUtf8(" ");
    AsciiIsUtf8(version);
    Utf8Append(" ", version);
    Utf8Append(target, " " + version);
    Utf8Append(" ", target + (" " + version));
    Utf8Append(name, " " + (target + (" " + version)));
    assert forall i :: 0 <= i < |version| ==> version[i] != '\r';
  }

  lemma LineParts(verb: Method, target: bytes)
    ensures RequestLineText(verb, target) == VerbName(verb) + (" " + (target + (" " + HTTP_VERSION)))
  {
    hide VerbName;
    var name, version := VerbName(verb), HTTP_VERSION;
    assert Join([name, target, version], " ") == name + " " + Join([target, version], " ");
    assert Join([target, version], " ") == target + " " + Join([version], " ");
  }

  lemma TargetFacts(target: bytes)
    requires IsTargetText(target)
    ensures forall i :: 0 <= i < |target| ==> target[i] != '\r'
  {}

  lemma FieldLineRead(h: Header)
    requires IsField(h)
    ensures HeaderOf(FieldLine(h)) == Ok(Header(Lower(h.name), h.value))
    ensures IsLine(FieldLine(h)) && Utf8(FieldLine(h))
  {
    hide Utf8, TrimBlanks, Lower, Find;
    var line := FieldLine(h);
    TokenFacts(h.name);
    FindNone(h.name, ":");
    FindAfter(h.name, ":", " " + h.value);
    assert line[..|h.name|] == h.name;
    assert line[|h.name| + 1..] == " " + h.value;
    TrimOneBlank(h.value);
    FieldLineText(h);
  }

  lemma TrimOneBlank(s: bytes)
    ensures TrimBlanks(" " + s) == TrimBlanks(s)
  {
    assert (" " + s)[1..] == s;
  }

  lemma FieldLineText(h: Header)
    requires IsField(h)
    ensures IsLine(FieldLine(h)) && Utf8(FieldLine(h))
  {
    hide Utf8, TrimBlanks;
    var line := FieldLine(h);
    TokenFacts(h.name);
    FindNone(line, CRLF);
    assert line == h.name + (":" + (" " + h.value));
    AsciiIsUtf8(h.name);
    AsciiIsUtf8(":");
    AsciiIsUtf8(" ");
    Utf8Append(" ", h.value);
    Utf8Append(":", " " + h.value);
    Utf8Append(h.name, ":" + (" " + h.value));
  }

  lemma {:induction false} FieldLinesRead(headers: seq<Header>)
    requires forall i :: 0 <= i < |headers| ==> IsField(headers[i])
    ensures HeadersOf(FieldLines(headers)) == Ok(Lowered(headers))
    ensures AreLines(FieldLines(headers))
    ensures forall i :: 0 <= i < |FieldLines(headers)| ==> Utf8(FieldLines(headers)[i])
  {
    hide Utf8, FieldLine, HeaderOf, IsField, Lower;
    if headers != [] {
      FieldLineRead(headers[0]);
      FieldLinesRead(headers[1..]);
      assert FieldLines(headers)[1..] == FieldLines(headers[1..]);
    }
  }

  lemma {:induction false} LinesUtf8(ls: seq<bytes>)
    requires ls != [] && forall i :: 0 <= i < |ls| ==> Utf8(ls[i])
    ensures Utf8(Join(ls, CRLF))
  {
    hide Utf8;
    if |ls| > 1 {
      LinesUtf8(ls[1..]);
      AsciiIsUtf8(CRLF);
      Utf8Append(ls[0], CRLF);
      Utf8Append(ls[0] + CRLF, Join(ls[1..], CRLF));
    }
  }

  // ---------------------------------------------------------------- header list

  lemma {:induction false} ValuesOfLowered(headers: seq<Header>, name: bytes)
    ensures ValuesOf(Lowered(headers), name) == ValuesOf(headers, name)
  {
    if headers != [] {
      LowerIdempotent(headers[0].name);
      ValuesOfLowered(headers[1..], name);
      assert Lowered(headers)[1..] == Lowered(headers[1..]);
    }
  }

  lemma {:induction false} ValuesOfNone(headers: seq<Header>, name: bytes)
    requires forall i :: 0 <= i < |headers| ==> !EqIgnoreCase(headers[i].name, name)
    ensures ValuesOf(headers, name) == []
  {
    hide EqIgnoreCase;
    if headers != [] { ValuesOfNone(headers[1..], name); }
  }

  function LengthsMeant(p: Payload): seq<bytes> {
    if p.Sized? then [Dec(|p.body|)] else []
  }

  function EncodingsMeant(p: Payload): seq<bytes> {
    if p.Chunks? then [CHUNKED] else []
  }

  lemma FramingValues(m: Message)
    requires AreFields(m.headers)
    ensures var hs := Lowered(m.headers + FramingFields(m.payload));
            && ValuesOf(hs, HOST) == ValuesOf(m.headers, HOST)
            && ValuesOf(hs, CONTENT_LENGTH) == LengthsMeant(m.payload)
            && ValuesOf(hs, TRANSFER_ENCODING) == EncodingsMeant(m.payload)
  {
    hide ValuesOf, Dec, Lowered, FramingFields;
    ValuesOfExtra(m.payload);
    ValuesOfFields(m, HOST);
    ValuesOfFields(m, CONTENT_LENGTH);
    ValuesOfFields(m, TRANSFER_ENCODING);
    ValuesOfNone(m.headers, CONTENT_LENGTH);
    ValuesOfNone(m.headers, TRANSFER_ENCODING);
  }

  lemma ValuesOfFields(m: Message, name: bytes)
    ensures var extra := FramingFields(m.payload);
            ValuesOf(Lowered(m.headers + extra), name) == ValuesOf(m.headers, name) + ValuesOf(extra, name)
  {
    hide ValuesOf, Lowered, FramingFields;
    ValuesOfLowered(m.headers + FramingFields(m.payload), name);
    ValuesOfAppend(m.headers, FramingFields(m.payload), name);
  }

  lemma ValuesOfExtra(p: Payload)
    ensures ValuesOf(FramingFields(p), HOST) == []
    ensures ValuesOf(FramingFields(p), CONTENT_LENGTH) == LengthsMeant(p)
    ensures ValuesOf(FramingFields(p), TRANSFER_ENCODING) == EncodingsMeant(p)
  {
    hide Dec, Lower;
    LoweredNames();
  }

  lemma LoweredNames()
    ensures Lower(HOST) == HOST
    ensures Lower(LENGTH_FIELD) == CONTENT_LENGTH == Lower(CONTENT_LENGTH)
    ensures Lower(ENCODING_FIELD) == TRANSFER_ENCODING == Lower(TRANSFER_ENCODING)
  {
    assert Lower(LENGTH_FIELD) == CONTENT_LENGTH == Lower(CONTENT_LENGTH);
    assert Lower(ENCODING_FIELD) == TRANSFER_ENCODING == Lower(TRANSFER_ENCODING);
    assert Lower(HOST) == HOST;
  }

  lemma LengthRead(n: nat)
    requires n <= USIZE_MAX
    ensures LengthValues([Dec(n)], None) == Ok(Some(n))
  {
    var digits := Dec(n);
    assert forall i :: 0 <= i < |digits| ==> IsDigit(digits[i]);
    FindNone(digits, ",");
    assert Split(digits, ",") == [digits];
    assert IsDigit(digits[0]) && IsDigit(digits[|digits| - 1]);
    TrimPrintable(digits);
    ReadOfPrint(n, 10);
    assert LengthPart(digits, None) == Ok(Some(n));
    assert [digits][1..] == [];
    assert LengthParts([digits], None) == LengthParts([], Some(n)) == Ok(Some(n));
    assert LengthValues([digits][1..], Some(n)) == Ok(Some(n));
  }

  lemma ChunkedRead()
    ensures ListItems(Split(Join([CHUNKED], ","), ",")) == [CHUNKED]
  {
    var s := CHUNKED;
    FindNone(s, ",");
    assert Split(s, ",") == [s];
    TrimPrintable(s);
    ChunkedLower();
    hide Lower, Trim, Split;
    assert ListItems([s]) == [s] + ListItems([s][1..]);
  }

  lemma ChunkedLower()
    ensures Lower(CHUNKED) == CHUNKED
  {
    assert |CHUNKED| == 7;
    assert forall i :: 0 <= i < 7 ==> 'a' <= CHUNKED[i] <= 'z';
  }

  lemma FramingRead(m: Message)
    requires AreFields(m.headers) && |Body(m.payload)| <= USIZE_MAX
    ensures var hs := Lowered(m.headers + FramingFields(m.payload));
            HostCheck(hs) == Ok(()) && FramingOf(hs) == Ok(FramingMeant(m.payload))
  {
    hide ValuesOf, LengthValues, ListItems, Split, Join, Trim;
    FramingValues(m);
    ChunkedRead();
    if m.payload.Sized? { LengthRead(|m.payload.body|); }
  }

  // ------------------------------------------------------------------ the head

  lemma HeadTextRead(m: Message)
    requires IsMessage(m) && |Body(m.payload)| <= USIZE_MAX
    ensures HeadOfText(Join(HeadLines(m), CRLF)) == Ok(HeadMeant(m))
    ensures AreLines(HeadLines(m))
  {
    hide Utf8, RequestLineOf, HeadersOf, HostCheck, FramingOf, SplitTarget, StartLine, Lowered, AreFields, Split, Find, IsVerb,
      IsTarget, TargetOf;
    TargetIff(Target(m), m.path, m.query);
    var lines := HeadLines(m);
    var hs := m.headers + FramingFields(m.payload);
    StartLineRead(m);
    FieldsAreFields(m);
    FieldLinesRead(hs);
    assert lines[1..] == FieldLines(hs);
    SplitOfJoin(lines, CRLF);
    LinesUtf8(lines);
    FramingRead(m);
  }

  lemma FieldsAreFields(m: Message)
    requires AreFields(m.headers)
    ensures var hs := m.headers + FramingFields(m.payload);
            forall i :: 0 <= i < |hs| ==> IsField(hs[i])
  {
    forall h | h in FramingFields(m.payload) ensures IsField(h) {
      FramingFieldIsField(h, m.payload);
    }
  }

  lemma FramingFieldIsField(h: Header, p: Payload)
    requires h in FramingFields(p)
    ensures IsField(h)
  {
    hide Utf8, Dec, TrimBlanks, IsToken, IsFieldText;
    FramingNames();
    match p
    case Empty =>
    case Sized(body) => LengthText(|body|);
    case Chunks(_, _, _) => ChunkedText();
  }

  lemma FramingNames()
    ensures IsToken(LENGTH_FIELD) && IsToken(ENCODING_FIELD)
  {}

  lemma ChunkedText()
    ensures IsFieldText(CHUNKED) && Utf8(CHUNKED) && TrimBlanks(CHUNKED) == CHUNKED
  {
    hide Utf8, TrimBlanks;
    AsciiIsUtf8(CHUNKED);
    NoBlankEnds(CHUNKED);
  }

  lemma LengthText(n: nat)
    ensures IsFieldText(Dec(n)) && Utf8(Dec(n)) && TrimBlanks(Dec(n)) == Dec(n)
  {
    hide Utf8, TrimBlanks;
    var digits := Dec(n);
    assert forall i :: 0 <= i < |digits| ==> IsDigit(digits[i]);
    AsciiIsUtf8(digits);
    NoBlankEnds(digits);
  }

  lemma NoBlankEnds(s: bytes)
    requires s != [] && !IsBlank(s[0]) && !IsBlank(s[|s| - 1])
    ensures TrimBlanks(s) == s
  {}

  /** The parser finds the end of a printed head and reads the head that was meant;
      it refuses it only for its size. */
  lemma HeadRead(m: Message, rest: bytes)
    requires IsMessage(m) && |Body(m.payload)| <= USIZE_MAX
    ensures HeadOf(PrintHead(m) + rest) ==
            if |PrintHead(m)| - 4 > MAX_HEADER_SIZE then Failed(HeaderTooLarge)
            else Complete(HeadMeant(m), |PrintHead(m)|)
  {
    hide HeadOfText, HeadMeant, HeadLines, Find, IsMessage, Body;
    var lines := HeadLines(m);
    HeadTextRead(m);
    assert lines != [] by { HeadLinesNonEmpty(m); }
    BlockEnd(lines, rest);
    LinesAreJoined(lines);
    var b := PrintHead(m) + rest;
    assert b == Lines(lines) + CRLF + rest;
    assert b[..|Lines(lines)| - 2] == Join(lines, CRLF);
  }

  lemma HeadLinesNonEmpty(m: Message)
    ensures HeadLines(m) != []
  {}

  // ------------------------------------------------------------------- the body

  lemma {:induction false} PiecesAreCoded(chunks: seq<Chunk>)
    requires forall i :: 0 <= i < |chunks| ==> chunks[i].data != [] && IsExtension(chunks[i].ext)
    requires |Data(Pieces(chunks))| <= USIZE_MAX
    ensures ArePieces(Pieces(chunks))
  {
    hide IsExtension, IsSizeLine;
    if chunks != [] {
      var p, rest := Pieces(chunks)[0], Pieces(chunks[1..]);
      assert Pieces(chunks)[1..] == rest;
      PiecesAreCoded(chunks[1..]);
      PrintedSizeLine(|chunks[0].data|, chunks[0].ext);
    }
  }

  lemma PayloadIsCoded(p: Payload)
    requires p.Chunks? && IsPayload(p) && |Body(p)| <= USIZE_MAX
    ensures IsCoded(CodedOf(p))
  {
    hide IsExtension, IsSizeLine, IsTrailer;
    PiecesAreCoded(p.chunks);
    PrintedSizeLine(0, p.lastExt);
    PrintedTrailer(p.trailers);
  }

  lemma BodyRead(m: Message, rest: bytes, maxBody: nat)
    requires IsMessage(m) && maxBody <= USIZE_MAX && |Print(m) + rest| <= USIZE_MAX
    requires |Body(m.payload)| <= USIZE_MAX
    ensures BodyOf(Print(m) + rest, HeadMeant(m), |PrintHead(m)|, maxBody) ==
            if |Body(m.payload)| > maxBody then Failed(BodyTooLarge)
            else Complete(Meaning(m), |Print(m)|)
  {
    hide PrintHead, ChunkedOf, Encoding, IsCoded, Pieces, CodedOf, AreFields;
    var b, end := Print(m) + rest, |PrintHead(m)|;
    match m.payload
    case Empty =>
    case Sized(body) =>
      assert b[end..end + |body|] == body;
    case Chunks(_, _, _) =>
      assert b[end..] == PrintPayload(m.payload) + rest;
      ChunksRead(m.payload, rest, maxBody);
  }

  lemma ChunksRead(p: Payload, rest: bytes, maxBody: nat)
    requires p.Chunks? && IsPayload(p) && maxBody <= USIZE_MAX && |PrintPayload(p) + rest| <= USIZE_MAX
    ensures ChunkedOf(PrintPayload(p) + rest, 0, [], maxBody) ==
            if |Body(p)| > maxBody then Failed(BodyTooLarge) else Complete(Body(p), |PrintPayload(p)|)
  {
    hide ChunkedOf, Encoding, IsCoded, Pieces, CodedOf;
    BodyIsPrinted(p);
    PayloadIsCoded(p);
    DecodeEncoding(CodedOf(p), rest, maxBody);
    CodedPieces(p);
  }

  lemma CodedPieces(p: Payload)
    requires p.Chunks?
    ensures CodedOf(p).pieces == Pieces(p.chunks)
  {}

  lemma BodyIsPrinted(p: Payload)
    ensures |Body(p)| <= |PrintPayload(p)|
  {
    if p.Chunks? { WireIsLonger(Pieces(p.chunks)); }
  }

  /** Parsing a printed request followed by anything gives back the request and
      its exact length; the only refusals are the two size limits. */
  lemma ParseOfPrint(m: Message, rest: bytes, maxBody: nat)
    requires IsMessage(m) && maxBody <= USIZE_MAX && |Print(m) + rest| <= USIZE_MAX
    ensures RequestOf(Print(m) + rest, maxBody) ==
            if |PrintHead(m)| - 4 > MAX_HEADER_SIZE then Failed(HeaderTooLarge)
            else if |Body(m.payload)| > maxBody then Failed(BodyTooLarge)
            else Complete(Meaning(m), |Print(m)|)
  {
    hide HeadOf, BodyOf, IsMessage, HeadMeant, PrintHead, PrintPayload, Body;
    BodyIsPrinted(m.payload);
    assert Print(m) + rest == PrintHead(m) + (PrintPayload(m.payload) + rest);
    HeadRead(m, PrintPayload(m.payload) + rest);
    BodyRead(m, rest, maxBody);
  }
}
