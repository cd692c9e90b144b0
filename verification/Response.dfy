/** Response serialisation (`HttpResponse::to_bytes`, src/http/response.rs) and
    the proof that its output delimits itself (section 3.3.3 of RFC 7230). */
module Response {
  import opened Bytes
  import opened Numbers
  import opened Parser
  import opened TextLines
  import opened ChunkCodec
  import HttpDate

  datatype StatusCode =
    | StatusOk | Created | NoContent
    | MovedPermanently | Found | SeeOther | TemporaryRedirect | PermanentRedirect
    | BadRequest | RequestTimeout | Forbidden | NotFound | MethodNotAllowed | PayloadTooLarge
    | InternalServerError
  {
    function Code(): (c: nat)
      ensures 200 <= c <= 500
    {
      match this
      case StatusOk => 200
      case Created => 201
      case NoContent => 204
      case MovedPermanently => 301
      case Found => 302
      case SeeOther => 303
      case TemporaryRedirect => 307
      case PermanentRedirect => 308
      case BadRequest => 400
      case RequestTimeout => 408
      case Forbidden => 403
      case NotFound => 404
      case MethodNotAllowed => 405
      case PayloadTooLarge => 413
      case InternalServerError => 500
    }

    function Reason(): bytes {
      match this
      case StatusOk => "OK"
      case Created => "Created"
      case NoContent => "No Content"
      case MovedPermanently => "Moved Permanently"
      case Found => "Found"
      case SeeOther => "See Other"
      case TemporaryRedirect => "Temporary Redirect"
      case PermanentRedirect => "Permanent Redirect"
      case BadRequest => "Bad Request"
      case RequestTimeout => "Request Timeout"
      case Forbidden => "Forbidden"
      case NotFound => "Not Found"
      case MethodNotAllowed => "Method Not Allowed"
      case PayloadTooLarge => "Payload Too Large"
      case InternalServerError => "Internal Server Error"
    }
  }

  datatype HttpResponse = HttpResponse(status: StatusCode, headers: seq<Header>, body: bytes)

  // ------------------------------------------------------------------ writing

  const VERSION_AND_SPACE: bytes := "HTTP/1.1 "
  const SERVER: bytes := "server"
  const DATE: bytes := "date"
  const SERVER_FIELD: bytes := "Server"
  const SERVER_TEXT: bytes := "localhost-rust"
  const DATE_FIELD: bytes := "Date"

  function StatusLine(status: StatusCode): bytes {
    VERSION_AND_SPACE + Dec(status.Code()) + (" " + status.Reason())
  }

  predicate Has(headers: seq<Header>, name: bytes) {
    exists i :: 0 <= i < |headers| && EqIgnoreCase(headers[i].name, name)
  }

  function LengthHeader(r: HttpResponse): Header { Header(LENGTH_FIELD, Dec(|r.body|)) }

  function ServerHeader(): Header { Header(SERVER_FIELD, SERVER_TEXT) }

  function DateHeader(now: nat): Header { Header(DATE_FIELD, HttpDate.Write(now)) }

  function Unless(supplied: bool, h: Header): seq<Header> { if supplied then [] else [h] }

  /** The headers `to_bytes` adds when the caller did not supply them. */
  function AddedHeaders(r: HttpResponse, now: nat): seq<Header> {
    Unless(Has(r.headers, CONTENT_LENGTH), LengthHeader(r))
    + Unless(Has(r.headers, SERVER), ServerHeader())
    + Unless(Has(r.headers, DATE), DateHeader(now))
  }

  function AllHeaders(r: HttpResponse, now: nat): seq<Header> {
    r.headers + AddedHeaders(r, now)
  }

  /** What `to_bytes` produces at second `now`. */
  function Serialized(r: HttpResponse, now: nat): bytes {
    Written(r.status, AllHeaders(r, now)) + CRLF + r.body
  }

  /** An empty response would never be written out; none is produced. */
  lemma NeverEmpty(r: HttpResponse, now: nat)
    ensures |Serialized(r, now)| >= 4
  {}

  method ToBytes(r: HttpResponse, now: nat) returns (response: bytes)
    ensures response == Serialized(r, now)
  {
    hide StatusLine, FieldLine, Has, LengthHeader, ServerHeader, DateHeader;
    response := StatusLine(r.status) + CRLF;
    NoFields(r.status);
    assert r.headers[..0] == [];
    for i := 0 to |r.headers|
      invariant response == Written(r.status, r.headers[..i])
    {
      AddLine(r.status, r.headers[..i], r.headers[i]);
      assert r.headers[..i + 1] == r.headers[..i] + [r.headers[i]];
      response := response + FieldLine(r.headers[i]) + CRLF;
    }
    ghost var written := r.headers;
    assert r.headers[..|r.headers|] == r.headers;
    if !Has(r.headers, CONTENT_LENGTH) {
      AddLine(r.status, written, LengthHeader(r));
      written := written + [LengthHeader(r)];
      response := response + FieldLine(LengthHeader(r)) + CRLF;
    }
    if !Has(r.headers, SERVER) {
      AddLine(r.status, written, ServerHeader());
      written := written + [ServerHeader()];
      response := response + FieldLine(ServerHeader()) + CRLF;
    }
    if !Has(r.headers, DATE) {
      AddLine(r.status, written, DateHeader(now));
      written := written + [DateHeader(now)];
      response := response + FieldLine(DateHeader(now)) + CRLF;
    }
    assert written == AllHeaders(r, now);
    response := response + CRLF + r.body;
  }

  /** The status line and these headers. */
  function Written(status: StatusCode, headers: seq<Header>): bytes {
    Lines([StatusLine(status)] + FieldLines(headers))
  }

  lemma AddLine(status: StatusCode, headers: seq<Header>, h: Header)
    ensures Written(status, headers + [h]) == Written(status, headers) + FieldLine(h) + CRLF
  {
    hide StatusLine, FieldLine, Lines;
    AddField(headers, h);
    var lines := [StatusLine(status)] + FieldLines(headers);
    LinesAppend(lines, FieldLine(h));
    assert lines + [FieldLine(h)] == [StatusLine(status)] + FieldLines(headers + [h]);
  }

  lemma NoFields(status: StatusCode)
    ensures Written(status, []) == StatusLine(status) + CRLF
  {
    hide StatusLine;
    var first := StatusLine(status);
    assert [first] + FieldLines([]) == [first];
    assert Lines([first][1..]) == [];
  }

  lemma {:induction false} AddField(headers: seq<Header>, h: Header)
    ensures FieldLines(headers + [h]) == FieldLines(headers) + [FieldLine(h)]
  {
    hide FieldLine;
    if headers == [] {
      assert headers + [h] == [h];
    } else {
      AddField(headers[1..], h);
      assert (headers + [h])[1..] == headers[1..] + [h];
    }
  }

  // ------------------------------------------------------------------ reading

  /** A response as its reader sees it, and the number of bytes it took. */
  datatype Received = Received(code: nat, headers: seq<Header>, body: bytes, length: nat)

  function ReadField(line: bytes): Option<Header> {
    match Find(line, ":")
    case Some(i) =>
      if i + 1 < |line| && line[i + 1] == ' ' then Some(Header(line[..i], line[i + 2..])) else None
    case None => None
  }

  function ReadFields(lines: seq<bytes>): Option<seq<Header>> {
    if lines == [] then Some([])
    else
      var h, rest := ReadField(lines[0]), ReadFields(lines[1..]);
      if h.Some? && rest.Some? then Some([h.value] + rest.value) else None
  }

  function ReadStatus(line: bytes): Option<nat> {
    if |line| < 13 || line[..9] != VERSION_AND_SPACE || line[12] != ' ' then None else Value(line[9..12], 10)
  }

  /** Reads one response off the front of a stream; `toHead` says whether it answers a HEAD request. */
  function Read(s: bytes, toHead: bool): Option<Received> {
    match Find(s, CRLF_CRLF)
    case None => None
    case Some(end) =>
      var lines := Split(s[..end], CRLF);
      var code, headers := ReadStatus(lines[0]), ReadFields(lines[1..]);
      if code.None? || headers.None? then None else Delimit(s, end + 4, code.value, headers.value, toHead)
  }

  /** Responses that end with their head, whatever it says. */
  predicate IsBodyless(code: nat, toHead: bool) {
    toHead || 100 <= code < 200 || code == 204 || code == 304
  }

  predicate EndsChunked(codings: seq<bytes>) {
    var items := ListItems(Split(Join(codings, ","), ","));
    items != [] && items[|items| - 1] == CHUNKED
  }

  /** The message body by section 3.3.3 of RFC 7230: none for some responses; else by the transfer
      coding, chunk by chunk or up to the end of the stream; else by the announced length, which
      must be one and the same wherever it is announced; else up to the end of the stream. */
  function Delimit(s: bytes, start: nat, code: nat, headers: seq<Header>, toHead: bool): Option<Received>
    requires start <= |s|
  {
    var codings, lengths := ValuesOf(headers, TRANSFER_ENCODING), ValuesOf(headers, CONTENT_LENGTH);
    if IsBodyless(code, toHead) then
      Some(Received(code, headers, [], start))
    else if EndsChunked(codings) then
      match ChunkedOf(s[start..], 0, [], USIZE_MAX)
      case Complete(data, n) => Some(Received(code, headers, data, start + n))
      case _ => None
    else if codings != [] || lengths == [] then
      Some(Received(code, headers, s[start..], |s|))
    else
      match LengthValues(lengths, None)
      case Ok(Some(n)) =>
        if |s| < start + n then None else Some(Received(code, headers, s[start..start + n], start + n))
      case _ => None
  }

  // ------------------------------------------------------------ self-delimiting

  predicate NoReturn(s: bytes) { forall i :: 0 <= i < |s| ==> s[i] != '\r' }

  predicate NoColon(s: bytes) { forall i :: 0 <= i < |s| ==> s[i] != ':' }

  /** Header texts that stay on their line and names that end at the colon. */
  predicate IsClean(h: Header) {
    NoReturn(h.name) && NoReturn(h.value) && NoColon(h.name)
  }

  predicate IsWritable(r: HttpResponse) {
    && (forall i :: 0 <= i < |r.headers| ==> IsClean(r.headers[i]))
    && |r.body| <= USIZE_MAX
  }

  predicate Announces(part: bytes, n: nat) {
    Trim(part) != [] && AllDigits(Trim(part)) && FromStrRadix(Trim(part), 10) == Some(n)
  }

  predicate AllAnnounce(parts: seq<bytes>, n: nat) {
    forall i :: 0 <= i < |parts| ==> Announces(parts[i], n)
  }

  /** Every part of every value is the number `n`. */
  predicate AreLengths(values: seq<bytes>, n: nat) {
    forall i :: 0 <= i < |values| ==> AllAnnounce(Split(values[i], ","), n)
  }

  /** A response that must not have a body has none; any other has no transfer coding, and
      all the lengths the caller supplied, if any, tell the truth. */
  predicate IsFramed(r: HttpResponse, toHead: bool) {
    if IsBodyless(r.status.Code(), toHead) then r.body == []
    else ValuesOf(r.headers, TRANSFER_ENCODING) == [] && AreLengths(ValuesOf(r.headers, CONTENT_LENGTH), |r.body|)
  }

  lemma FieldRead(h: Header)
    requires IsClean(h)
    ensures ReadField(FieldLine(h)) == Some(h) && IsLine(FieldLine(h))
  {
    hide Find;
    var line := FieldLine(h);
    FindNone(h.name, ":");
    FindAfter(h.name, ":", " " + h.value);
    assert line == h.name + ":" + (" " + h.value);
    assert line[..|h.name|] == h.name;
    assert line[|h.name| + 2..] == h.value;
    FindNone(line, CRLF);
  }

  lemma {:induction false} FieldsRead(headers: seq<Header>)
    requires forall i :: 0 <= i < |headers| ==> IsClean(headers[i])
    ensures ReadFields(FieldLines(headers)) == Some(headers)
    ensures AreLines(FieldLines(headers))
  {
    hide IsClean, ReadField, FieldLine, IsLine;
    if headers != [] {
      FieldRead(headers[0]);
      FieldsRead(headers[1..]);
      assert FieldLines(headers)[1..] == FieldLines(headers[1..]);
      assert [headers[0]] + headers[1..] == headers;
    }
  }

  lemma ThreeDigits(n: nat)
    requires 100 <= n <= 999
    ensures |Dec(n)| == 3 && Value(Dec(n), 10) == Some(n) && NoReturn(Dec(n))
  {
    ValueOfPrint(n, 10);
    assert Print(n, 10) == Print(n / 10, 10) + [DigitByte(n % 10)];
    assert Print(n / 10, 10) == Print(n / 10 / 10, 10) + [DigitByte(n / 10 % 10)];
    assert n / 10 / 10 < 10;
    forall i | 0 <= i < |Dec(n)| ensures Dec(n)[i] != '\r' { assert IsDigit(Dec(n)[i]); }
  }

  lemma SuccessIsClean(status: StatusCode)
    requires status.Code() < 300
    ensures NoReturn(status.Reason())
  {}

  lemma RedirectIsClean(status: StatusCode)
    requires 300 <= status.Code() < 400
    ensures NoReturn(status.Reason())
  {}

  lemma ClientErrorIsClean(status: StatusCode)
    requires 400 <= status.Code() < 405
    ensures NoReturn(status.Reason())
  {}

  lemma OtherErrorIsClean(status: StatusCode)
    requires 405 <= status.Code() < 413
    ensures NoReturn(status.Reason())
  {}

  lemma LastErrorIsClean(status: StatusCode)
    requires 413 <= status.Code()
    ensures NoReturn(status.Reason())
  {}

  lemma ReasonIsClean(status: StatusCode)
    ensures NoReturn(status.Reason())
  {
    hide StatusCode.Code, StatusCode.Reason;
    if status.Code() < 300 { SuccessIsClean(status); }
    else if status.Code() < 400 { RedirectIsClean(status); }
    else if status.Code() < 405 { ClientErrorIsClean(status); }
    else if status.Code() < 413 { OtherErrorIsClean(status); }
    else { LastErrorIsClean(status); }
  }

  lemma StatusRead(status: StatusCode)
    ensures ReadStatus(StatusLine(status)) == Some(status.Code())
    ensures IsLine(StatusLine(status))
  {
    hide Dec, Value, StatusCode.Reason, StatusCode.Code;
    ThreeDigits(status.Code());
    ReasonIsClean(status);
    var code, reason := Dec(status.Code()), status.Reason();
    var line := StatusLine(status);
    assert line[..9] == VERSION_AND_SPACE;
    assert line[9..12] == code;
    assert forall i :: 0 <= i < 9 ==> line[i] != '\r';
    FindNone(line, CRLF);
  }

  lemma DateIsClean(now: nat)
    ensures NoReturn(HttpDate.Write(now))
  {
    DayIsClean(now / HttpDate.SECONDS_PER_DAY);
    TimeIsClean(now % HttpDate.SECONDS_PER_DAY);
  }

  lemma PadIsClean(n: nat, width: nat)
    ensures NoReturn(Pad(n, width))
  {
    var s := Dec(n);
    forall i | 0 <= i < |Pad(n, width)| ensures Pad(n, width)[i] != '\r' {
      var k := |Zeros(width - |s|)|;
      if i >= k { assert IsDigit(s[i - k]); }
    }
  }

  lemma DayIsClean(days: nat)
    ensures NoReturn(HttpDate.DayText(days))
  {
    hide Pad, HttpDate.DateOf, HttpDate.WeekdayName, HttpDate.MonthName;
    var d := HttpDate.DateOf(days);
    PadIsClean(d.day, 2);
    PadIsClean(d.year, 4);
    NamesAreClean(days, d.month);
  }

  lemma NamesAreClean(days: nat, month: int)
    requires 1 <= month <= 12
    ensures NoReturn(HttpDate.WeekdayName(days)) && NoReturn(HttpDate.MonthName(month))
  {}

  lemma TimeIsClean(inDay: nat)
    ensures NoReturn(HttpDate.TimeText(inDay))
  {
    hide Pad;
    PadIsClean(inDay / 3600, 2);
    PadIsClean(inDay % 3600 / 60, 2);
    PadIsClean(inDay % 60, 2);
  }

  lemma AddedAreClean(r: HttpResponse, now: nat)
    ensures forall i :: 0 <= i < |AddedHeaders(r, now)| ==> IsClean(AddedHeaders(r, now)[i])
  {
    hide Has, LengthHeader, ServerHeader, DateHeader, IsClean;
    AddedIsClean(r, now);
  }

  lemma AddedIsClean(r: HttpResponse, now: nat)
    ensures IsClean(LengthHeader(r)) && IsClean(ServerHeader()) && IsClean(DateHeader(now))
  {
    hide HttpDate.Write;
    DateIsClean(now);
    PadIsClean(|r.body|, 0);
    assert Pad(|r.body|, 0) == Dec(|r.body|);
  }

  lemma {:induction false} HasIffValues(headers: seq<Header>, name: bytes)
    ensures Has(headers, name) <==> ValuesOf(headers, name) != []
  {
    hide EqIgnoreCase;
    if headers != [] {
      HasIffValues(headers[1..], name);
      if Has(headers[1..], name) {
        var i :| 0 <= i < |headers[1..]| && EqIgnoreCase(headers[1..][i].name, name);
        assert EqIgnoreCase(headers[i + 1].name, name);
      }
      if Has(headers, name) && !EqIgnoreCase(headers[0].name, name) {
        var i :| 0 <= i < |headers| && EqIgnoreCase(headers[i].name, name);
        assert headers[1..][i - 1] == headers[i];
      }
    }
  }

  // What the lengths say.

  lemma {:induction false} PartsIff(parts: seq<bytes>, before: Option<nat>, n: nat)
    ensures LengthParts(parts, before) == Ok(Some(n)) <==>
              AllAnnounce(parts, n) && (if parts == [] then before == Some(n) else before.None? || before == Some(n))
    decreases |parts|
  {
    hide Trim, AllDigits, FromStrRadix;
    if parts != [] {
      var next := LengthPart(parts[0], before);
      if next.Ok? { PartsIff(parts[1..], next.value, n); }
      FirstPart(parts, n);
      hide AllAnnounce;
    }
  }

  lemma FirstPart(parts: seq<bytes>, n: nat)
    requires parts != []
    ensures AllAnnounce(parts, n) <==> Announces(parts[0], n) && AllAnnounce(parts[1..], n)
  {
    hide Announces;
    if Announces(parts[0], n) && AllAnnounce(parts[1..], n) {
      forall i | 0 <= i < |parts| ensures Announces(parts[i], n) {
        assert i > 0 ==> parts[1..][i - 1] == parts[i];
      }
    }
  }

  lemma FirstLength(values: seq<bytes>, n: nat)
    requires values != []
    ensures AreLengths(values, n) <==> AllAnnounce(Split(values[0], ","), n) && AreLengths(values[1..], n)
  {
    hide AllAnnounce, Split;
    if AllAnnounce(Split(values[0], ","), n) && AreLengths(values[1..], n) {
      forall i | 0 <= i < |values| ensures AllAnnounce(Split(values[i], ","), n) {
        assert i > 0 ==> values[1..][i - 1] == values[i];
      }
    }
  }

  lemma {:induction false} LengthsIff(values: seq<bytes>, before: Option<nat>, n: nat)
    ensures LengthValues(values, before) == Ok(Some(n)) <==>
              AreLengths(values, n) && (if values == [] then before == Some(n) else before.None? || before == Some(n))
    decreases |values|
  {
    hide Split, LengthParts, AllAnnounce;
    if values != [] {
      var parts := Split(values[0], ",");
      PartsIff(parts, before, n);
      FirstLength(values, n);
      hide AreLengths;
      var next := LengthParts(parts, before);
      if next.Ok? {
        PartsSome(parts, before);
        PartsIff(parts, before, next.value.value);
        LengthsIff(values[1..], next.value, n);
        if next.value != Some(n) { OneNumber(parts, next.value.value, n); }
      }
    }
  }

  lemma {:induction false} PartsSome(parts: seq<bytes>, before: Option<nat>)
    requires (parts != [] || before.Some?) && LengthParts(parts, before).Ok?
    ensures LengthParts(parts, before).value.Some?
    decreases |parts|
  {
    hide Trim, AllDigits, FromStrRadix;
    if parts != [] { PartsSome(parts[1..], LengthPart(parts[0], before).value); }
  }

  lemma OneNumber(parts: seq<bytes>, m: nat, n: nat)
    requires parts != [] && AllAnnounce(parts, m) && m != n
    ensures !AllAnnounce(parts, n)
  {
    assert Announces(parts[0], m);
  }

  lemma DecAnnounces(n: nat)
    requires n <= USIZE_MAX
    ensures AreLengths([Dec(n)], n)
  {
    hide Print, FromStrRadix, Trim;
    ReadOfPrint(n, 10);
    var digits := Dec(n);
    assert digits == Print(n, 10);
    assert forall i :: 0 <= i < |digits| ==> IsDigit(digits[i]);
    TrimPrintable(digits);
    assert Find(digits, ",").None? by { FindNone(digits, ","); }
    assert Split(digits, ",") == [digits];
    assert Announces(digits, n);
    hide Announces;
    assert AllAnnounce([digits], n);
  }

  lemma NoLengths(n: nat)
    ensures AreLengths([], n)
  {}

  /** The lengths in the headers of a response: the supplied ones or else the added one. */
  lemma AllLengths(r: HttpResponse, now: nat)
    ensures var supplied := ValuesOf(r.headers, CONTENT_LENGTH);
            ValuesOf(AllHeaders(r, now), CONTENT_LENGTH) == if supplied == [] then [Dec(|r.body|)] else supplied
    ensures ValuesOf(AllHeaders(r, now), TRANSFER_ENCODING) == ValuesOf(r.headers, TRANSFER_ENCODING)
  {
    hide Has, ValuesOf, AddedHeaders, Dec;
    var added := AddedHeaders(r, now);
    ValuesOfAppend(r.headers, added, CONTENT_LENGTH);
    ValuesOfAppend(r.headers, added, TRANSFER_ENCODING);
    HasIffValues(r.headers, CONTENT_LENGTH);
    AddedValues(r, now);
  }

  lemma AddedValues(r: HttpResponse, now: nat)
    ensures var added := AddedHeaders(r, now);
            && ValuesOf(added, CONTENT_LENGTH) == (if Has(r.headers, CONTENT_LENGTH) then [] else [Dec(|r.body|)])
            && ValuesOf(added, TRANSFER_ENCODING) == []
  {
    hide Has, Dec, HttpDate.Write, ValuesOf, EqIgnoreCase;
    AddedNames();
    var length, server, date := Unless(Has(r.headers, CONTENT_LENGTH), LengthHeader(r)),
      Unless(Has(r.headers, SERVER), ServerHeader()), Unless(Has(r.headers, DATE), DateHeader(now));
    forall name | name in {CONTENT_LENGTH, TRANSFER_ENCODING}
      ensures ValuesOf(AddedHeaders(r, now), name) == ValuesOf(length, name) + ValuesOf(server, name) + ValuesOf(date, name)
    {
      ValuesOfAppend(length + server, date, name);
      ValuesOfAppend(length, server, name);
    }
    OneValue(LengthHeader(r), CONTENT_LENGTH);
    OneValue(LengthHeader(r), TRANSFER_ENCODING);
    OneValue(ServerHeader(), CONTENT_LENGTH);
    OneValue(ServerHeader(), TRANSFER_ENCODING);
    OneValue(DateHeader(now), CONTENT_LENGTH);
    OneValue(DateHeader(now), TRANSFER_ENCODING);
  }

  lemma OneValue(h: Header, name: bytes)
    ensures ValuesOf([h], name) == if EqIgnoreCase(h.name, name) then [h.value] else []
    ensures ValuesOf([], name) == []
  {
    hide EqIgnoreCase;
    assert [h][1..] == [];
  }

  /** The added names, compared with the two that frame a body. */
  lemma AddedNames()
    ensures EqIgnoreCase(LENGTH_FIELD, CONTENT_LENGTH) && !EqIgnoreCase(LENGTH_FIELD, TRANSFER_ENCODING)
    ensures !EqIgnoreCase(SERVER_FIELD, CONTENT_LENGTH) && !EqIgnoreCase(SERVER_FIELD, TRANSFER_ENCODING)
    ensures !EqIgnoreCase(DATE_FIELD, CONTENT_LENGTH) && !EqIgnoreCase(DATE_FIELD, TRANSFER_ENCODING)
  {
    assert Lower(LENGTH_FIELD) == CONTENT_LENGTH == Lower(CONTENT_LENGTH);
    assert |LENGTH_FIELD| == 14 && |TRANSFER_ENCODING| == 17 && |SERVER_FIELD| == 6 && |DATE_FIELD| == 4;
  }

  function HeadBytes(r: HttpResponse, now: nat): bytes {
    Written(r.status, AllHeaders(r, now)) + CRLF
  }

  /** Reading a written response comes down to what its headers say about its body. */
  lemma ReadWritten(r: HttpResponse, now: nat, rest: bytes, toHead: bool)
    requires IsWritable(r)
    ensures Read(Serialized(r, now) + rest, toHead) ==
            Delimit(Serialized(r, now) + rest, |HeadBytes(r, now)|, r.status.Code(), AllHeaders(r, now), toHead)
  {
    hide StatusLine, FieldLines, AllHeaders, ReadStatus, ReadFields, Find, Split, IsClean, IsLine, Delimit, StatusCode.Code;
    var all := AllHeaders(r, now);
    AllAreClean(r, now);
    FieldsRead(all);
    StatusRead(r.status);
    var lines := [StatusLine(r.status)] + FieldLines(all);
    assert lines[1..] == FieldLines(all);
    var s := Serialized(r, now) + rest;
    assert s == Lines(lines) + CRLF + (r.body + rest);
    assert AreLines(lines);
    BlockEnd(lines, r.body + rest);
    LinesAreJoined(lines);
    assert s[..|Lines(lines)| - 2] == Join(lines, CRLF);
    LinesHaveNoEnds(lines);
    SplitOfJoin(lines, CRLF);
  }

  lemma LinesHaveNoEnds(lines: seq<bytes>)
    requires AreLines(lines)
    ensures forall i :: 0 <= i < |lines| ==> Find(lines[i], CRLF).None?
  {
    hide Find;
    assert forall i :: 0 <= i < |lines| ==> IsLine(lines[i]);
  }

  lemma AllAreClean(r: HttpResponse, now: nat)
    requires IsWritable(r)
    ensures forall i :: 0 <= i < |AllHeaders(r, now)| ==> IsClean(AllHeaders(r, now)[i])
  {
    hide IsClean, AddedHeaders;
    AddedAreClean(r, now);
  }

  /** What a reader is meant to get. */
  function Sent(r: HttpResponse, now: nat): Received {
    Received(r.status.Code(), AllHeaders(r, now), r.body, |Serialized(r, now)|)
  }

  lemma HeadThenBody(r: HttpResponse, now: nat)
    ensures Serialized(r, now) == HeadBytes(r, now) + r.body
  {
    hide Written;
  }

  /** A chunked reading of a body is never the body itself. */
  lemma ChunkedDiffers(b: bytes, data: bytes, n: nat)
    requires ChunkedOf(b, 0, [], USIZE_MAX) == Complete(data, n)
    ensures |data| < n
  {
    hide ChunkedOf, Wire, Data, IsCoded;
    var c := EncodedFrom(b, 0, [], USIZE_MAX);
    WireIsLonger(c.pieces);
    assert b[0..n] == Encoding(c);
  }

  /** Reading a response by its announced length. */
  lemma LengthReads(r: HttpResponse, now: nat, rest: bytes, toHead: bool)
    requires IsWritable(r) && !IsBodyless(r.status.Code(), toHead) && ValuesOf(r.headers, TRANSFER_ENCODING) == []
    ensures Read(Serialized(r, now) + rest, toHead) == Some(Sent(r, now)) <==>
              AreLengths(ValuesOf(r.headers, CONTENT_LENGTH), |r.body|)
  {
    hide AllHeaders, IsBodyless, Read, Serialized, HeadBytes, LengthValues, AreLengths, Dec, StatusCode.Code, ValuesOf,
      IsClean, ListItems, Split, Join;
    ReadWritten(r, now, rest, toHead);
    HeadThenBody(r, now);
    AllLengths(r, now);
    NoCodings();
    var lengths := ValuesOf(AllHeaders(r, now), CONTENT_LENGTH);
    LengthsIff(lengths, None, |r.body|);
    DecAnnounces(|r.body|);
    NoLengths(|r.body|);
    var s, head := Serialized(r, now) + rest, HeadBytes(r, now);
    assert s == head + (r.body + rest);
    assert s[|head|..|head| + |r.body|] == r.body;
  }

  lemma NoCodings()
    ensures !EndsChunked([])
  {
    hide Trim, Lower;
    assert Split([], ",") == [[]];
    TrimPrintable([]);
  }

  /** A response with a transfer coding is not read as it was meant, at least if more follows. */
  lemma CodingMisleads(r: HttpResponse, now: nat, toHead: bool)
    requires IsWritable(r) && !IsBodyless(r.status.Code(), toHead) && ValuesOf(r.headers, TRANSFER_ENCODING) != []
    ensures Read(Serialized(r, now) + " ", toHead) != Some(Sent(r, now))
  {
    hide AllHeaders, IsBodyless, Read, Serialized, HeadBytes, LengthValues, AreLengths, Dec, StatusCode.Code, ValuesOf,
      IsClean, EndsChunked, ChunkedOf;
    var rest: bytes := " ";
    ReadWritten(r, now, rest, toHead);
    HeadThenBody(r, now);
    AllLengths(r, now);
    var s, head := Serialized(r, now) + rest, HeadBytes(r, now);
    assert s == head + (r.body + rest);
    assert s[|head|..] == r.body + rest;
    var chunked := ChunkedOf(s[|head|..], 0, [], USIZE_MAX);
    if chunked.Complete? { ChunkedDiffers(s[|head|..], chunked.value, chunked.consumed); }
    assert |r.body + rest| == |r.body| + 1;
  }

  lemma BodylessReads(r: HttpResponse, now: nat, rest: bytes, toHead: bool)
    requires IsWritable(r) && IsBodyless(r.status.Code(), toHead)
    ensures Read(Serialized(r, now) + rest, toHead) == Some(Sent(r, now)) <==> r.body == []
  {
    hide AllHeaders, IsBodyless, Read, Serialized, HeadBytes, StatusCode.Code, ValuesOf, IsClean, EndsChunked, LengthValues;
    ReadWritten(r, now, rest, toHead);
    HeadThenBody(r, now);
  }

  /** A response delimits itself by section 3.3.3 of RFC 7230, whatever follows it on the
      connection, exactly when it has no body where it must not have one and elsewhere no
      transfer coding, and no supplied length but the right one. */
  lemma SelfDelimitingIff(r: HttpResponse, now: nat, toHead: bool)
    requires IsWritable(r)
    ensures (forall rest: bytes :: Read(Serialized(r, now) + rest, toHead) == Some(Sent(r, now))) <==> IsFramed(r, toHead)
  {
    hide IsBodyless, Read, IsWritable, StatusCode.Code, Serialized, Sent, AreLengths, ValuesOf;
    forall rest: bytes
      ensures IsFramed(r, toHead) ==> Read(Serialized(r, now) + rest, toHead) == Some(Sent(r, now))
    {
      if IsBodyless(r.status.Code(), toHead) {
        BodylessReads(r, now, rest, toHead);
      } else if ValuesOf(r.headers, TRANSFER_ENCODING) == [] {
        LengthReads(r, now, rest, toHead);
      }
    }
    if !IsFramed(r, toHead) {
      var rest: bytes := " ";
      if IsBodyless(r.status.Code(), toHead) {
        BodylessReads(r, now, rest, toHead);
      } else if ValuesOf(r.headers, TRANSFER_ENCODING) == [] {
        LengthReads(r, now, rest, toHead);
      } else {
        CodingMisleads(r, now, toHead);
      }
      assert Read(Serialized(r, now) + rest, toHead) != Some(Sent(r, now));
    }
  }

  // ------------------------------------------------------- a stream of responses

  /** A response, the second it was written in, and whether it answers a HEAD request. */
  datatype Timed = Timed(response: HttpResponse, now: nat, toHead: bool)

  function Stream(ts: seq<Timed>): bytes {
    if ts == [] then [] else Serialized(ts[0].response, ts[0].now) + Stream(ts[1..])
  }

  function AllSent(ts: seq<Timed>): seq<Received> {
    if ts == [] then [] else [Sent(ts[0].response, ts[0].now)] + AllSent(ts[1..])
  }

  /** The client knows which of its requests were HEAD requests. */
  function Heads(ts: seq<Timed>): seq<bool> {
    if ts == [] then [] else [ts[0].toHead] + Heads(ts[1..])
  }

  function ReadStream(s: bytes, heads: seq<bool>): Option<seq<Received>>
    decreases |s|
  {
    if s == [] then Some([])
    else if heads == [] then None
    else
      match Read(s, heads[0])
      case None => None
      case Some(r) =>
        if r.length == 0 || r.length > |s| then None
        else match ReadStream(s[r.length..], heads[1..]) case Some(more) => Some([r] + more) case None => None
  }

  lemma SentLength(r: HttpResponse, now: nat)
    ensures Sent(r, now).length == |Serialized(r, now)|
  {}

  /** Concatenated responses split back into the ones that were sent. */
  lemma {:induction false} StreamSplits(ts: seq<Timed>)
    requires forall i :: 0 <= i < |ts| ==> IsWritable(ts[i].response) && IsFramed(ts[i].response, ts[i].toHead)
    ensures ReadStream(Stream(ts), Heads(ts)) == Some(AllSent(ts))
  {
    hide IsWritable, IsFramed, Serialized, Read, Sent;
    if ts != [] {
      SentLength(ts[0].response, ts[0].now);
      var r, now, rest := ts[0].response, ts[0].now, Stream(ts[1..]);
      SelfDelimitingIff(r, now, ts[0].toHead);
      NeverEmpty(r, now);
      assert Stream(ts) == Serialized(r, now) + rest;
      assert Stream(ts)[|Serialized(r, now)|..] == rest;
      assert Heads(ts)[1..] == Heads(ts[1..]);
      StreamSplits(ts[1..]);
    }
  }

  // ------------------------------------------------------- what is always there

  lemma HasIff(headers: seq<Header>, name: bytes)
    ensures Has(headers, name) <==> ValuesOf(headers, name) != []
  {
    hide EqIgnoreCase;
    if headers != [] {
      HasIff(headers[1..], name);
      assert headers == [headers[0]] + headers[1..];
      if Has(headers, name) {
        var i :| 0 <= i < |headers| && EqIgnoreCase(headers[i].name, name);
        assert i > 0 ==> headers[1..][i - 1] == headers[i];
      }
    }
  }

  lemma UnlessValues(supplied: bool, h: Header, name: bytes)
    ensures ValuesOf(Unless(supplied, h), name) == if !supplied && EqIgnoreCase(h.name, name) then [h.value] else []
  {
    hide EqIgnoreCase;
    assert [h][1..] == [];
  }

  lemma AddedParts(r: HttpResponse, now: nat, name: bytes)
    ensures ValuesOf(AllHeaders(r, now), name) ==
              ValuesOf(r.headers, name)
              + ValuesOf(Unless(Has(r.headers, CONTENT_LENGTH), LengthHeader(r)), name)
              + ValuesOf(Unless(Has(r.headers, SERVER), ServerHeader()), name)
              + ValuesOf(Unless(Has(r.headers, DATE), DateHeader(now)), name)
  {
    hide ValuesOf, Has, LengthHeader, ServerHeader, DateHeader, Unless;
    var a, b, c := Unless(Has(r.headers, CONTENT_LENGTH), LengthHeader(r)), Unless(Has(r.headers, SERVER), ServerHeader()),
      Unless(Has(r.headers, DATE), DateHeader(now));
    ValuesOfAppend(r.headers, a + b + c, name);
    ValuesOfAppend(a + b, c, name);
    ValuesOfAppend(a, b, name);
  }

  lemma FieldNames()
    ensures EqIgnoreCase(LENGTH_FIELD, CONTENT_LENGTH) && EqIgnoreCase(SERVER_FIELD, SERVER) && EqIgnoreCase(DATE_FIELD, DATE)
    ensures !EqIgnoreCase(LENGTH_FIELD, SERVER) && !EqIgnoreCase(LENGTH_FIELD, DATE)
    ensures !EqIgnoreCase(SERVER_FIELD, CONTENT_LENGTH) && !EqIgnoreCase(SERVER_FIELD, DATE)
    ensures !EqIgnoreCase(DATE_FIELD, CONTENT_LENGTH) && !EqIgnoreCase(DATE_FIELD, SERVER)
  {
    assert |LENGTH_FIELD| == 14 && |SERVER_FIELD| == 6 && |DATE_FIELD| == 4;
    assert Lower(LENGTH_FIELD) == CONTENT_LENGTH == Lower(CONTENT_LENGTH);
    assert Lower(SERVER_FIELD) == SERVER == Lower(SERVER);
    assert Lower(DATE_FIELD) == DATE == Lower(DATE);
  }

  /** A response carries the headers the caller supplied and, where they are missing, the length of
      its body, the name of the server, and the second it was written in; and no header twice. */
  lemma HeadersSent(r: HttpResponse, now: nat)
    requires now < 253_402_300_800 && |r.body| <= USIZE_MAX
    ensures var sent, own := Sent(r, now).headers, r.headers;
            && own <= sent
            && (if ValuesOf(own, CONTENT_LENGTH) != [] then ValuesOf(sent, CONTENT_LENGTH) == ValuesOf(own, CONTENT_LENGTH)
                else (|ValuesOf(sent, CONTENT_LENGTH)| == 1
                      && FromStrRadix(ValuesOf(sent, CONTENT_LENGTH)[0], 10) == Some(|r.body|)))
            && (if ValuesOf(own, SERVER) != [] then ValuesOf(sent, SERVER) == ValuesOf(own, SERVER)
                else ValuesOf(sent, SERVER) == [SERVER_TEXT])
            && (if ValuesOf(own, DATE) != [] then ValuesOf(sent, DATE) == ValuesOf(own, DATE)
                else |ValuesOf(sent, DATE)| == 1 && HttpDate.Read(ValuesOf(sent, DATE)[0]) == Some(now))
  {
    hide EqIgnoreCase, Has, ValuesOf, FromStrRadix, Dec, HttpDate.Read, HttpDate.Write, Unless;
    FieldNames();
    SentValues(r, now, CONTENT_LENGTH);
    SentValues(r, now, SERVER);
    SentValues(r, now, DATE);
    ReadOfPrint(|r.body|, 10);
    HttpDate.RoundTrip(now);
    assert Sent(r, now).headers == AllHeaders(r, now);
    assert r.headers <= AllHeaders(r, now);
    assert Dec(|r.body|) == Print(|r.body|, 10) by { DecIs(|r.body|); }
  }

  lemma DecIs(n: nat)
    ensures Dec(n) == Print(n, 10)
  {}

  lemma SentValues(r: HttpResponse, now: nat, name: bytes)
    ensures ValuesOf(AllHeaders(r, now), name) ==
              ValuesOf(r.headers, name)
              + (if ValuesOf(r.headers, CONTENT_LENGTH) == [] && EqIgnoreCase(LENGTH_FIELD, name) then [Dec(|r.body|)] else [])
              + (if ValuesOf(r.headers, SERVER) == [] && EqIgnoreCase(SERVER_FIELD, name) then [SERVER_TEXT] else [])
              + (if ValuesOf(r.headers, DATE) == [] && EqIgnoreCase(DATE_FIELD, name) then [HttpDate.Write(now)] else [])
  {
    hide EqIgnoreCase, Has, ValuesOf, Dec, HttpDate.Write, Unless;
    AddedParts(r, now, name);
    HasIff(r.headers, CONTENT_LENGTH);
    HasIff(r.headers, SERVER);
    HasIff(r.headers, DATE);
    UnlessValues(Has(r.headers, CONTENT_LENGTH), LengthHeader(r), name);
    UnlessValues(Has(r.headers, SERVER), ServerHeader(), name);
    UnlessValues(Has(r.headers, DATE), DateHeader(now), name);
  }
}
