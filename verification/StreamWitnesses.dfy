/** Concrete requests, and one that shows how the cut of a stream can matter. */
module StreamWitnesses {
  import opened Bytes
  import opened Parser
  import opened TextLines
  import opened Printer
  import opened Pipeline

  // ------------------------------------------------------------------- a request

  const ROOT: bytes := "/"
  const HOST_FIELD: bytes := "Host"
  const NAME: bytes := "a"

  /** The request `GET / HTTP/1.1` to host `a`. */
  function Simple(): Message { Message(Get, ROOT, None, [Header(HOST_FIELD, NAME)], Empty) }

  lemma SimpleField()
    ensures IsField(Header(HOST_FIELD, NAME)) && Trim(NAME) == NAME
  {
    AsciiIsUtf8(NAME);
    TrimPrintable(NAME);
    assert TrimBlanks(NAME) == NAME;
    hide Trim, Utf8;
  }

  lemma SimpleHost()
    ensures AreFields([Header(HOST_FIELD, NAME)])
  {
    SimpleField();
    assert Lower(HOST_FIELD) == HOST;
    assert Lower(HOST_FIELD)[0] == 'h' && Lower(CONTENT_LENGTH)[0] == 'c' && Lower(TRANSFER_ENCODING)[0] == 't';
    hide Lower, TrimBlanks, Trim, IsToken, IsField;
    var h := Header(HOST_FIELD, NAME);
    assert !IsFraming(h);
    assert ValuesOf([h], HOST) == [NAME] + ValuesOf([], HOST);
  }

  lemma StartLength()
    ensures |StartLine(Simple())| == 14
  {
    var sep: bytes := " ";
    var last := [HTTP_VERSION];
    var two := [ROOT, HTTP_VERSION];
    var all := [GET_NAME, ROOT, HTTP_VERSION];
    assert all[1..] == two && two[1..] == last;
    assert |HTTP_VERSION| == 8;
    assert Join(last, sep) == HTTP_VERSION;
    assert Join(two, sep) == ROOT + sep + HTTP_VERSION;
    assert Join(all, sep) == GET_NAME + sep + Join(two, sep);
    assert TargetOf(ROOT, None) == ROOT;
  }

  lemma SimpleLength()
    ensures |PrintHead(Simple())| == 27
  {
    StartLength();
    var m, h := Simple(), Header(HOST_FIELD, NAME);
    var line := FieldLine(h);
    assert |line| == 7;
    assert m.headers + FramingFields(m.payload) == [h];
    assert FieldLines([h]) == [line] by { assert [h][1..] == []; }
    hide StartLine, FieldLine, FieldLines;
    var lines := [StartLine(m), line];
    assert HeadLines(m) == lines;
    assert lines[1..] == [line];
    assert Lines([line]) == line + CRLF + Lines([]);
    assert Lines(lines) == StartLine(m) + CRLF + Lines([line]);
  }

  lemma SimpleFits(maxBody: nat)
    ensures Fits(Simple(), maxBody)
  {
    hide AreFields, PrintHead, IsTarget, TargetOf, IsPath, Utf8;
    SimpleHost();
    SimpleLength();
    RootTarget();
  }

  lemma RootTarget()
    ensures TargetOf(ROOT, None) == ROOT && IsPath(ROOT) && IsTarget(ROOT) && Utf8(ROOT)
  {
    AsciiIsUtf8(ROOT);
  }

  lemma SimpleLengths(ms: seq<Message>)
    requires ms == [Simple()] || ms == [Simple(), Simple()]
    ensures 27 <= |PrintAll(ms)| <= 54
  {
    SimpleLength();
    assert |Print(Simple())| == 27;
    assert ms[1..] == [] || (ms[1..] == [Simple()] && ms[1..][1..] == []);
    hide Print, Simple;
    assert PrintAll(ms[1..]) == [] || PrintAll(ms[1..]) == Print(Simple()) + [];
  }

  lemma SimpleMeanings(ms: seq<Message>)
    requires ms == [Simple()] || ms == [Simple(), Simple()]
    ensures Meanings(ms) == if |ms| == 1 then [Meaning(Simple())] else [Meaning(Simple()), Meaning(Simple())]
  {
    hide Meaning, Simple;
    assert Meanings(ms) == [Meaning(ms[0])] + Meanings(ms[1..]);
    if |ms| == 2 {
      assert ms[1..] == [Simple()] && ms[1..][1..] == [];
      assert Meanings(ms[1..]) == [Meaning(ms[1])] + [];
    }
  }

  lemma SimpleBody()
    ensures Meaning(Simple()).body == []
  {}

  lemma SimpleRead(ms: seq<Message>)
    requires ms == [Simple()] || ms == [Simple(), Simple()]
    ensures PrintAll(ms) != [] && Drain(PrintAll(ms), 0) == ReadOut(Meanings(ms), [], None)
  {
    hide Fits, PrintAll, Meanings, Drain, Simple;
    SimpleFits(0);
    SimpleLengths(ms);
    DrainOfPrints(ms, 0);
  }

  // --------------------------------------------------------- a borderline request

  const PAD_FIELD: bytes := "X"

  function Pad(n: nat): bytes { seq(n, _ => 'a') }

  /** The same request with a long field in front. */
  function Padded(n: nat): Message {
    Message(Get, ROOT, None, [Header(PAD_FIELD, Pad(n)), Header(HOST_FIELD, NAME)], Empty)
  }

  lemma PadField(n: nat)
    ensures IsField(Header(PAD_FIELD, Pad(n))) && !IsFraming(Header(PAD_FIELD, Pad(n))) && !EqIgnoreCase(PAD_FIELD, HOST)
  {
    assert Lower(PAD_FIELD)[0] == 'x' && Lower(HOST)[0] == 'h';
    assert Lower(CONTENT_LENGTH)[0] == 'c' && Lower(TRANSFER_ENCODING)[0] == 't';
    AsciiIsUtf8(Pad(n));
    hide Utf8, Lower;
  }

  lemma PaddedFields(n: nat)
    ensures AreFields(Padded(n).headers)
  {
    hide IsField, IsFraming, EqIgnoreCase, Pad, Trim;
    SimpleHost();
    PadField(n);
    var pad, host := Header(PAD_FIELD, Pad(n)), Header(HOST_FIELD, NAME);
    assert [pad, host][1..] == [host];
    assert ValuesOf([pad, host], HOST) == ValuesOf([host], HOST);
    assert [host][0] == host;
  }

  lemma PaddedLength(n: nat)
    ensures |PrintHead(Padded(n))| == 32 + n
  {
    hide StartLine, FieldLine, Pad, PrintHead;
    SimpleLength();
    StartSame(n);
    PadLine(n);
    var pad, host := Header(PAD_FIELD, Pad(n)), Header(HOST_FIELD, NAME);
    var start, a, b := StartLine(Simple()), FieldLine(pad), FieldLine(host);
    HeadOfTwo(Simple(), [host]);
    HeadOfTwo(Padded(n), [pad, host]);
    assert [pad, host][1..] == [host];
    assert FieldLines([pad, host]) == [a] + FieldLines([host]);
    assert Lines([start] + FieldLines([host])) == start + CRLF + Lines(FieldLines([host])) by {
      assert ([start] + FieldLines([host]))[1..] == FieldLines([host]);
    }
    assert ([start] + ([a] + FieldLines([host])))[1..] == [a] + FieldLines([host]);
    assert ([a] + FieldLines([host]))[1..] == FieldLines([host]);
  }

  lemma StartSame(n: nat)
    ensures StartLine(Padded(n)) == StartLine(Simple())
  {}

  lemma PadLine(n: nat)
    ensures |FieldLine(Header(PAD_FIELD, Pad(n)))| == 3 + n
  {}

  lemma HeadOfTwo(m: Message, headers: seq<Header>)
    requires m.headers == headers && m.payload == Empty
    ensures PrintHead(m) == Lines([StartLine(m)] + FieldLines(headers)) + CRLF
  {
    hide StartLine, FieldLines, Lines;
    assert headers + [] == headers;
  }

  lemma PaddedIsMessage(n: nat)
    ensures IsMessage(Padded(n))
  {
    hide AreFields, Utf8, IsTarget, TargetOf, IsPath;
    PaddedFields(n);
    RootTarget();
  }

  /** The longest head that is ever accepted. */
  function Longest(): Message { Padded(MAX_HEADER_SIZE - 28) }

  lemma LongestLength()
    ensures var m := Longest();
            IsMessage(m) && |PrintHead(m)| == MAX_HEADER_SIZE + 4 && Body(m.payload) == [] && Print(m) == PrintHead(m)
  {
    hide IsMessage, PrintHead, Pad;
    PaddedIsMessage(MAX_HEADER_SIZE - 28);
    PaddedLength(MAX_HEADER_SIZE - 28);
    assert PrintHead(Longest()) + [] == PrintHead(Longest());
  }

  lemma LongestRead(maxBody: nat)
    requires maxBody <= USIZE_MAX
    ensures var b := Print(Longest());
            RequestOf(b, maxBody) == Complete(Meaning(Longest()), |b|) && Borderline(b) && |b| <= USIZE_MAX
  {
    hide IsMessage, HeadMeant, Meaning, PrintHead, HeadOfText, Longest, Print, Body, RequestOf, Find;
    LongestLength();
    var m := Longest();
    assert Print(m) + [] == Print(m) && PrintHead(m) + [] == PrintHead(m);
    ParseOfPrint(m, [], maxBody);
    HeadRead(m, []);
  }

  lemma LongestRough(maxBody: nat)
    requires maxBody <= USIZE_MAX
    ensures var b := Print(Longest());
            Drain(b, maxBody) == ReadOut([Meaning(Longest())], [], None) && !Smooth(b, maxBody) && |b| <= USIZE_MAX
  {
    hide Borderline, Meaning, Longest, Print, RequestOf;
    LongestRead(maxBody);
    NothingYet(maxBody);
    var b := Print(Longest());
    assert b[|b|..] == [];
    assert Drain([], maxBody) == ReadOut([], [], None);
  }

  /** A well-formed request that is accepted when it comes in one piece, and refused for its
      size when it comes in two that are cut at the wrong place. */
  lemma CutMatters(maxBody: nat) returns (n: nat)
    requires maxBody <= USIZE_MAX
    ensures var b := Print(Longest());
            && n <= |b|
            && ReadAll([b], [], maxBody) == ReadOut([Meaning(Longest())], [], None)
            && ReadAll([b[..n], b[n..]], [], maxBody).failure == Some(HeaderTooLarge)
  {
    hide Meaning, Longest, Print, Drain, Smooth;
    LongestRough(maxBody);
    var b := Print(Longest());
    n := RoughCut(b, maxBody);
    assert [] + b == b && [] + b[..n] == b[..n];
    var none: seq<bytes> := [];
    assert [b][1..] == none;
  }
}
