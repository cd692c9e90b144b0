/** The request heads the parser accepts, described as a grammar, and the proof that it accepts
    exactly these and reads each of them as the one head it stands for. */
module HeadGrammar {
  import opened Bytes
  import opened Numbers
  import opened Parser
  import opened TextLines
  import opened Printer

  // ------------------------------------------------------------------- one field

  predicate AreBlanks(s: bytes) { forall i :: 0 <= i < |s| ==> s[i] == ' ' || s[i] == '\t' }

  /** No blank at either end. */
  predicate IsBare(s: bytes) { s != [] ==> !AreBlanks(s[..1]) && !AreBlanks(s[|s| - 1..]) }

  /** A name, a colon, and a value with any blanks around it. */
  ghost predicate IsFieldLine(line: bytes, h: Header) {
    exists name: bytes, front: bytes, back: bytes ::
      && line == name + ":" + (front + h.value + back)
      && IsNameOf(name, h) && AreBlanks(front) && AreBlanks(back)
  }

  predicate IsDelimiter(c: byte) {
    || c == '"' || c == '(' || c == ')' || c == ',' || c == '/' || c == ':' || c == ';' || c == '<' || c == '=' || c == '>'
    || c == '?' || c == '@' || c == '[' || c == '\\' || c == ']' || c == '{' || c == '}'
  }

  predicate IsMark(c: byte) {
    || c == '!' || c == '#' || c == '$' || c == '%' || c == '&' || c == '\'' || c == '*' || c == '+' || c == '-' || c == '.'
    || c == '^' || c == '_' || c == '`' || c == '|' || c == '~'
  }

  const MARKS: string := "!#$%&'*+-.^_`|~"

  lemma MarkIff(c: byte)
    ensures c in MARKS <==> IsMark(c)
  {
    assert |MARKS| == 15;
    assert MARKS[0] == '!' && MARKS[1] == '#' && MARKS[2] == '$' && MARKS[3] == '%' && MARKS[4] == '&' && MARKS[5] == '\'';
    assert MARKS[6] == '*' && MARKS[7] == '+' && MARKS[8] == '-' && MARKS[9] == '.' && MARKS[10] == '^' && MARKS[11] == '_';
    assert MARKS[12] == '`' && MARKS[13] == '|' && MARKS[14] == '~';
  }

  /** Section 3.2.6 of RFC 7230: a token is made of any visible characters but delimiters. */
  lemma TokenIff(c: byte)
    ensures IsTokenByte(c) <==> '!' <= c <= '~' && !IsDelimiter(c)
  {
    MarkIff(c);
    assert MARKS == "!#$%&'*+-.^_`|~";
  }

  /** Section 3.2 of RFC 7230: visible characters, blanks, and bytes beyond ASCII. */
  lemma FieldTextIff(s: bytes)
    ensures IsFieldText(s) <==> forall i :: 0 <= i < |s| ==> IsBlank(s[i]) || '!' <= s[i] <= '~' || s[i] >= '\U{80}'
  {}

  /** The same without blanks. */
  lemma TargetTextIff(s: bytes)
    ensures IsTargetText(s) <==> forall i :: 0 <= i < |s| ==> '!' <= s[i] <= '~' || s[i] >= '\U{80}'
  {}

  /** The name, in any case, and what may be said under it. */
  predicate IsNameOf(name: bytes, h: Header) {
    && name != [] && IsToken(name) && h.name == Lower(name)
    && IsBare(h.value) && IsFieldText(h.value)
  }

  lemma {:induction false} FrontParts(s: bytes) returns (front: bytes)
    ensures s == front + TrimBlanksFront(s) && AreBlanks(front)
    ensures TrimBlanksFront(s) != [] ==> !IsBlank(TrimBlanksFront(s)[0])
    decreases |s|
  {
    if s != [] && IsBlank(s[0]) {
      var rest := FrontParts(s[1..]);
      front := [s[0]] + rest;
      assert s == [s[0]] + s[1..];
    } else {
      front := [];
    }
  }

  lemma {:induction false} BackParts(s: bytes) returns (back: bytes)
    ensures s == TrimBlanksBack(s) + back && AreBlanks(back)
    ensures TrimBlanksBack(s) != [] ==> !IsBlank(TrimBlanksBack(s)[|TrimBlanksBack(s)| - 1])
    decreases |s|
  {
    if s != [] && IsBlank(s[|s| - 1]) {
      var rest := BackParts(s[..|s| - 1]);
      back := rest + [s[|s| - 1]];
      assert s == s[..|s| - 1] + [s[|s| - 1]];
    } else {
      back := [];
    }
  }

  lemma TrimParts(s: bytes) returns (front: bytes, back: bytes)
    ensures s == front + TrimBlanks(s) + back && AreBlanks(front) && AreBlanks(back) && IsBare(TrimBlanks(s))
  {
    hide TrimBlanksFront, TrimBlanksBack;
    front := FrontParts(s);
    back := BackParts(TrimBlanksFront(s));
    var t := TrimBlanks(s);
    if t != [] {
      assert t[0] == TrimBlanksFront(s)[0];
      assert t[..1] == [t[0]] && t[|t| - 1..] == [t[|t| - 1]];
    }
  }

  lemma {:induction false} TrimFrontOf(front: bytes, s: bytes)
    requires AreBlanks(front) && (s != [] ==> !IsBlank(s[0]))
    ensures TrimBlanksFront(front + s) == s
    decreases |front|
  {
    if front == [] {
      assert front + s == s;
    } else {
      assert (front + s)[1..] == front[1..] + s;
      TrimFrontOf(front[1..], s);
    }
  }

  lemma {:induction false} TrimBackOf(s: bytes, back: bytes)
    requires AreBlanks(back) && (s != [] ==> !IsBlank(s[|s| - 1]))
    ensures TrimBlanksBack(s + back) == s
    decreases |back|
  {
    if back == [] {
      assert s + back == s;
    } else {
      assert (s + back)[..|s + back| - 1] == s + back[..|back| - 1];
      TrimBackOf(s, back[..|back| - 1]);
    }
  }

  lemma {:induction false} TrimAllBlank(s: bytes)
    requires AreBlanks(s)
    ensures TrimBlanks(s) == []
    decreases |s|
  {
    if s != [] { TrimAllBlank(s[1..]); }
  }

  lemma TrimOf(front: bytes, s: bytes, back: bytes)
    requires AreBlanks(front) && AreBlanks(back) && IsBare(s)
    ensures TrimBlanks(front + s + back) == s
  {
    hide TrimBlanksFront, TrimBlanksBack;
    if s == [] {
      assert front + s + back == front + back;
      TrimAllBlank(front + back);
    } else {
      assert s[..1] == [s[0]] && s[|s| - 1..] == [s[|s| - 1]];
      assert front + s + back == front + (s + back);
      TrimFrontOf(front, s + back);
      TrimBackOf(s, back);
    }
  }

  lemma FieldAccepted(line: bytes, h: Header)
    requires HeaderOf(line) == Ok(h)
    ensures IsFieldLine(line, h)
  {
    hide TrimBlanks, IsToken, IsFieldText, Lower, Find;
    var i := Find(line, ":").value;
    var name, rest := line[..i], line[i + 1..];
    assert line[i..i + 1] == ":";
    assert line == name + ":" + rest;
    var front, back := TrimParts(rest);
    assert line == name + ":" + (front + h.value + back) && IsNameOf(name, h);
  }

  lemma FieldRead(line: bytes, h: Header)
    requires IsFieldLine(line, h)
    ensures HeaderOf(line) == Ok(h)
  {
    hide TrimBlanks, IsToken, IsFieldText, Lower, Find, AreBlanks, IsBare;
    var name: bytes, front: bytes, back: bytes :|
      line == name + ":" + (front + h.value + back) && IsNameOf(name, h) && AreBlanks(front) && AreBlanks(back);
    TokenFacts(name);
    FindNone(name, ":");
    FindAfter(name, ":", front + h.value + back);
    assert line[..|name|] == name && line[|name| + 1..] == front + h.value + back;
    assert line[0] == name[0];
    TrimOf(front, h.value, back);
  }

  // -------------------------------------------------------------------- all fields

  /** One line for each header; empty lines are passed over. */
  ghost predicate AreFieldLines(lines: seq<bytes>, headers: seq<Header>)
    decreases |lines|
  {
    if lines == [] then headers == []
    else if lines[0] == [] then AreFieldLines(lines[1..], headers)
    else headers != [] && IsFieldLine(lines[0], headers[0]) && AreFieldLines(lines[1..], headers[1..])
  }

  lemma {:induction false} FieldsIff(lines: seq<bytes>, headers: seq<Header>)
    ensures HeadersOf(lines) == Ok(headers) <==> AreFieldLines(lines, headers)
    decreases |lines|
  {
    hide HeaderOf, IsFieldLine;
    if lines != [] {
      if lines[0] == [] {
        FieldsIff(lines[1..], headers);
      } else {
        if HeadersOf(lines) == Ok(headers) {
          FieldAccepted(lines[0], headers[0]);
          assert headers == [headers[0]] + headers[1..];
          FieldsIff(lines[1..], headers[1..]);
        }
        if AreFieldLines(lines, headers) {
          FieldRead(lines[0], headers[0]);
          FieldsIff(lines[1..], headers[1..]);
          assert headers == [headers[0]] + headers[1..];
        }
      }
    }
  }

  // ------------------------------------------------------------------ request line

  lemma {:induction false} JoinOfSplit(s: bytes, p: bytes)
    requires p != []
    ensures Join(Split(s, p), p) == s
    ensures forall i :: 0 <= i < |Split(s, p)| ==> Find(Split(s, p)[i], p).None?
    decreases |s|
  {
    var found := Find(s, p);
    if found.Some? {
      var i := found.value;
      JoinOfSplit(s[i + |p|..], p);
      assert s == s[..i] + p + s[i + |p|..];
      NoneBefore(s, p, i);
      hide Find;
      var rest := Split(s[i + |p|..], p);
      assert Split(s, p) == [s[..i]] + rest;
      assert ([s[..i]] + rest)[1..] == rest;
    }
  }

  lemma NoneBefore(s: bytes, p: bytes, i: nat)
    requires p != [] && Find(s, p) == Some(i)
    ensures Find(s[..i], p).None?
  {
    hide Find;
    if Find(s[..i], p).Some? {
      FindExtend(s[..i], p, s[i..]);
      assert s[..i] + s[i..] == s;
      MatchEnds(s[..i], p, Find(s[..i], p).value);
    }
  }

  lemma LineIff(line: bytes, verb: Method, target: bytes)
    ensures RequestLineOf(line) == Ok(RequestLine(verb, target)) <==>
              line == RequestLineText(verb, target) && IsVerb(verb) && IsTarget(target)
  {
    hide Split, MethodOf, IsVerb, VerbName, Join, IsTargetText, IsToken;
    if RequestLineOf(line) == Ok(RequestLine(verb, target)) {
      var parts := Split(line, " ");
      JoinOfSplit(line, " ");
      VerbOf(parts[0]);
      assert parts == [parts[0], parts[1], parts[2]];
    }
    if line == RequestLineText(verb, target) && IsVerb(verb) && IsTarget(target) {
      LineRead(verb, target);
    }
  }

  // ----------------------------------------------------------------------- framing

  /** The decimal number `n`, with any white space around it. */
  predicate IsLength(part: bytes, n: nat) {
    var digits := Trim(part);
    digits != [] && AllDigits(digits) && Value(digits, 10) == Some(n) && n <= USIZE_MAX
  }

  predicate AreLengths(parts: seq<bytes>, n: nat) { forall i :: 0 <= i < |parts| ==> IsLength(parts[i], n) }

  predicate AllLengths(values: seq<bytes>, n: nat) {
    forall i :: 0 <= i < |values| ==> AreLengths(Split(values[i], ","), n)
  }

  lemma PartIff(part: bytes, before: Option<nat>, n: nat)
    ensures LengthPart(part, before) == Ok(Some(n)) <==> IsLength(part, n) && (before.None? || before.value == n)
    ensures LengthPart(part, before) != Ok(None)
  {
    hide Trim, Value;
    var digits := Trim(part);
    if digits != [] && AllDigits(digits) { assert IsDigit(digits[0]) && digits[0] != '+'; }
  }

  lemma {:induction false} PartsIff(parts: seq<bytes>, before: Option<nat>, n: nat)
    requires parts != []
    ensures LengthParts(parts, before) == Ok(Some(n)) <==> AreLengths(parts, n) && (before.None? || before.value == n)
    ensures LengthParts(parts, before) != Ok(None)
    decreases |parts|
  {
    hide LengthPart, IsLength;
    var next := LengthPart(parts[0], before);
    PartIff(parts[0], before, n);
    var rest := parts[1..];
    assert AreLengths(parts, n) <==> IsLength(parts[0], n) && AreLengths(rest, n) by {
      assert parts == [parts[0]] + rest;
    }
    if next.Ok? {
      PartIff(parts[0], before, next.value.value);
      if rest == [] {
        assert LengthParts(rest, next.value) == Ok(next.value);
      } else {
        PartsIff(rest, next.value, n);
      }
    }
  }

  lemma {:induction false} ValuesIff(values: seq<bytes>, before: Option<nat>, n: nat)
    requires values != []
    ensures LengthValues(values, before) == Ok(Some(n)) <==> AllLengths(values, n) && (before.None? || before.value == n)
    ensures LengthValues(values, before) != Ok(None)
    decreases |values|
  {
    hide LengthParts, AreLengths, Split;
    var parts, rest := Split(values[0], ","), values[1..];
    var next := LengthParts(parts, before);
    PartsIff(parts, before, n);
    assert AllLengths(values, n) <==> AreLengths(parts, n) && AllLengths(rest, n) by {
      assert values == [values[0]] + rest;
    }
    if next.Ok? {
      PartsIff(parts, before, next.value.value);
      if rest == [] {
        assert LengthValues(rest, next.value) == Ok(next.value);
      } else {
        ValuesIff(rest, next.value, n);
      }
    }
  }

  /** At most one kind of framing is announced: lengths that all agree, or the chunked coding and no other. */
  predicate IsFramedAs(headers: seq<Header>, framing: BodyFraming) {
    var lengths, codings := ValuesOf(headers, CONTENT_LENGTH), ValuesOf(headers, TRANSFER_ENCODING);
    match framing
    case NoBody => lengths == [] && codings == []
    case ContentLength(n) => lengths != [] && AllLengths(lengths, n) && codings == []
    case Chunked => lengths == [] && codings != [] && ListItems(Split(Join(codings, ","), ",")) == [CHUNKED]
  }

  lemma FramingIff(headers: seq<Header>, framing: BodyFraming)
    ensures FramingOf(headers) == Ok(framing) <==> IsFramedAs(headers, framing)
  {
    hide ValuesOf, LengthValues, AllLengths, ListItems, Split, Join;
    var lengths := ValuesOf(headers, CONTENT_LENGTH);
    if lengths != [] {
      if framing.ContentLength? { ValuesIff(lengths, None, framing.length); }
      var r := LengthValues(lengths, None);
      ValuesIff(lengths, None, if r.Ok? && r.value.Some? then r.value.value else 0);
    }
  }

  /** One Host, and it says something. */
  predicate HasHost(headers: seq<Header>) {
    |ValuesOf(headers, HOST)| == 1 && Trim(ValuesOf(headers, HOST)[0]) != []
  }

  // ---------------------------------------------------------------------- the head

  /** The text up to the blank line: UTF-8, a request line with a verb and a target, then fields. */
  ghost predicate IsHeadText(text: bytes, head: RequestHead) {
    && Utf8(text)
    && IsVerb(head.verb) && IsTarget(head.target) && IsPath(head.path) && head.target == TargetOf(head.path, head.query)
    && (exists lines: seq<bytes> :: AreHeadLines(lines, text, head))
    && HasHost(head.headers) && IsFramedAs(head.headers, head.framing)
  }

  ghost predicate AreHeadLines(lines: seq<bytes>, text: bytes, head: RequestHead) {
    && lines != [] && text == Join(lines, CRLF) && (forall i :: 0 <= i < |lines| ==> Find(lines[i], CRLF).None?)
    && lines[0] == RequestLineText(head.verb, head.target) && AreFieldLines(lines[1..], head.headers)
  }

  /** What is accepted, line by line. */
  ghost predicate IsHeadOf(text: bytes, head: RequestHead) {
    var lines := Split(text, CRLF);
    && Utf8(text)
    && RequestLineOf(lines[0]) == Ok(RequestLine(head.verb, head.target))
    && HeadersOf(lines[1..]) == Ok(head.headers)
    && HostCheck(head.headers).Ok? && FramingOf(head.headers) == Ok(head.framing)
    && SplitTarget(head.target) == (head.path, head.query)
  }

  lemma HeadParts(text: bytes, head: RequestHead)
    ensures HeadOfText(text) == Ok(head) <==> IsHeadOf(text, head)
  {
    hide Utf8, Split, RequestLineOf, HeadersOf, HostCheck, FramingOf, SplitTarget;
  }

  lemma LinesIff(text: bytes, head: RequestHead)
    ensures (exists lines: seq<bytes> :: AreHeadLines(lines, text, head)) <==> AreHeadLines(Split(text, CRLF), text, head)
  {
    hide Split, Join, AreFieldLines, RequestLineText, Find;
    if lines: seq<bytes> :| AreHeadLines(lines, text, head) {
      SplitOfJoin(lines, CRLF);
    }
  }

  lemma SplitIsJoined(text: bytes)
    ensures text == Join(Split(text, CRLF), CRLF)
    ensures forall i :: 0 <= i < |Split(text, CRLF)| ==> Find(Split(text, CRLF)[i], CRLF).None?
  {
    JoinOfSplit(text, CRLF);
  }

  /** A head is read exactly from the texts that spell it. */
  lemma HeadTextIff(text: bytes, head: RequestHead)
    ensures HeadOfText(text) == Ok(head) <==> IsHeadText(text, head)
  {
    hide Utf8, Split, Join, RequestLineOf, HeadersOf, FramingOf, SplitTarget, HeadOfText, IsVerb, IsTarget, IsPath, TargetOf,
      IsFramedAs, AreFieldLines, RequestLineText, Find, ValuesOf, Trim;
    HeadParts(text, head);
    LinesIff(text, head);
    SplitIsJoined(text);
    var lines := Split(text, CRLF);
    LineIff(lines[0], head.verb, head.target);
    FieldsIff(lines[1..], head.headers);
    FramingIff(head.headers, head.framing);
    TargetIff(head.target, head.path, head.query);
  }

  /** The parser completes a head exactly if the buffer has a blank line, the first one no further in than
      the limit, and the text in front of it spells the head. */
  lemma HeadIff(buffer: bytes, head: RequestHead, consumed: nat)
    ensures HeadOf(buffer) == Complete(head, consumed) <==>
              && 4 <= consumed <= 32_768 + 4 && Find(buffer, CRLF_CRLF) == Some(consumed - 4)
              && IsHeadText(buffer[..consumed - 4], head)
  {
    hide HeadOfText, IsHeadText, Find;
    var end := Find(buffer, CRLF_CRLF);
    if end.Some? { HeadTextIff(buffer[..end.value], head); }
  }

  // -------------------------------------------------------------- hexadecimal sizes

  const DIGITS: bytes := "0123456789abcdef"

  /** A hexadecimal digit is read in either case. */
  lemma DigitIff(c: byte, d: nat)
    requires d < 16
    ensures DigitValue(c, 16) == Some(d) <==> LowerByte(c) == DIGITS[d]
  {}

  lemma {:induction false} ValueAnyCase(s: bytes, n: nat)
    requires Lower(s) == Hex(n)
    ensures Value(s, 16) == Some(n)
    decreases |s|
  {
    var last, low := |s| - 1, n % 16;
    assert Lower(s)[last] == LowerByte(s[last]) == DigitByte(low) == DIGITS[low];
    DigitIff(s[last], low);
    if n < 16 {
      assert s[..last] == [];
    } else {
      assert Lower(s)[..last] == Hex(n / 16);
      assert Lower(s[..last]) == Lower(s)[..last];
      ValueAnyCase(s[..last], n / 16);
    }
  }

  /** A chunk size is read from its hexadecimal digits in any case, with any extension behind them. */
  lemma SizeAnyCase(digits: bytes, n: nat, ext: bytes)
    requires Lower(digits) == Hex(n) && n <= USIZE_MAX && (ext != [] ==> ext[0] == ';')
    ensures ChunkSizeOf(digits + ext) == Some(n)
  {
    hide Lower, Value, Utf8, Trim, Find;
    assert |digits| == |Hex(n)|;
    AnyCaseDigits(digits, n);
    FindNone(digits, ";");
    if ext == [] {
      assert digits + ext == digits;
    } else {
      FindAfter(digits, ";", ext[1..]);
      assert digits + ";" + ext[1..] == digits + ext;
      assert (digits + ext)[..|digits|] == digits;
    }
    AsciiIsUtf8(digits);
    TrimPrintable(digits);
    ValueAnyCase(digits, n);
  }

  lemma AnyCaseDigits(digits: bytes, n: nat)
    requires Lower(digits) == Hex(n)
    ensures digits != [] && forall i :: 0 <= i < |digits| ==> Printable(digits[i]) && digits[i] != ';' && digits[i] != '+'
  {
    forall i | 0 <= i < |digits| ensures Printable(digits[i]) && digits[i] != ';' && digits[i] != '+' {
      assert LowerByte(digits[i]) == Hex(n)[i] && IsNumeral(Hex(n)[i]);
    }
  }
}
