/** Byte strings and the library operations on them that the parser and the
    response writer use.  A byte is the character with the same code, so text
    literals read as they do on the wire. */
module Bytes {

  datatype Option<+T> = None | Some(value: T)

  type byte = c: char | c as int < 0x100 witness ' '
  type bytes = seq<byte>

  const CRLF: bytes := "\r\n"
  const CRLF_CRLF: bytes := "\r\n\r\n"

  /** Lengths, offsets and chunk sizes are 64-bit in the program. */
  const USIZE_MAX := 0xFFFF_FFFF_FFFF_FFFF

  // ---------------------------------------------------------------- search

  predicate MatchesAt(s: bytes, p: bytes, i: int) {
    0 <= i && i + |p| <= |s| && s[i..i + |p|] == p
  }

  /** `windows(p.len()).position(..)`, starting at `from`. */
  function Find(s: bytes, p: bytes, from: nat := 0): (r: Option<nat>)
    ensures r.Some? ==> from <= r.value && MatchesAt(s, p, r.value)
    ensures r.Some? ==> forall j :: from <= j < r.value ==> !MatchesAt(s, p, j)
    ensures r.None? ==> forall j :: from <= j ==> !MatchesAt(s, p, j)
    decreases |s| - from
  {
    if MatchesAt(s, p, from) then Some(from)
    else if from + |p| >= |s| then None
    else Find(s, p, from + 1)
  }

  lemma FindIs(s: bytes, p: bytes, i: nat)
    requires MatchesAt(s, p, i)
    requires forall j :: 0 <= j < i ==> !MatchesAt(s, p, j)
    ensures Find(s, p) == Some(i)
  {
    var r := Find(s, p);
    assert r.Some?;
    if r.value < i { assert false; }
    if i < r.value { assert false; }
  }

  lemma MatchExtend(s: bytes, p: bytes, ext: bytes, i: nat)
    requires i + |p| <= |s|
    ensures MatchesAt(s + ext, p, i) == MatchesAt(s, p, i)
  {
    assert (s + ext)[i..i + |p|] == s[i..i + |p|];
  }

  /** The first occurrence does not move when more bytes arrive. */
  lemma FindExtend(s: bytes, p: bytes, ext: bytes)
    requires Find(s, p).Some?
    ensures Find(s + ext, p) == Find(s, p)
  {
    var i := Find(s, p).value;
    MatchExtend(s, p, ext, i);
    forall j | 0 <= j < i ensures !MatchesAt(s + ext, p, j) {
      MatchExtend(s, p, ext, j);
    }
    FindIs(s + ext, p, i);
  }

  /** The first occurrence is found without the bytes behind it. */
  lemma FindCut(s: bytes, p: bytes, i: nat)
    requires Find(s, p) == Some(i)
    ensures i + |p| <= |s| && Find(s[..i + |p|], p) == Some(i)
  {
    hide Find, MatchesAt;
    assert MatchesAt(s, p, i);
    MatchEnds(s, p, i);
    var cut := s[..i + |p|];
    MatchCut(s, p, i + |p|, i);
    forall j | 0 <= j < i ensures !MatchesAt(cut, p, j) {
      MatchCut(s, p, i + |p|, j);
    }
    FindIs(cut, p, i);
  }

  lemma MatchEnds(s: bytes, p: bytes, i: nat)
    requires MatchesAt(s, p, i)
    ensures i + |p| <= |s|
  {}

  lemma MatchCut(s: bytes, p: bytes, n: nat, i: nat)
    requires i + |p| <= n <= |s|
    ensures MatchesAt(s[..n], p, i) == MatchesAt(s, p, i)
  {
    assert s[..n][i..i + |p|] == s[i..i + |p|];
  }

  /** An occurrence that only appears once more bytes arrive straddles the old end. */
  lemma FindLate(s: bytes, p: bytes, ext: bytes)
    requires Find(s, p).None? && Find(s + ext, p).Some?
    ensures Find(s + ext, p).value + |p| > |s|
  {
    var i := Find(s + ext, p).value;
    if i + |p| <= |s| {
      MatchExtend(s, p, ext, i);
    }
  }

  /** `str::split(sep)` for a non-empty separator. */
  function Split(s: bytes, sep: bytes): (r: seq<bytes>)
    requires sep != []
    ensures r != []
    decreases |s|
  {
    match Find(s, sep)
    case None => [s]
    case Some(i) => [s[..i]] + Split(s[i + |sep|..], sep)
  }

  // ------------------------------------------------------------------ text

  predicate IsDigit(c: byte) { '0' <= c <= '9' }

  function LowerByte(c: byte): byte {
    if 'A' <= c <= 'Z' then (c as int + 32) as char else c
  }

  function Lower(s: bytes): (r: bytes)
    ensures |r| == |s|
  {
    seq(|s|, i requires 0 <= i < |s| => LowerByte(s[i]))
  }

  predicate EqIgnoreCase(a: bytes, b: bytes) {
    Lower(a) == Lower(b)
  }

  lemma LowerIdempotent(s: bytes)
    ensures Lower(Lower(s)) == Lower(s)
  {
    assert forall i :: 0 <= i < |s| ==> LowerByte(LowerByte(s[i])) == LowerByte(s[i]);
  }

  /** Length of the white-space character (Unicode White_Space, in UTF-8) at the front of `s`. */
  function SpaceFront(s: bytes): (n: nat)
    ensures n <= |s|
  {
    if |s| >= 1 && IsAsciiSpace(s[0]) then 1
    else if |s| >= 2 && IsSpace2(s[0], s[1]) then 2
    else if |s| >= 3 && IsSpace3(s[0], s[1], s[2]) then 3
    else 0
  }

  function SpaceBack(s: bytes): (n: nat)
    ensures n <= |s|
  {
    var n := |s|;
    if n >= 1 && IsAsciiSpace(s[n - 1]) then 1
    else if n >= 2 && IsSpace2(s[n - 2], s[n - 1]) then 2
    else if n >= 3 && IsSpace3(s[n - 3], s[n - 2], s[n - 1]) then 3
    else 0
  }

  predicate IsAsciiSpace(c: byte) { '\t' <= c <= '\r' || c == ' ' }

  predicate IsSpace2(a: byte, b: byte) {
    a == '\U{C2}' && (b == '\U{85}' || b == '\U{A0}')
  }

  predicate IsSpace3(a: byte, b: byte, c: byte) {
    || (a == '\U{E1}' && b == '\U{9A}' && c == '\U{80}')
    || (a == '\U{E2}' && b == '\U{80}' && ('\U{80}' <= c <= '\U{8A}' || c == '\U{A8}' || c == '\U{A9}' || c == '\U{AF}'))
    || (a == '\U{E2}' && b == '\U{81}' && c == '\U{9F}')
    || (a == '\U{E3}' && b == '\U{80}' && c == '\U{80}')
  }

  function TrimStart(s: bytes): (r: bytes)
    ensures |r| <= |s|
    decreases |s|
  {
    if SpaceFront(s) == 0 then s else TrimStart(s[SpaceFront(s)..])
  }

  function TrimEnd(s: bytes): (r: bytes)
    ensures |r| <= |s|
    decreases |s|
  {
    if SpaceBack(s) == 0 then s else TrimEnd(s[..|s| - SpaceBack(s)])
  }

  /** `str::trim`. */
  function Trim(s: bytes): bytes {
    TrimEnd(TrimStart(s))
  }

  predicate Printable(c: byte) { ' ' < c < '\U{7F}' }

  lemma TrimPrintable(s: bytes)
    requires s != [] ==> Printable(s[0]) && Printable(s[|s| - 1])
    ensures Trim(s) == s
  {}

  /** `str::from_utf8` accepts exactly the well-formed sequences of RFC 3629, section 4. */
  predicate Utf8(s: bytes)
    decreases |s|
  {
    s == [] || (Width(s) > 0 && Utf8(s[Width(s)..]))
  }

  /** Length of the well-formed character at the front of `s`, 0 if there is none. */
  function Width(s: bytes): (n: nat)
    ensures n <= |s|
  {
    if |s| >= 1 && s[0] < '\U{80}' then 1
    else if |s| >= 2 && Lead2(s[0]) && Tail(s[1]) then 2
    else if |s| >= 3 && Lead3(s[0], s[1]) && Tail(s[2]) then 3
    else if |s| >= 4 && Lead4(s[0], s[1]) && Tail(s[2]) && Tail(s[3]) then 4
    else 0
  }

  predicate Tail(c: byte) { '\U{80}' <= c <= '\U{BF}' }

  predicate Lead2(c: byte) { '\U{C2}' <= c <= '\U{DF}' }

  predicate Lead3(a: byte, b: byte) {
    || (a == '\U{E0}' && '\U{A0}' <= b <= '\U{BF}')
    || ('\U{E1}' <= a <= '\U{EC}' && Tail(b))
    || (a == '\U{ED}' && '\U{80}' <= b <= '\U{9F}')
    || ('\U{EE}' <= a <= '\U{EF}' && Tail(b))
  }

  predicate Lead4(a: byte, b: byte) {
    || (a == '\U{F0}' && '\U{90}' <= b <= '\U{BF}')
    || ('\U{F1}' <= a <= '\U{F3}' && Tail(b))
    || (a == '\U{F4}' && '\U{80}' <= b <= '\U{8F}')
  }

  lemma WidthAppend(a: bytes, b: bytes)
    requires Width(a) > 0
    ensures Width(a + b) == Width(a)
  {}

  lemma {:induction false} Utf8Append(a: bytes, b: bytes)
    requires Utf8(a) && Utf8(b)
    ensures Utf8(a + b)
    decreases |a|
  {
    hide Width;
    if a == [] {
      assert a + b == b;
    } else {
      var n := Width(a);
      WidthAppend(a, b);
      assert a + b != [];
      assert (a + b)[n..] == a[n..] + b;
      Utf8Append(a[n..], b);
    }
  }

  predicate Ascii(s: bytes) { forall i :: 0 <= i < |s| ==> s[i] < '\U{80}' }

  lemma {:induction false} AsciiIsUtf8(s: bytes)
    requires Ascii(s)
    ensures Utf8(s)
    decreases |s|
  {
    if s != [] { AsciiIsUtf8(s[1..]); }
  }
}
