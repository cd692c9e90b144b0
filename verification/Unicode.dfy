/** What it means to be UTF-8: the encoding of Unicode scalar values (section 3 of RFC 3629). */
module Unicode {
  import opened Bytes

  /** A code point that is not a surrogate. */
  type Scalar = c: nat | c < 0xD800 || 0xE000 <= c < 0x11_0000

  function Byte(n: nat): byte
    requires n < 0x100
  {
    n as char
  }

  /** Six bits behind the lead byte. */
  function Rest(n: nat): byte { Byte(0x80 + n % 0x40) }

  function EncodeOne(c: Scalar): bytes {
    if c < 0x80 then [Byte(c)]
    else if c < 0x800 then [Byte(0xC0 + c / 0x40), Rest(c)]
    else if c < 0x1_0000 then [Byte(0xE0 + c / 0x1000), Rest(c / 0x40), Rest(c)]
    else [Byte(0xF0 + c / 0x4_0000), Rest(c / 0x1000), Rest(c / 0x40), Rest(c)]
  }

  function Encode(cs: seq<Scalar>): bytes {
    if cs == [] then [] else EncodeOne(cs[0]) + Encode(cs[1..])
  }

  lemma EncodedWidth(c: Scalar, s: bytes)
    ensures Width(EncodeOne(c) + s) == |EncodeOne(c)|
  {
    var e := EncodeOne(c);
    var t := e + s;
    assert |t| >= |e| >= 1 && forall i :: 0 <= i < |e| ==> t[i] == e[i];
    if c < 0x80 {
    } else if c < 0x800 {
      TwoBytes(c);
    } else if c < 0x1_0000 {
      ThreeBytes(c);
    } else {
      FourBytes(c);
    }
  }

  lemma TwoBytes(c: Scalar)
    requires 0x80 <= c < 0x800
    ensures |EncodeOne(c)| == 2 && Lead2(EncodeOne(c)[0]) && Tail(EncodeOne(c)[1])
  {}

  lemma ThreeBytes(c: Scalar)
    requires 0x800 <= c < 0x1_0000
    ensures |EncodeOne(c)| == 3 && Lead3(EncodeOne(c)[0], EncodeOne(c)[1]) && Tail(EncodeOne(c)[2])
    ensures !Lead2(EncodeOne(c)[0]) && EncodeOne(c)[0] >= '\U{80}'
  {
    var high := c / 0x40;
    assert high / 0x40 == c / 0x1000;
  }

  lemma FourBytes(c: Scalar)
    requires 0x1_0000 <= c
    ensures |EncodeOne(c)| == 4 && Lead4(EncodeOne(c)[0], EncodeOne(c)[1]) && Tail(EncodeOne(c)[2]) && Tail(EncodeOne(c)[3])
    ensures !Lead2(EncodeOne(c)[0]) && EncodeOne(c)[0] >= '\U{F0}'
  {
    var high := c / 0x1000;
    assert high / 0x40 == c / 0x4_0000;
  }

  /** The scalar value at the front of well-formed bytes. */
  lemma FrontScalar(s: bytes) returns (c: Scalar)
    requires Width(s) > 0
    ensures EncodeOne(c) == s[..Width(s)]
  {
    var n := Width(s);
    var a := s[0] as int;
    if n == 1 {
      c := a;
    } else if n == 2 {
      c := ScalarOf2(s[0], s[1]);
      assert s[..2] == [s[0], s[1]];
    } else if n == 3 {
      c := ScalarOf3(s[0], s[1], s[2]);
      assert s[..3] == [s[0], s[1], s[2]];
    } else {
      c := ScalarOf4(s[0], s[1], s[2], s[3]);
      assert s[..4] == [s[0], s[1], s[2], s[3]];
    }
  }

  lemma ScalarOf2(a: byte, b: byte) returns (c: Scalar)
    requires Lead2(a) && Tail(b)
    ensures EncodeOne(c) == [a, b]
  {
    var x, y := a as int - 0xC0, b as int - 0x80;
    c := x * 0x40 + y;
    assert c / 0x40 == x && c % 0x40 == y;
  }

  lemma ScalarOf3(a: byte, b: byte, d: byte) returns (c: Scalar)
    requires Lead3(a, b) && Tail(d)
    ensures EncodeOne(c) == [a, b, d]
  {
    var x, y, z := a as int - 0xE0, b as int - 0x80, d as int - 0x80;
    var high := x * 0x40 + y;
    var n := high * 0x40 + z;
    assert n / 0x40 == high && n % 0x40 == z && high / 0x40 == x && high % 0x40 == y;
    assert n / 0x1000 == high / 0x40;
    c := n;
  }

  lemma ScalarOf4(a: byte, b: byte, d: byte, e: byte) returns (c: Scalar)
    requires Lead4(a, b) && Tail(d) && Tail(e)
    ensures EncodeOne(c) == [a, b, d, e]
  {
    var x, y, z, v := a as int - 0xF0, b as int - 0x80, d as int - 0x80, e as int - 0x80;
    var top := x * 0x40 + y;
    var high := top * 0x40 + z;
    var n := high * 0x40 + v;
    assert n / 0x40 == high && n % 0x40 == v && high / 0x40 == top && high % 0x40 == z && top / 0x40 == x && top % 0x40 == y;
    assert n / 0x1000 == high / 0x40 && n / 0x4_0000 == high / 0x1000 == top / 0x40;
    c := n;
  }

  lemma {:induction false} EncodingIsUtf8(cs: seq<Scalar>)
    ensures Utf8(Encode(cs))
  {
    hide EncodeOne;
    if cs != [] {
      EncodedWidth(cs[0], Encode(cs[1..]));
      NeverEmpty(cs[0]);
      EncodingIsUtf8(cs[1..]);
      assert Encode(cs)[|EncodeOne(cs[0])|..] == Encode(cs[1..]);
    }
  }

  lemma NeverEmpty(c: Scalar)
    ensures |EncodeOne(c)| >= 1
  {}

  lemma {:induction false} Utf8IsEncoding(s: bytes) returns (cs: seq<Scalar>)
    requires Utf8(s)
    ensures Encode(cs) == s
    decreases |s|
  {
    hide EncodeOne, Width;
    if s == [] {
      cs := [];
    } else {
      var c := FrontScalar(s);
      var more := Utf8IsEncoding(s[Width(s)..]);
      cs := [c] + more;
      assert s == s[..Width(s)] + s[Width(s)..];
      assert cs[1..] == more;
    }
  }

  /** Text is accepted exactly if it encodes some sequence of scalar values. */
  lemma Utf8Iff(s: bytes)
    ensures Utf8(s) <==> exists cs :: Encode(cs) == s
  {
    hide Utf8, Encode;
    if Utf8(s) { var cs := Utf8IsEncoding(s); }
    if cs :| Encode(cs) == s { EncodingIsUtf8(cs); }
  }

  /** The code points with the Unicode property White_Space. */
  predicate IsWhiteSpace(c: Scalar) {
    || 0x9 <= c <= 0xD || c == 0x20 || c == 0x85 || c == 0xA0 || c == 0x1680
    || 0x2000 <= c <= 0x200A || c == 0x2028 || c == 0x2029 || c == 0x202F || c == 0x205F || c == 0x3000
  }

  /** Trimming begins exactly with white space. */
  lemma SpaceIff(c: Scalar, s: bytes)
    ensures SpaceFront(EncodeOne(c) + s) == if IsWhiteSpace(c) then |EncodeOne(c)| else 0
  {
    var e := EncodeOne(c);
    var t := e + s;
    assert |t| >= |e| >= 1 && forall i :: 0 <= i < |e| ==> t[i] == e[i];
    if c < 0x80 {
    } else if c < 0x800 {
      TwoBytes(c);
      TwoSpaces(c);
    } else if c < 0x1_0000 {
      ThreeBytes(c);
      ThreeSpaces(c);
    } else {
      FourBytes(c);
    }
  }

  lemma TwoSpaces(c: Scalar)
    requires 0x80 <= c < 0x800
    ensures IsSpace2(EncodeOne(c)[0], EncodeOne(c)[1]) <==> IsWhiteSpace(c)
    ensures EncodeOne(c)[0] < '\U{E1}'
  {
    assert c == c / 0x40 * 0x40 + c % 0x40;
  }

  lemma ThreeSpaces(c: Scalar)
    requires 0x800 <= c < 0x1_0000
    ensures IsSpace3(EncodeOne(c)[0], EncodeOne(c)[1], EncodeOne(c)[2]) <==> IsWhiteSpace(c)
    ensures EncodeOne(c)[0] != '\U{C2}'
  {
    var high := c / 0x40;
    assert c == high * 0x40 + c % 0x40 && high == high / 0x40 * 0x40 + high % 0x40 && high / 0x40 == c / 0x1000;
  }
}
