/** The chunked transfer coding (section 4.1 of RFC 7230): the decoder against
    the grammar it reads, in both directions. */
module ChunkCodec {
  import opened Bytes
  import opened Numbers
  import opened Parser
  import opened TextLines

  /** One chunk as it stands on the wire: its size line, as sent, and its data. */
  datatype Piece = Piece(sizeLine: bytes, data: bytes)

  /** A chunked body: the chunks, the size line of the final chunk and the trailer section. */
  datatype Coded = Coded(pieces: seq<Piece>, last: bytes, trailer: bytes)

  predicate IsSizeLine(line: bytes, size: nat) {
    Find(line, CRLF).None? && ChunkSizeOf(line) == Some(size)
  }

  predicate IsPiece(p: Piece) {
    p.data != [] && IsSizeLine(p.sizeLine, |p.data|)
  }

  predicate ArePieces(ps: seq<Piece>) {
    forall i :: 0 <= i < |ps| ==> IsPiece(ps[i])
  }

  /** The bytes up to and including the first empty line behind the final chunk. */
  predicate IsTrailer(t: bytes) {
    TrailerEnd(t) == Some(|t| - 2)
  }

  predicate IsCoded(c: Coded) {
    ArePieces(c.pieces) && IsSizeLine(c.last, 0) && IsTrailer(c.trailer)
  }

  function Wire(ps: seq<Piece>): bytes {
    if ps == [] then [] else ps[0].sizeLine + CRLF + ps[0].data + CRLF + Wire(ps[1..])
  }

  function Data(ps: seq<Piece>): bytes {
    if ps == [] then [] else ps[0].data + Data(ps[1..])
  }

  function Encoding(c: Coded): bytes {
    Wire(c.pieces) + c.last + CRLF + c.trailer
  }

  /** The data is shorter than its encoding. */
  lemma {:induction false} WireIsLonger(ps: seq<Piece>)
    ensures |Data(ps)| <= |Wire(ps)|
  {
    if ps != [] { WireIsLonger(ps[1..]); }
  }

  // ------------------------------------------------------- encoded -> decoded

  /** A text, a line end and a tail, at a known place in the buffer. */
  lemma SlicesOf(b: bytes, offset: nat, a: bytes, t: bytes)
    requires offset <= |b| && b[offset..] == a + CRLF + t
    ensures offset + |a| + 2 <= |b|
    ensures b[offset..offset + |a|] == a
    ensures b[offset + |a|..offset + |a| + 2] == CRLF
    ensures b[offset + |a| + 2..] == t
  {
    assert b[offset..offset + |a|] == b[offset..][..|a|];
    assert b[offset + |a|..offset + |a| + 2] == b[offset..][|a|..|a| + 2];
    assert b[offset + |a| + 2..] == b[offset..][|a| + 2..];
  }

  lemma AtPiece(b: bytes, offset: nat, p: Piece, rest: bytes, decoded: nat, maxBody: nat)
    requires offset <= |b| <= USIZE_MAX && maxBody <= USIZE_MAX
    requires b[offset..] == p.sizeLine + CRLF + (p.data + CRLF + rest)
    requires IsPiece(p)
    ensures var start := offset + |p.sizeLine| + 2;
            && start + |p.data| + 2 <= |b|
            && ChunkAt(b, offset, decoded, maxBody) ==
               (if decoded + |p.data| > maxBody then Bad(BodyTooLarge) else ChunkData(start, |p.data|))
            && b[start..start + |p.data|] == p.data
            && b[start + |p.data| + 2..] == rest
  {
    hide Find, ChunkSizeOf, TrailerEnd;
    var start := offset + |p.sizeLine| + 2;
    SlicesOf(b, offset, p.sizeLine, p.data + CRLF + rest);
    SlicesOf(b, start, p.data, rest);
    FindAfter(p.sizeLine, CRLF, p.data + CRLF + rest);
  }

  lemma TrailerFound(t: bytes, rest: bytes)
    requires IsTrailer(t)
    ensures TrailerEnd(t + rest) == Some(|t| - 2)
  {
    hide Find, MatchesAt;
    if |t| >= 2 { MatchExtend(t, CRLF, rest, 0); }
    if !MatchesAt(t, CRLF, 0) { FindExtend(t, CRLF_CRLF, rest); }
  }

  lemma AtLast(b: bytes, offset: nat, last: bytes, trailer: bytes, rest: bytes, decoded: nat, maxBody: nat)
    requires offset <= |b|
    requires b[offset..] == last + CRLF + trailer + rest
    requires IsSizeLine(last, 0) && IsTrailer(trailer)
    ensures ChunkAt(b, offset, decoded, maxBody) == LastChunk(offset + |last| + 2 + |trailer|)
  {
    hide Find, ChunkSizeOf, TrailerEnd;
    assert b[offset..] == last + CRLF + (trailer + rest);
    FindAfter(last, CRLF, trailer + rest);
    assert b[offset..offset + |last|] == b[offset..][..|last|] == last;
    assert b[offset + |last| + 2..] == b[offset..][|last| + 2..] == trailer + rest;
    TrailerFound(trailer, rest);
  }

  lemma {:induction false} DecodeFrom(b: bytes, offset: nat, body: bytes, c: Coded, rest: bytes, maxBody: nat)
    requires offset <= |b| <= USIZE_MAX && |body| <= maxBody <= USIZE_MAX
    requires IsCoded(c) && b[offset..] == Encoding(c) + rest
    ensures ChunkedOf(b, offset, body, maxBody) ==
            if |body| + |Data(c.pieces)| <= maxBody
            then Complete(body + Data(c.pieces), offset + |Encoding(c)|)
            else Failed(BodyTooLarge)
    decreases |c.pieces|
  {
    hide ChunkAt, IsTrailer, IsSizeLine;
    if c.pieces == [] {
      assert b[offset..] == c.last + CRLF + c.trailer + rest;
      AtLast(b, offset, c.last, c.trailer, rest, |body|, maxBody);
      assert body + [] == body;
    } else {
      var p, c' := c.pieces[0], c.(pieces := c.pieces[1..]);
      assert Encoding(c) + rest == p.sizeLine + CRLF + (p.data + CRLF + (Encoding(c') + rest));
      AtPiece(b, offset, p, Encoding(c') + rest, |body|, maxBody);
      if |body| + |p.data| <= maxBody {
        DecodeFrom(b, offset + |p.sizeLine| + 2 + |p.data| + 2, body + p.data, c', rest, maxBody);
        assert body + p.data + Data(c'.pieces) == body + Data(c.pieces);
      }
    }
  }

  /** Decoding an encoded body followed by anything gives its data and its exact
      length, or reports that it is over the limit. */
  lemma DecodeEncoding(c: Coded, rest: bytes, maxBody: nat)
    requires IsCoded(c) && |Encoding(c) + rest| <= USIZE_MAX && maxBody <= USIZE_MAX
    ensures ChunkedOf(Encoding(c) + rest, 0, [], maxBody) ==
            if |Data(c.pieces)| <= maxBody
            then Complete(Data(c.pieces), |Encoding(c)|)
            else Failed(BodyTooLarge)
  {
    var b := Encoding(c) + rest;
    assert b[0..] == b;
    DecodeFrom(b, 0, [], c, rest, maxBody);
    assert [] + Data(c.pieces) == Data(c.pieces);
  }

  // ------------------------------------------------------- decoded -> encoded

  lemma PieceAt(b: bytes, offset: nat, decoded: nat, maxBody: nat) returns (p: Piece)
    requires offset <= |b| && ChunkAt(b, offset, decoded, maxBody).ChunkData?
    ensures IsPiece(p) && decoded + |p.data| <= maxBody
    ensures var step := ChunkAt(b, offset, decoded, maxBody);
            && p.data == b[step.start..step.start + step.size]
            && b[offset..step.start + step.size + 2] == p.sizeLine + CRLF + p.data + CRLF
  {
    hide ChunkSizeOf, TrailerEnd, Find;
    var i := Find(b[offset..], CRLF).value;
    var step := ChunkAt(b, offset, decoded, maxBody);
    p := Piece(b[offset..offset + i], b[step.start..step.start + step.size]);
    LineBefore(b, offset, i);
  }

  lemma LineBefore(b: bytes, offset: nat, i: nat)
    requires offset <= |b| && Find(b[offset..], CRLF) == Some(i)
    ensures offset + i + 2 <= |b| && b[offset + i..offset + i + 2] == CRLF
    ensures Find(b[offset..offset + i], CRLF).None?
  {
    var line := b[offset..offset + i];
    assert MatchesAt(b[offset..], CRLF, i);
    assert b[offset + i..offset + i + 2] == b[offset..][i..i + 2];
    assert line + b[offset + i..] == b[offset..];
    if Find(line, CRLF).Some? {
      FindExtend(line, CRLF, b[offset + i..]);
    }
  }

  lemma LastAt(b: bytes, offset: nat, decoded: nat, maxBody: nat) returns (last: bytes, trailer: bytes)
    requires offset <= |b| && ChunkAt(b, offset, decoded, maxBody).LastChunk?
    ensures IsSizeLine(last, 0) && IsTrailer(trailer)
    ensures b[offset..ChunkAt(b, offset, decoded, maxBody).consumed] == last + CRLF + trailer
  {
    hide ChunkSizeOf, TrailerEnd;
    var i := Find(b[offset..], CRLF).value;
    LineBefore(b, offset, i);
    var start := offset + i + 2;
    var t := TrailerEnd(b[start..]).value;
    last, trailer := b[offset..offset + i], b[start..start + t + 2];
    assert b[start..][..t + 2] == trailer;
    TrailerCut(b[start..], t);
  }

  lemma TrailerCut(s: bytes, t: nat)
    requires TrailerEnd(s) == Some(t)
    ensures IsTrailer(s[..t + 2])
  {
    hide Find;
    var cut := s[..t + 2];
    assert cut + s[t + 2..] == s;
    if MatchesAt(s, CRLF, 0) {
      assert cut[0..2] == s[0..2];
    } else {
      MatchExtend(cut, CRLF, s[t + 2..], 0);
      FindCut(s, CRLF_CRLF, t - 2);
    }
  }

  lemma {:induction false} EncodedFrom(b: bytes, offset: nat, body: bytes, maxBody: nat) returns (c: Coded)
    requires offset <= |b| && ChunkedOf(b, offset, body, maxBody).Complete? && |body| <= maxBody
    ensures IsCoded(c)
    ensures var r := ChunkedOf(b, offset, body, maxBody);
            && b[offset..r.consumed] == Encoding(c)
            && r.value == body + Data(c.pieces)
            && |r.value| <= maxBody
    decreases |b| - offset
  {
    hide ChunkedOf, ChunkAt, IsCoded, Encoding;
    ChunkedUnfold(b, offset, body, maxBody);
    var step := ChunkAt(b, offset, |body|, maxBody);
    if step.ChunkData? {
      var p := PieceAt(b, offset, |body|, maxBody);
      var next := step.start + step.size + 2;
      var c' := EncodedFrom(b, next, body + p.data, maxBody);
      c := c'.(pieces := [p] + c'.pieces);
      ConsPiece(p, c');
      var n := ChunkedOf(b, offset, body, maxBody).consumed;
      assert b[offset..n] == b[offset..next] + b[next..n];
    } else {
      var last, trailer := LastAt(b, offset, |body|, maxBody);
      c := Coded([], last, trailer);
      NoPieces(last, trailer);
      assert body + [] == body;
    }
  }

  lemma ConsPiece(p: Piece, c: Coded)
    requires IsPiece(p) && IsCoded(c)
    ensures var d := c.(pieces := [p] + c.pieces);
            && IsCoded(d)
            && Encoding(d) == p.sizeLine + CRLF + p.data + CRLF + Encoding(c)
            && forall body: bytes :: body + Data(d.pieces) == body + p.data + Data(c.pieces)
  {
    hide IsPiece, IsSizeLine, IsTrailer;
    var d := c.(pieces := [p] + c.pieces);
    assert d.pieces[1..] == c.pieces;
  }

  lemma NoPieces(last: bytes, trailer: bytes)
    requires IsSizeLine(last, 0) && IsTrailer(trailer)
    ensures var c := Coded([], last, trailer);
            IsCoded(c) && Encoding(c) == last + CRLF + trailer && Data(c.pieces) == []
  {
    hide IsSizeLine, IsTrailer;
  }

  /** A buffer `b` starts with an encoding of `data` that is `n` bytes long. */
  ghost predicate StartsWithEncodingOf(b: bytes, data: bytes, n: nat) {
    exists c :: IsCoded(c) && Encoding(c) <= b && n == |Encoding(c)| && data == Data(c.pieces)
  }

  /** The decoder answers with a body exactly when the buffer starts with an
      encoding of that body and the body is within the limit. */
  lemma DecodesIff(b: bytes, maxBody: nat, data: bytes, n: nat)
    requires |b| <= USIZE_MAX && maxBody <= USIZE_MAX
    ensures ChunkedOf(b, 0, [], maxBody) == Complete(data, n) <==>
            StartsWithEncodingOf(b, data, n) && |data| <= maxBody
  {
    hide ChunkedOf, IsCoded, Encoding;
    if ChunkedOf(b, 0, [], maxBody) == Complete(data, n) {
      var c := EncodedFrom(b, 0, [], maxBody);
      assert [] + Data(c.pieces) == Data(c.pieces);
      assert b[0..n] == b[..n];
    }
    if StartsWithEncodingOf(b, data, n) && |data| <= maxBody {
      var c :| IsCoded(c) && Encoding(c) <= b && n == |Encoding(c)| && data == Data(c.pieces);
      assert b == Encoding(c) + b[n..];
      DecodeEncoding(c, b[n..], maxBody);
    }
  }

  // ------------------------------------------------ size lines that are printed

  /** Nothing, or ';' and anything that does not end the line. */
  predicate IsExtension(ext: bytes) {
    ext == [] || (ext[0] == ';' && Find(ext, CRLF).None?)
  }

  lemma PrintedSizeIsLine(hex: bytes, ext: bytes)
    requires (forall i :: 0 <= i < |hex| ==> IsNumeral(hex[i])) && IsExtension(ext)
    ensures Find(hex + ext, CRLF).None?
  {
    var line := hex + ext;
    forall j | 0 <= j ensures !MatchesAt(line, CRLF, j) {
      CrlfAt(line, j);
      if j < |hex| {
        assert IsNumeral(hex[j]);
      } else {
        CrlfAt(ext, j - |hex|);
      }
    }
  }

  /** A printed size, with any extension, is read as that size. */
  lemma PrintedSizeLine(size: nat, ext: bytes)
    requires size <= USIZE_MAX && IsExtension(ext)
    ensures IsSizeLine(Hex(size) + ext, size)
  {
    var hex := Hex(size);
    var line := hex + ext;
    PrintedSizeIsLine(hex, ext);
    forall j | 0 <= j < |hex| ensures !MatchesAt(line, ";", j) {
      assert line[j..j + 1] == [hex[j]] && IsNumeral(hex[j]);
    }
    if ext == [] {
      assert line == hex;
      assert forall j :: |hex| <= j ==> !MatchesAt(line, ";", j);
    } else {
      assert line[|hex|..|hex| + 1] == ";";
      FindIs(line, ";", |hex|);
      assert line[..|hex|] == hex;
    }
    PrintedSizeIsRead(size);
  }

  lemma PrintedSizeIsRead(size: nat)
    requires size <= USIZE_MAX
    ensures Utf8(Hex(size)) && FromStrRadix(Trim(Hex(size)), 16) == Some(size)
  {
    var hex := Hex(size);
    assert IsNumeral(hex[0]) && IsNumeral(hex[|hex| - 1]);
    TrimPrintable(hex);
    assert Ascii(hex) by {
      forall i | 0 <= i < |hex| ensures hex[i] < '\U{80}' { assert IsNumeral(hex[i]); }
    }
    AsciiIsUtf8(hex);
    ReadOfPrint(size, 16);
  }

  /** Trailer lines behind the final chunk, closed by an empty line. */
  lemma PrintedTrailer(trailers: seq<bytes>)
    requires AreLines(trailers)
    ensures IsTrailer(Lines(trailers) + CRLF)
  {
    var t := Lines(trailers) + CRLF;
    if trailers == [] {
      assert t == CRLF;
    } else {
      BlockEnd(trailers, []);
      assert t + [] == t;
      NoBlankStart(trailers, []);
    }
  }
}
