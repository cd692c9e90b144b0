/** Text made of CRLF-terminated lines: where a line and where a block of lines
    ends, and that splitting it gives the lines back. */
module TextLines {
  import opened Bytes
  import opened Parser

  lemma MatchShift(a: bytes, t: bytes, p: bytes, j: nat)
    ensures MatchesAt(a + t, p, |a| + j) == MatchesAt(t, p, j)
  {
    if j + |p| <= |t| { assert (a + t)[|a| + j..|a| + j + |p|] == t[j..j + |p|]; }
  }

  /** No match begins inside `a`: the search continues behind it. */
  lemma FindSkip(a: bytes, t: bytes, p: bytes)
    requires forall j :: 0 <= j < |a| ==> !MatchesAt(a + t, p, j)
    requires Find(t, p).Some?
    ensures Find(a + t, p) == Some(|a| + Find(t, p).value)
  {
    hide Find;
    var i := Find(t, p).value;
    MatchShift(a, t, p, i);
    forall j | 0 <= j < |a| + i ensures !MatchesAt(a + t, p, j) {
      if j >= |a| { MatchShift(a, t, p, j - |a|); }
    }
    FindIs(a + t, p, |a| + i);
  }

  predicate IsSeparator(p: bytes) { |p| == 1 || p == CRLF }

  /** A text without the separator, then the separator: that is where it is found. */
  lemma FindAfter(a: bytes, p: bytes, t: bytes)
    requires IsSeparator(p) && Find(a, p).None?
    ensures Find(a + p + t, p) == Some(|a|)
  {
    var s := a + p + t;
    assert s[|a|..|a| + |p|] == p;
    forall j | 0 <= j < |a| ensures !MatchesAt(s, p, j) {
      if j + |p| <= |a| {
        assert s[j..j + |p|] == a[j..j + |p|];
        assert !MatchesAt(a, p, j);
      } else {
        assert s[j..j + 2][1] == s[j + 1] == '\r';
      }
    }
    FindIs(s, p, |a|);
  }

  lemma SplitAfter(a: bytes, p: bytes, t: bytes)
    requires IsSeparator(p) && Find(a, p).None?
    ensures Split(a + p + t, p) == [a] + Split(t, p)
  {
    FindAfter(a, p, t);
    var s := a + p + t;
    assert s[..|a|] == a && s[|a| + |p|..] == t;
  }

  lemma {:induction false} SplitOfJoin(parts: seq<bytes>, p: bytes)
    requires IsSeparator(p) && parts != []
    requires forall i :: 0 <= i < |parts| ==> Find(parts[i], p).None?
    ensures Split(Join(parts, p), p) == parts
  {
    if |parts| > 1 {
      SplitOfJoin(parts[1..], p);
      SplitAfter(parts[0], p, Join(parts[1..], p));
    }
  }

  /** A non-empty line that does not itself contain a line end. */
  predicate IsLine(l: bytes) {
    l != [] && Find(l, CRLF).None?
  }

  predicate AreLines(ls: seq<bytes>) {
    forall i :: 0 <= i < |ls| ==> IsLine(ls[i])
  }

  function Lines(ls: seq<bytes>): bytes {
    if ls == [] then [] else ls[0] + CRLF + Lines(ls[1..])
  }

  lemma {:induction false} LinesAppend(ls: seq<bytes>, l: bytes)
    ensures Lines(ls + [l]) == Lines(ls) + l + CRLF
  {
    if ls == [] {
      assert ls + [l] == [l];
      assert Lines([l][1..]) == [];
    } else {
      LinesAppend(ls[1..], l);
      assert (ls + [l])[1..] == ls[1..] + [l];
    }
  }

  lemma {:induction false} LinesAreJoined(ls: seq<bytes>)
    requires ls != []
    ensures Lines(ls) == Join(ls, CRLF) + CRLF
  {
    if |ls| > 1 {
      LinesAreJoined(ls[1..]);
    } else {
      assert Lines(ls[1..]) == [];
    }
  }

  lemma NoBlankStart(ls: seq<bytes>, rest: bytes)
    requires AreLines(ls) && ls != []
    ensures !MatchesAt(Lines(ls) + CRLF + rest, CRLF, 0)
  {
    hide Find, MatchesAt;
    var t := Lines(ls[1..]) + CRLF + rest;
    assert Lines(ls) + CRLF + rest == ls[0] + CRLF + t;
    FindAfter(ls[0], CRLF, t);
  }

  lemma CrlfAt(s: bytes, j: nat)
    ensures MatchesAt(s, CRLF, j) <==> j + 2 <= |s| && s[j] == '\r' && s[j + 1] == '\n'
  {
    if j + 2 <= |s| { assert s[j..j + 2] == [s[j], s[j + 1]]; }
  }

  lemma BlankAt(s: bytes, j: nat)
    ensures MatchesAt(s, CRLF_CRLF, j) <==>
            j + 4 <= |s| && s[j] == '\r' && s[j + 1] == '\n' && s[j + 2] == '\r' && s[j + 3] == '\n'
  {
    if j + 4 <= |s| { assert s[j..j + 4] == [s[j], s[j + 1], s[j + 2], s[j + 3]]; }
  }

  /** No blank line begins in a line or its line end, unless the text behind it starts with a line end. */
  lemma NoBlankIn(l: bytes, t: bytes, j: nat)
    requires Find(l, CRLF).None? && j < |l| + 2 && !MatchesAt(t, CRLF, 0)
    ensures !MatchesAt(l + CRLF + t, CRLF_CRLF, j)
  {
    var s := l + CRLF + t;
    FindAfter(l, CRLF, t);
    assert j < |l| ==> !MatchesAt(s, CRLF, j);
    hide Find, MatchesAt;
    BlankAt(s, j);
    CrlfAt(s, j);
    CrlfAt(t, 0);
  }

  /** A block of lines ends at its first empty line, and nowhere before. */
  lemma {:induction false} BlockEnd(ls: seq<bytes>, rest: bytes)
    requires AreLines(ls) && ls != []
    ensures Find(Lines(ls) + CRLF + rest, CRLF_CRLF) == Some(|Lines(ls)| - 2)
  {
    hide Find, MatchesAt;
    var l, t := ls[0], Lines(ls[1..]) + CRLF + rest;
    var s := Lines(ls) + CRLF + rest;
    assert s == l + CRLF + t;
    FindAfter(l, CRLF, t);
    if |ls| == 1 {
      FirstBlank(l, rest);
      assert s == l + CRLF + CRLF + rest;
    } else {
      BlockEnd(ls[1..], rest);
      NoBlankStart(ls[1..], rest);
      forall j | 0 <= j < |l + CRLF| ensures !MatchesAt((l + CRLF) + t, CRLF_CRLF, j) {
        NoBlankIn(l, t, j);
      }
      FindSkip(l + CRLF, t, CRLF_CRLF);
    }
  }

  lemma FirstBlank(l: bytes, rest: bytes)
    requires Find(l, CRLF).None?
    ensures Find(l + CRLF + CRLF + rest, CRLF_CRLF) == Some(|l|)
  {
    hide Find;
    var s := l + CRLF + CRLF + rest;
    assert s == l + CRLF + (CRLF + rest);
    FindAfter(l, CRLF, CRLF + rest);
    assert s[|l|..|l| + 4] == CRLF_CRLF;
    forall j | 0 <= j < |l| ensures !MatchesAt(s, CRLF_CRLF, j) {
      BlankAt(s, j);
      CrlfAt(s, j);
    }
    FindIs(s, CRLF_CRLF, |l|);
  }

  lemma FindNone(s: bytes, p: bytes)
    requires |p| >= 1 && forall i :: 0 <= i < |s| ==> s[i] != p[0]
    ensures Find(s, p).None?
  {
    forall j | 0 <= j ensures !MatchesAt(s, p, j) {
      if j + |p| <= |s| { assert s[j..j + |p|][0] == s[j]; }
    }
  }

  // ------------------------------------------------------------- header lines

  const LENGTH_FIELD: bytes := "Content-Length"

  function FieldLine(h: Header): bytes {
    h.name + ":" + (" " + h.value)
  }

  function FieldLines(headers: seq<Header>): seq<bytes> {
    if headers == [] then [] else [FieldLine(headers[0])] + FieldLines(headers[1..])
  }

  lemma {:induction false} ValuesOfAppend(a: seq<Header>, b: seq<Header>, name: bytes)
    ensures ValuesOf(a + b, name) == ValuesOf(a, name) + ValuesOf(b, name)
  {
    hide EqIgnoreCase;
    if a == [] {
      assert a + b == b;
    } else {
      ValuesOfAppend(a[1..], b, name);
      assert (a + b)[1..] == a[1..] + b;
    }
  }
}
