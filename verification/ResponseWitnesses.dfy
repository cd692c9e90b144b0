/** Responses that a reader following section 3.3.3 of RFC 7230 does not read as they were meant. */
module ResponseWitnesses {
  import opened Bytes
  import opened Numbers
  import opened Parser
  import opened TextLines
  import opened Response

  const CODING_FIELD: bytes := "Transfer-Encoding"
  const FIVE: bytes := "5"
  const NINE: bytes := "9"
  const HELLO: bytes := "hello"
  const HI: bytes := "hi"

  ghost predicate MisreadAt(r: HttpResponse, now: nat, toHead: bool) {
    exists rest: bytes :: Read(Serialized(r, now) + rest, toHead) != Some(Sent(r, now))
  }

  ghost predicate Misread(r: HttpResponse, toHead: bool) {
    IsWritable(r) && forall now: nat :: MisreadAt(r, now, toHead)
  }

  lemma NotFramed(r: HttpResponse, toHead: bool)
    requires IsWritable(r) && !IsFramed(r, toHead)
    ensures Misread(r, toHead)
  {
    hide IsWritable, IsFramed, MisreadAt;
    forall now: nat ensures MisreadAt(r, now, toHead) { NotFramedAt(r, now, toHead); }
  }

  lemma NotFramedAt(r: HttpResponse, now: nat, toHead: bool)
    requires IsWritable(r) && !IsFramed(r, toHead)
    ensures MisreadAt(r, now, toHead)
  {
    hide IsWritable, IsFramed, Read, Serialized, Sent;
    SelfDelimitingIff(r, now, toHead);
  }

  lemma CleanFields()
    ensures IsClean(Header(LENGTH_FIELD, FIVE)) && IsClean(Header(LENGTH_FIELD, NINE)) && IsClean(Header(CODING_FIELD, CHUNKED))
  {}

  /** A script's `Transfer-Encoding: chunked` in front of a plain body. */
  lemma CodingMisread()
    ensures Misread(HttpResponse(StatusOk, [Header(CODING_FIELD, CHUNKED)], HELLO), false)
  {
    var h := Header(CODING_FIELD, CHUNKED);
    assert Lower(CODING_FIELD) == TRANSFER_ENCODING == Lower(TRANSFER_ENCODING);
    OneValue(h, TRANSFER_ENCODING);
    hide ValuesOf, EqIgnoreCase, IsClean, Misread, Lower;
    CleanFields();
    NotFramed(HttpResponse(StatusOk, [h], HELLO), false);
  }

  lemma FiveAnnounced(n: nat)
    requires n != 5
    ensures !AreLengths([FIVE], n) && !AreLengths([FIVE, NINE], n)
  {
    TrimPrintable(FIVE);
    assert Value(FIVE, 10) == Some(5) by {
      assert FIVE[..0] == [];
      assert Value(FIVE[..0], 10) == Some(0);
    }
    assert Find(FIVE, ",").None?;
    assert Split(FIVE, ",") == [FIVE];
    hide Trim, Value, Split;
    assert !Announces(FIVE, n);
    hide Announces;
    assert Split([FIVE][0], ",")[0] == FIVE && Split([FIVE, NINE][0], ",")[0] == FIVE;
  }

  lemma NineAnnounced(n: nat)
    requires n != 9
    ensures !AreLengths([FIVE, NINE], n)
  {
    TrimPrintable(NINE);
    assert Value(NINE, 10) == Some(9) by {
      assert NINE[..0] == [];
      assert Value(NINE[..0], 10) == Some(0);
    }
    assert Find(NINE, ",").None?;
    assert Split(NINE, ",") == [NINE];
    hide Trim, Value, Split;
    assert !Announces(NINE, n);
    hide Announces;
    assert Split([FIVE, NINE][1], ",")[0] == NINE;
  }

  lemma LengthValuesOf(a: bytes, b: bytes)
    ensures var h, i := Header(LENGTH_FIELD, a), Header(LENGTH_FIELD, b);
            ValuesOf([h], CONTENT_LENGTH) == [a] && ValuesOf([h, i], CONTENT_LENGTH) == [a, b]
  {
    AddedNames();
    var h, i := Header(LENGTH_FIELD, a), Header(LENGTH_FIELD, b);
    OneValue(h, CONTENT_LENGTH);
    OneValue(i, CONTENT_LENGTH);
    ValuesOfAppend([h], [i], CONTENT_LENGTH);
    assert [h] + [i] == [h, i];
  }

  /** A supplied length that is not the body's. */
  lemma LengthMisread()
    ensures Misread(HttpResponse(StatusOk, [Header(LENGTH_FIELD, FIVE)], HI), false)
  {
    hide ValuesOf, AreLengths, IsClean, Misread;
    CleanFields();
    LengthValuesOf(FIVE, FIVE);
    FiveAnnounced(2);
    NotFramed(HttpResponse(StatusOk, [Header(LENGTH_FIELD, FIVE)], HI), false);
  }

  /** Two supplied lengths, the first of them right. */
  lemma LengthsMisread()
    ensures Misread(HttpResponse(StatusOk, [Header(LENGTH_FIELD, FIVE), Header(LENGTH_FIELD, NINE)], HELLO), false)
  {
    hide ValuesOf, AreLengths, IsClean, Misread;
    CleanFields();
    LengthValuesOf(FIVE, NINE);
    NineAnnounced(5);
    NotFramed(HttpResponse(StatusOk, [Header(LENGTH_FIELD, FIVE), Header(LENGTH_FIELD, NINE)], HELLO), false);
  }

  /** A 204 with a body, and any response with a body to a HEAD request. */
  lemma BodiesMisread()
    ensures Misread(HttpResponse(NoContent, [], HI), false)
    ensures Misread(HttpResponse(NotFound, [], HI), true)
  {
    NotFramed(HttpResponse(NoContent, [], HI), false);
    NotFramed(HttpResponse(NotFound, [], HI), true);
  }
}
