/** The basic constraints extension (RFC 5280 section 4.2.1.9): a SEQUENCE
    of an optional BOOLEAN `cA` and an optional INTEGER
    `pathLenConstraint`, unmarshalled the way Go's `encoding/asn1` fills a
    struct whose fields are tagged `optional` and `optional,default:-1`. */
module BasicConstraints {
  import opened Common
  import opened Der
  import opened DerEncode

  /** The value of `pathLenConstraint` when the field is absent. */
  const NoPathLen: int := -1

  /** The two fields of `ExtBasicConstraints`. */
  datatype Fields = Fields(ca: bool, pathLenConstraint: int)

  /** The fields after a decode, and what it returned. The fields are kept
      even on an error: a field already filled stays filled. */
  datatype Decoded = Decoded(fields: Fields, outcome: Outcome<DecodeError>)

  /** The `CA` field read from the front of the SEQUENCE body: absent (the
      body is exhausted or the next element is not a universal primitive
      BOOLEAN) leaves `ca` as it was and reads nothing. */
  function ReadCa(body: seq<byte>, ca: bool): (r: Result<Parsed<bool>, Asn1Error>)
    ensures r.Success? ==> |r.value.rest| <= |body|
  {
    var f :- ReadOptional(body, TagBoolean, false);
    match f
    case None => Success(Parsed(ca, body))
    case Some(t) =>
      var b :- ParseBool(t.value.content);
      Success(Parsed(b, t.rest))
  }

  /** The `PathLenConstraint` field: absent gives the default -1; whatever
      follows it in the SEQUENCE is not looked at. */
  function ReadPathLen(s: seq<byte>): Result<int, Asn1Error>
  {
    var f :- ReadOptional(s, TagInteger, false);
    match f
    case None => Success(NoPathLen)
    case Some(t) => ParseInt64(t.value.content)
  }

  /** The two fields filled, in order, from the SEQUENCE body. */
  function FillFields(body: seq<byte>, prior: Fields): Decoded
  {
    match ReadCa(body, prior.ca)
    case Failure(e) => Decoded(prior, Fail(Asn1(e)))
    case Success(ca) =>
      var withCa := prior.(ca := ca.value);
      match ReadPathLen(ca.rest)
      case Failure(e) => Decoded(withCa, Fail(Asn1(e)))
      case Success(n) => Decoded(withCa.(pathLenConstraint := n), Pass)
  }

  /** `asn1.Unmarshal(data, e)` into a record holding `prior`, followed by
      the trailing-data check of `ExtBasicConstraints.Decode`. */
  function DecodeInto(data: seq<byte>, prior: Fields): (d: Decoded)
    ensures ReadExpected(data, TagSequence, true).Failure? ==>
              d == Decoded(prior, Fail(Asn1(ReadExpected(data, TagSequence, true).error)))
    ensures d.outcome == Pass ==> ReadRaw(data).Success? && ReadRaw(data).value.rest == []
                                  && ReadRaw(data).value.value.tag == TagSequence
  {
    match ReadExpected(data, TagSequence, true)
    case Failure(e) => Decoded(prior, Fail(Asn1(e)))
    case Success(sq) =>
      var filled := FillFields(sq.value.content, prior);
      if filled.outcome == Pass && |sq.rest| > 0 then Decoded(filled.fields, Fail(TrailingData))
      else filled
  }

  /** The record `ExtBasicConstraints`. */
  class ExtBasicConstraints {
    var ca: bool
    var pathLenConstraint: int

    /** The zero value, `var cs ExtBasicConstraints`. */
    constructor ()
      ensures ca == false && pathLenConstraint == 0
    {
      ca, pathLenConstraint := false, 0;
    }

    /** `ExtBasicConstraints.Decode`. */
    method Decode(data: seq<byte>) returns (err: Outcome<DecodeError>)
      modifies this
      ensures var d := DecodeInto(data, Fields(old(ca), old(pathLenConstraint)));
              Fields(ca, pathLenConstraint) == d.fields && err == d.outcome
    {
      var d := DecodeInto(data, Fields(ca, pathLenConstraint));
      ca, pathLenConstraint := d.fields.ca, d.fields.pathLenConstraint;
      return d.outcome;
    }
  }

  /** Bytes after the SEQUENCE make decoding fail, though the fields are
      filled as without them. */
  lemma TrailingBytesRejected(data: seq<byte>, extra: seq<byte>, prior: Fields)
    requires DecodeInto(data, prior).outcome == Pass && |extra| > 0
    ensures DecodeInto(data + extra, prior) == Decoded(DecodeInto(data, prior).fields, Fail(TrailingData))
  {
    ExpectedExtends(data, TagSequence, true, extra);
  }

  // ---------------------------------------------------------------------
  // A writer, and what decoding its output gives
  // ---------------------------------------------------------------------

  /** The `cA` element: present only when true (its DER default is false). */
  function EncodeCa(ca: bool): seq<byte>
  {
    if ca then Encode(Tlv(ClassUniversal, false, TagBoolean, [0xff])) else []
  }

  /** The `pathLenConstraint` element, when there is one. */
  function EncodePathLen(pathLen: Option<nat>): seq<byte>
    requires pathLen.Some? ==> pathLen.value < 0x100_0000_0000_0000
  {
    match pathLen
    case None => []
    case Some(n) =>
      UnsignedLength(n, 7);
      assert Pow256(7) == 0x100_0000_0000_0000;
      Encode(Tlv(ClassUniversal, false, TagInteger, EncodeInteger(n)))
  }

  /** The whole extension value. */
  function EncodeBasicConstraints(ca: bool, pathLen: Option<nat>): seq<byte>
    requires pathLen.Some? ==> pathLen.value < 0x100_0000_0000_0000
  {
    BodySize(ca, pathLen);
    Encode(Tlv(ClassUniversal, true, TagSequence, EncodeCa(ca) + EncodePathLen(pathLen)))
  }

  lemma BodySize(ca: bool, pathLen: Option<nat>)
    requires pathLen.Some? ==> pathLen.value < 0x100_0000_0000_0000
    ensures |EncodeCa(ca) + EncodePathLen(pathLen)| <= 20
  {
    if pathLen.Some? {
      UnsignedLength(pathLen.value, 7);
      assert Pow256(7) == 0x100_0000_0000_0000;
    }
  }

  /** The path length: the written one, else -1. */
  function PathLenOf(pathLen: Option<nat>): int
  {
    match pathLen
    case None => NoPathLen
    case Some(n) => n
  }

  /** Reading the `CA` field of a written body. */
  lemma ReadCaOfEncoded(ca: bool, pathLen: Option<nat>, prior: bool)
    requires pathLen.Some? ==> pathLen.value < 0x100_0000_0000_0000
    ensures ReadCa(EncodeCa(ca) + EncodePathLen(pathLen), prior)
         == Success(Parsed(ca || prior, EncodePathLen(pathLen)))
  {
    var rest := EncodePathLen(pathLen);
    if ca {
      OptionalRoundTrip(Tlv(ClassUniversal, false, TagBoolean, [0xff]), rest);
    } else {
      assert EncodeCa(ca) + rest == rest;
      if pathLen.Some? {
        var n := pathLen.value;
        UnsignedLength(n, 7);
        assert Pow256(7) == 0x100_0000_0000_0000;
        OptionalMismatch(Tlv(ClassUniversal, false, TagInteger, EncodeInteger(n)), [], TagBoolean, false);
        assert rest + [] == rest;
      }
    }
  }

  /** Reading the `PathLenConstraint` field of a written tail. */
  lemma ReadPathLenOfEncoded(pathLen: Option<nat>)
    requires pathLen.Some? ==> pathLen.value < 0x100_0000_0000_0000
    ensures ReadPathLen(EncodePathLen(pathLen)) == Success(PathLenOf(pathLen))
  {
    if pathLen.Some? {
      var n := pathLen.value;
      UnsignedLength(n, 7);
      assert Pow256(7) == 0x100_0000_0000_0000;
      var t := Tlv(ClassUniversal, false, TagInteger, EncodeInteger(n));
      OptionalRoundTrip(t, []);
      assert Encode(t) + [] == Encode(t);
      IntegerRoundTrip(n);
    }
  }

  /** Decoding a written value succeeds: `CA` is set when written true and
      otherwise keeps the record's value; the path length is the written
      one, or -1 when none was written. */
  lemma BasicConstraintsRoundTrip(ca: bool, pathLen: Option<nat>, prior: Fields)
    requires pathLen.Some? ==> pathLen.value < 0x100_0000_0000_0000
    ensures DecodeInto(EncodeBasicConstraints(ca, pathLen), prior)
         == Decoded(Fields(ca || prior.ca, PathLenOf(pathLen)), Pass)
  {
    var body := EncodeCa(ca) + EncodePathLen(pathLen);
    var data := EncodeBasicConstraints(ca, pathLen);
    var sq := Tlv(ClassUniversal, true, TagSequence, body);
    BodySize(ca, pathLen);
    ExpectedRoundTrip(sq, []);
    assert data + [] == data;
    ReadCaOfEncoded(ca, pathLen, prior.ca);
    ReadPathLenOfEncoded(pathLen);
  }

  /** Into a zero record, an absent `cA` decodes as false and an absent
      path length as -1, while an explicit 0 stays 0, distinct from -1. */
  lemma AbsentAndZeroPathLen(ca: bool)
    ensures DecodeInto(EncodeBasicConstraints(ca, None), Fields(false, 0)) == Decoded(Fields(ca, -1), Pass)
    ensures DecodeInto(EncodeBasicConstraints(ca, Some(0)), Fields(false, 0)) == Decoded(Fields(ca, 0), Pass)
  {
    BasicConstraintsRoundTrip(ca, None, Fields(false, 0));
    BasicConstraintsRoundTrip(ca, Some(0), Fields(false, 0));
  }
}
