/** The subject alternative name extension (RFC 5280 section 4.2.1.6): a
    universal SEQUENCE of GeneralName elements, of which the decoder keeps
    four kinds, each appended to its own list. */
module SubjectAltName {
  import opened Common
  import opened Der
  import opened DerEncode

  /** The GeneralName tag numbers the decoder accepts. */
  const TagRfc822Name: nat := 1
  const TagDnsName: nat := 2
  const TagUri: nat := 6
  const TagIpAddress: nat := 7

  /** The four lists of an `ExtSubjectAltName`. */
  datatype Lists = Lists(uris: seq<Uri>, dnsNames: seq<string>, ipAddresses: seq<IpAddress>,
                         emailAddresses: seq<string>)

  /** The lists after a decode, and what it returned. */
  datatype Decoded = Decoded(lists: Lists, outcome: Outcome<DecodeError>)

  /** One GeneralName element added to the lists; only its tag number is
      looked at, not its class or form. */
  function Step(l: Lists, t: Tlv, parseUri: UriParser): Result<Lists, DecodeError>
  {
    if t.tag == TagRfc822Name then
      Success(l.(emailAddresses := l.emailAddresses + [BytesToString(t.content)]))
    else if t.tag == TagDnsName then
      Success(l.(dnsNames := l.dnsNames + [BytesToString(t.content)]))
    else if t.tag == TagUri then
      match parseUri(BytesToString(t.content))
      case None => Failure(InvalidUri(BytesToString(t.content)))
      case Some(u) => Success(l.(uris := l.uris + [u]))
    else if t.tag == TagIpAddress then
      if |t.content| == 4 || |t.content| == 16 then Success(l.(ipAddresses := l.ipAddresses + [t.content]))
      else Failure(InvalidIpAddress(t.content))
    else Failure(UnknownTag(t.tag))
  }

  /** The element loop over the SEQUENCE body: one whole element per step,
      until the body is exhausted or a step fails; what was appended before
      a failure stays. */
  function DecodeBody(body: seq<byte>, l: Lists, parseUri: UriParser): Decoded
    decreases |body|
  {
    if |body| == 0 then Decoded(l, Pass)
    else
      match ReadRaw(body)
      case Failure(e) => Decoded(l, Fail(Asn1(e)))
      case Success(p) =>
        match Step(l, p.value, parseUri)
        case Failure(e) => Decoded(l, Fail(e))
        case Success(l') => DecodeBody(p.rest, l', parseUri)
  }

  /** `ExtSubjectAltName.Decode` from lists `l`: one element with nothing
      after it, that must be compound, a SEQUENCE and universal, checked in
      that order, and then its body. */
  function DecodeSan(data: seq<byte>, l: Lists, parseUri: UriParser): (d: Decoded)
    ensures ReadRaw(data).Failure? ==> d == Decoded(l, Fail(Asn1(ReadRaw(data).error)))
    ensures d.outcome == Pass ==>
              ReadRaw(data).Success? && ReadRaw(data).value.rest == []
              && ReadRaw(data).value.value.compound && ReadRaw(data).value.value.tag == TagSequence
              && ReadRaw(data).value.value.cls == ClassUniversal
  {
    match ReadRaw(data)
    case Failure(e) => Decoded(l, Fail(Asn1(e)))
    case Success(p) =>
      if |p.rest| > 0 then Decoded(l, Fail(TrailingData))
      else if !p.value.compound then Decoded(l, Fail(NotCompound))
      else if p.value.tag != TagSequence then Decoded(l, Fail(NotSequence))
      else if p.value.cls != ClassUniversal then Decoded(l, Fail(NotUniversal))
      else DecodeBody(p.value.content, l, parseUri)
  }

  /** The record `ExtSubjectAltName`. */
  class ExtSubjectAltName {
    var uris: seq<Uri>
    var dnsNames: seq<string>
    var ipAddresses: seq<IpAddress>
    var emailAddresses: seq<string>

    function Contents(): Lists
      reads this
    {
      Lists(uris, dnsNames, ipAddresses, emailAddresses)
    }

    /** The zero value. */
    constructor ()
      ensures Contents() == Lists([], [], [], [])
    {
      uris, dnsNames, ipAddresses, emailAddresses := [], [], [], [];
    }

    /** `ExtSubjectAltName.Decode`. */
    method Decode(data: seq<byte>, parseUri: UriParser) returns (err: Outcome<DecodeError>)
      modifies this
      ensures Contents() == DecodeSan(data, old(Contents()), parseUri).lists
      ensures err == DecodeSan(data, old(Contents()), parseUri).outcome
    {
      var raw := ReadRaw(data);
      if raw.Failure? {
        return Fail(Asn1(raw.error));
      }
      if |raw.value.rest| > 0 {
        return Fail(TrailingData);
      }
      var seqValue := raw.value.value;
      if !seqValue.compound {
        return Fail(NotCompound);
      }
      if seqValue.tag != TagSequence {
        return Fail(NotSequence);
      }
      if seqValue.cls != ClassUniversal {
        return Fail(NotUniversal);
      }
      var seqData := seqValue.content;
      while |seqData| > 0
        invariant DecodeBody(seqData, Contents(), parseUri) == DecodeBody(seqValue.content, old(Contents()), parseUri)
        decreases |seqData|
      {
        var value := ReadRaw(seqData);
        if value.Failure? {
          return Fail(Asn1(value.error));
        }
        err := AddName(value.value.value, parseUri);
        if err.Fail? {
          return err;
        }
        seqData := value.value.rest;
      }
      return Pass;
    }

    /** The switch on the tag number of one element: appends its name to
        the list of its kind, or fails and changes nothing. */
    method AddName(t: Tlv, parseUri: UriParser) returns (err: Outcome<DecodeError>)
      modifies this
      ensures Step(old(Contents()), t, parseUri).Success? ==>
                err == Pass && Contents() == Step(old(Contents()), t, parseUri).value
      ensures Step(old(Contents()), t, parseUri).Failure? ==>
                err == Fail(Step(old(Contents()), t, parseUri).error) && Contents() == old(Contents())
    {
      if t.tag == TagRfc822Name {
        emailAddresses := emailAddresses + [BytesToString(t.content)];
      } else if t.tag == TagDnsName {
        dnsNames := dnsNames + [BytesToString(t.content)];
      } else if t.tag == TagUri {
        var uri := parseUri(BytesToString(t.content));
        if uri.None? {
          return Fail(InvalidUri(BytesToString(t.content)));
        }
        uris := uris + [uri.value];
      } else if t.tag == TagIpAddress {
        if |t.content| != 4 && |t.content| != 16 {
          return Fail(InvalidIpAddress(t.content));
        }
        ipAddresses := ipAddresses + [t.content];
      } else {
        return Fail(UnknownTag(t.tag));
      }
      return Pass;
    }
  }

  // ---------------------------------------------------------------------
  // The element loop over a list of elements
  // ---------------------------------------------------------------------

  /** The loop run over the elements `ts` themselves. */
  function ApplyNames(l: Lists, ts: seq<Tlv>, parseUri: UriParser): Decoded
    decreases |ts|
  {
    if |ts| == 0 then Decoded(l, Pass)
    else
      match Step(l, ts[0], parseUri)
      case Failure(e) => Decoded(l, Fail(e))
      case Success(l') => ApplyNames(l', ts[1..], parseUri)
  }

  /** The elements `Step` takes. */
  predicate Accepted(t: Tlv, parseUri: UriParser)
  {
    t.tag == TagRfc822Name || t.tag == TagDnsName
    || (t.tag == TagUri && parseUri(BytesToString(t.content)).Some?)
    || (t.tag == TagIpAddress && (|t.content| == 4 || |t.content| == 16))
  }

  /** The error `Step` reports for an element it does not take. */
  function Rejection(t: Tlv): DecodeError
  {
    if t.tag == TagUri then InvalidUri(BytesToString(t.content))
    else if t.tag == TagIpAddress then InvalidIpAddress(t.content)
    else UnknownTag(t.tag)
  }

  /** The e-mail addresses among `ts`, in order, duplicates kept. */
  function Emails(ts: seq<Tlv>): seq<string>
  {
    if |ts| == 0 then []
    else (if ts[0].tag == TagRfc822Name then [BytesToString(ts[0].content)] else []) + Emails(ts[1..])
  }

  /** The DNS names among `ts`, in order, duplicates kept. */
  function DnsNames(ts: seq<Tlv>): seq<string>
  {
    if |ts| == 0 then []
    else (if ts[0].tag == TagDnsName then [BytesToString(ts[0].content)] else []) + DnsNames(ts[1..])
  }

  /** The IP addresses among `ts`, in order, duplicates kept. */
  function IpAddresses(ts: seq<Tlv>): seq<IpAddress>
  {
    if |ts| == 0 then []
    else (if ts[0].tag == TagIpAddress then [ts[0].content] else []) + IpAddresses(ts[1..])
  }

  /** The parsed URIs among `ts`, in order, duplicates kept. */
  function Uris(ts: seq<Tlv>, parseUri: UriParser): seq<Uri>
  {
    if |ts| == 0 then []
    else
      (if ts[0].tag == TagUri && parseUri(BytesToString(ts[0].content)).Some?
       then [parseUri(BytesToString(ts[0].content)).value] else [])
      + Uris(ts[1..], parseUri)
  }

  /** `l` with the names of `ts` appended to each list. */
  function Appended(l: Lists, ts: seq<Tlv>, parseUri: UriParser): Lists
  {
    Lists(l.uris + Uris(ts, parseUri), l.dnsNames + DnsNames(ts),
          l.ipAddresses + IpAddresses(ts), l.emailAddresses + Emails(ts))
  }

  /** One accepted element appends exactly its own name to its own list. */
  lemma StepAccepted(l: Lists, t: Tlv, parseUri: UriParser)
    requires Accepted(t, parseUri)
    ensures Step(l, t, parseUri) == Success(Appended(l, [t], parseUri))
  {
    Single(t, parseUri);
    assert l.uris + [] == l.uris && l.dnsNames + [] == l.dnsNames;
    assert l.ipAddresses + [] == l.ipAddresses && l.emailAddresses + [] == l.emailAddresses;
  }

  /** The names of one element. */
  lemma Single(t: Tlv, parseUri: UriParser)
    ensures Emails([t]) == if t.tag == TagRfc822Name then [BytesToString(t.content)] else []
    ensures DnsNames([t]) == if t.tag == TagDnsName then [BytesToString(t.content)] else []
    ensures IpAddresses([t]) == if t.tag == TagIpAddress then [t.content] else []
    ensures Uris([t], parseUri) == if t.tag == TagUri && parseUri(BytesToString(t.content)).Some?
                                   then [parseUri(BytesToString(t.content)).value] else []
  {
    assert [t][1..] == [];
  }

  /** An element that is not accepted fails the step with its error. */
  lemma StepRejected(l: Lists, t: Tlv, parseUri: UriParser)
    requires !Accepted(t, parseUri)
    ensures Step(l, t, parseUri) == Failure(Rejection(t))
  {
  }

  /** The step does not look at the class or the form of an element. */
  lemma StepIgnoresClass(l: Lists, t: Tlv, cls: nat, compound: bool, parseUri: UriParser)
    ensures Step(l, t, parseUri) == Step(l, Tlv(cls, compound, t.tag, t.content), parseUri)
  {
  }

  /** Each filter of a non-empty list is the filter of its head, then
      of its tail. */
  lemma FiltersCons(ts: seq<Tlv>, parseUri: UriParser)
    requires |ts| > 0
    ensures Emails(ts) == Emails([ts[0]]) + Emails(ts[1..])
    ensures DnsNames(ts) == DnsNames([ts[0]]) + DnsNames(ts[1..])
    ensures IpAddresses(ts) == IpAddresses([ts[0]]) + IpAddresses(ts[1..])
    ensures Uris(ts, parseUri) == Uris([ts[0]], parseUri) + Uris(ts[1..], parseUri)
  {
    Single(ts[0], parseUri);
  }

  /** Appending a non-empty list is appending its head, then its tail. */
  lemma AppendedCons(l: Lists, ts: seq<Tlv>, parseUri: UriParser)
    requires |ts| > 0
    ensures Appended(l, ts, parseUri) == Appended(Appended(l, [ts[0]], parseUri), ts[1..], parseUri)
  {
    FiltersCons(ts, parseUri);
    var h, r := [ts[0]], ts[1..];
    Associative(l.uris, Uris(h, parseUri), Uris(r, parseUri));
    Associative(l.dnsNames, DnsNames(h), DnsNames(r));
    Associative(l.ipAddresses, IpAddresses(h), IpAddresses(r));
    Associative(l.emailAddresses, Emails(h), Emails(r));
  }

  /** When every element is accepted, the loop appends every name to its
      list, in order, and succeeds. */
  lemma {:induction false} ApplyAccepted(l: Lists, ts: seq<Tlv>, parseUri: UriParser)
    requires forall i :: 0 <= i < |ts| ==> Accepted(ts[i], parseUri)
    ensures ApplyNames(l, ts, parseUri) == Decoded(Appended(l, ts, parseUri), Pass)
    decreases |ts|
  {
    if |ts| == 0 {
      assert Appended(l, ts, parseUri) == l;
    } else {
      StepAccepted(l, ts[0], parseUri);
      ApplyAccepted(Appended(l, [ts[0]], parseUri), ts[1..], parseUri);
      AppendedCons(l, ts, parseUri);
    }
  }

  /** The first element that is not accepted ends the loop with its error;
      the names of the elements before it stay appended. */
  lemma {:induction false} ApplyFirstRejected(l: Lists, ts: seq<Tlv>, k: nat, parseUri: UriParser)
    requires k < |ts| && !Accepted(ts[k], parseUri)
    requires forall i :: 0 <= i < k ==> Accepted(ts[i], parseUri)
    ensures ApplyNames(l, ts, parseUri) == Decoded(Appended(l, ts[..k], parseUri), Fail(Rejection(ts[k])))
    decreases k
  {
    if k == 0 {
      StepRejected(l, ts[0], parseUri);
      assert Appended(l, ts[..0], parseUri) == l;
    } else {
      StepAccepted(l, ts[0], parseUri);
      ApplyFirstRejected(Appended(l, [ts[0]], parseUri), ts[1..], k - 1, parseUri);
      assert ts[1..][..k - 1] == ts[..k][1..];
      AppendedCons(l, ts[..k], parseUri);
    }
  }

  // ---------------------------------------------------------------------
  // What decoding a written extension gives
  // ---------------------------------------------------------------------

  /** The loop over written elements is the loop over the elements. */
  lemma {:induction false} BodyRoundTrip(ts: seq<Tlv>, l: Lists, parseUri: UriParser)
    requires forall i :: 0 <= i < |ts| ==> Encodable(ts[i])
    ensures DecodeBody(EncodeAll(ts), l, parseUri) == ApplyNames(l, ts, parseUri)
    decreases |ts|
  {
    if |ts| > 0 {
      RawRoundTrip(ts[0], EncodeAll(ts[1..]));
      match Step(l, ts[0], parseUri)
      case Failure(e) =>
      case Success(l') => BodyRoundTrip(ts[1..], l', parseUri);
    }
  }

  /** The whole extension value around written elements. */
  function EncodeSan(ts: seq<Tlv>): seq<byte>
    requires forall i :: 0 <= i < |ts| ==> Encodable(ts[i])
    requires |EncodeAll(ts)| < 0x100_0000
  {
    Encode(Tlv(ClassUniversal, true, TagSequence, EncodeAll(ts)))
  }

  /** Decoding a written extension runs the loop over its elements. */
  lemma SanRoundTrip(ts: seq<Tlv>, l: Lists, parseUri: UriParser)
    requires forall i :: 0 <= i < |ts| ==> Encodable(ts[i])
    requires |EncodeAll(ts)| < 0x100_0000
    ensures DecodeSan(EncodeSan(ts), l, parseUri) == ApplyNames(l, ts, parseUri)
  {
    var sq := Tlv(ClassUniversal, true, TagSequence, EncodeAll(ts));
    RawRoundTrip(sq, []);
    assert Encode(sq) + [] == Encode(sq);
    BodyRoundTrip(ts, l, parseUri);
  }

  /** Bytes after the SEQUENCE make decoding fail and change nothing. */
  lemma TrailingBytesRejected(data: seq<byte>, extra: seq<byte>, l: Lists, parseUri: UriParser)
    requires ReadRaw(data).Success? && ReadRaw(data).value.rest == [] && |extra| > 0
    ensures DecodeSan(data + extra, l, parseUri) == Decoded(l, Fail(TrailingData))
  {
    RawExtends(data, extra);
  }

  /** A malformed or truncated element in the body fails the decode with
      the reader's error, after the names before it were appended. */
  lemma MalformedElement(body: seq<byte>, l: Lists, parseUri: UriParser)
    requires |body| > 0 && ReadRaw(body).Failure?
    ensures DecodeBody(body, l, parseUri) == Decoded(l, Fail(Asn1(ReadRaw(body).error)))
  {
  }
}
