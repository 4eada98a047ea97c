/** The subset of a DER reader (ITU-T X.690) that the four extension decoders
    need, written to behave as Go's `encoding/asn1.Unmarshal` does for the
    Go types the decoders unmarshal into: `asn1.RawValue`, `asn1.BitString`,
    `[]asn1.ObjectIdentifier` and a struct of an optional `bool` and an
    optional `int`.

    Identifier octets follow X.690 section 8.1.2, lengths section 8.1.3
    (definite form only, as DER requires), bit strings section 8.6, integers
    section 8.3, booleans section 11.1 and object identifiers section 8.19. */
module Der {
  import opened Common

  /** The errors `encoding/asn1` reports, one per distinct check. */
  datatype Asn1Error =
    | SequenceTruncated        // nothing left where a mandatory value is due
    | TruncatedHeader          // identifier or length octets run past the end
    | TruncatedBase128         // a base-128 number runs past the end
    | Base128TooLarge          // more than five octets, or above MaxInt32
    | Base128NotMinimal        // a base-128 number that starts with 0x80
    | NonMinimalTag            // high-tag form used for a tag below 31
    | IndefiniteLength         // length octet 0x80, not allowed in DER
    | LengthTooLarge           // a long-form length that would overflow
    | LengthLeadingZero        // a long-form length with a leading zero octet
    | NonMinimalLength         // long form used for a length below 128
    | DataTruncated            // the contents run past the end
    | TagMismatch              // not the class, tag and form the Go type needs
    | EmptyBitString
    | InvalidPaddingBits
    | InvalidBoolean
    | EmptyInteger
    | NonMinimalInteger
    | IntegerTooLarge
    | EmptyOid
    | SequenceTagMismatch      // an element of a SEQUENCE OF of the wrong kind
    | TruncatedSequence        // an element of a SEQUENCE OF runs past the end

  /** Why an extension decoder rejected its payload. */
  datatype DecodeError =
    | Asn1(cause: Asn1Error)
    | TrailingData
    | NotCompound
    | NotSequence
    | NotUniversal
    | UnknownTag(tag: nat)
    | InvalidUri(uri: string)
    | InvalidIpAddress(data: seq<byte>)

  const ClassUniversal: nat := 0
  const TagBoolean: nat := 1
  const TagInteger: nat := 2
  const TagBitString: nat := 3
  const TagOid: nat := 6
  const TagSequence: nat := 16

  /** The identifier and length octets of one element. */
  datatype Header = Header(cls: nat, compound: bool, tag: nat, length: nat)

  /** One whole element: what Go's `asn1.RawValue` keeps of it. */
  datatype Tlv = Tlv(cls: nat, compound: bool, tag: nat, content: seq<byte>)

  /** A value read from the front of the input, and the input after it. */
  datatype Parsed<+T> = Parsed(value: T, rest: seq<byte>)

  /** Tags the Go decoders' errors with the decoder-level wrapper. */
  function Lift<T>(r: Result<T, Asn1Error>): (l: Result<T, DecodeError>)
    ensures l.Success? <==> r.Success?
    ensures r.Success? ==> l.value == r.value
    ensures r.Failure? ==> l.error == Asn1(r.error)
  {
    match r
    case Success(v) => Success(v)
    case Failure(e) => Failure(Asn1(e))
  }

  // ---------------------------------------------------------------------
  // Identifier and length octets (X.690 sections 8.1.2 and 8.1.3)
  // ---------------------------------------------------------------------

  /** Go's `parseBase128Int`: `shifted` octets seen so far, value `acc`. */
  function Base128From(s: seq<byte>, shifted: nat, acc: nat): (r: Result<Parsed<nat>, Asn1Error>)
    requires shifted <= 5
    ensures r.Success? ==> |r.value.rest| < |s| && r.value.value <= MaxInt32
    decreases |s|
  {
    if |s| == 0 then Failure(TruncatedBase128)
    else if shifted == 5 then Failure(Base128TooLarge)
    else if shifted == 0 && s[0] == 0x80 then Failure(Base128NotMinimal)
    else
      var acc' := acc * 128 + s[0] % 128;
      if s[0] < 128 then
        if acc' > MaxInt32 then Failure(Base128TooLarge) else Success(Parsed(acc', s[1..]))
      else
        var r := Base128From(s[1..], shifted + 1, acc');
        r
  }

  /** One base-128 number (X.690 section 8.1.2.4.2 and 8.19.2). */
  function Base128(s: seq<byte>): (r: Result<Parsed<nat>, Asn1Error>)
    ensures r.Success? ==> |r.value.rest| < |s| && r.value.value <= MaxInt32
    ensures r.Success? ==> r.value.rest == s[|s| - |r.value.rest|..]
  {
    Base128FromSuffix(s, 0, 0);
    Base128From(s, 0, 0)
  }

  /** What follows a base-128 number is a suffix of the input. */
  lemma {:induction false} Base128FromSuffix(s: seq<byte>, shifted: nat, acc: nat)
    requires shifted <= 5
    ensures var r := Base128From(s, shifted, acc);
      r.Success? ==> r.value.rest == s[|s| - |r.value.rest|..]
    decreases |s|
  {
    if |s| > 0 && shifted < 5 && s[0] >= 128 {
      Base128FromSuffix(s[1..], shifted + 1, acc * 128 + s[0] % 128);
    }
  }

  /** The tag number: the low five bits of the identifier octet, or the
      base-128 number after it when those bits are all one. */
  function TagNumber(low: nat, s: seq<byte>): (r: Result<Parsed<nat>, Asn1Error>)
    ensures r.Success? ==> |r.value.rest| <= |s| && r.value.rest == s[|s| - |r.value.rest|..]
  {
    if low != 31 then Success(Parsed(low, s))
    else
      var t :- Base128(s);
      if t.value < 31 then Failure(NonMinimalTag) else Success(t)
  }

  /** The octets of a long-form length: `n` still to read, value `acc`. */
  function LongLength(s: seq<byte>, n: nat, acc: nat): (r: Result<Parsed<nat>, Asn1Error>)
    ensures r.Success? ==> |r.value.rest| <= |s| && r.value.rest == s[|s| - |r.value.rest|..]
    ensures r.Success? ==> r.value.value >= 128
    decreases n
  {
    if n == 0 then
      if acc < 0x80 then Failure(NonMinimalLength) else Success(Parsed(acc, s))
    else if |s| == 0 then Failure(TruncatedHeader)
    else if acc >= 0x80_0000 then Failure(LengthTooLarge)
    else
      var acc' := acc * 256 + s[0];
      if acc' == 0 then Failure(LengthLeadingZero)
      else
        var r := LongLength(s[1..], n - 1, acc');
        r
  }

  /** The length: short form below 128, otherwise the number of length
      octets that follow; 0x80 (indefinite) is refused. */
  function Length(first: byte, s: seq<byte>): (r: Result<Parsed<nat>, Asn1Error>)
    ensures r.Success? ==> |r.value.rest| <= |s| && r.value.rest == s[|s| - |r.value.rest|..]
  {
    if first < 128 then Success(Parsed(first, s))
    else if first == 128 then Failure(IndefiniteLength)
    else LongLength(s, first - 128, 0)
  }

  /** Go's `parseTagAndLength`: the header at the front of `s`. */
  function ReadHeader(s: seq<byte>): (r: Result<Parsed<Header>, Asn1Error>)
    ensures r.Success? ==> |r.value.rest| + 2 <= |s|
    ensures r.Success? ==> r.value.rest == s[|s| - |r.value.rest|..]
    ensures r.Success? ==> r.value.value.cls < 4
  {
    if |s| == 0 then Failure(TruncatedHeader)
    else
      var b := s[0];
      var t :- TagNumber(b % 32, s[1..]);
      if |t.rest| == 0 then Failure(TruncatedHeader)
      else
        var l :- Length(t.rest[0], t.rest[1..]);
        Success(Parsed(Header(b / 64, (b / 32) % 2 == 1, t.value, l.value), l.rest))
  }

  /** The contents an already read header announces, if they are all there. */
  function Contents(h: Parsed<Header>): (r: Result<Parsed<Tlv>, Asn1Error>)
    ensures r.Success? ==> r.value.value.content + r.value.rest == h.rest
    ensures r.Success? ==> |r.value.value.content| == h.value.length
    ensures r.Success? ==> r.value.value.cls == h.value.cls && r.value.value.tag == h.value.tag
                           && r.value.value.compound == h.value.compound
    ensures r.Failure? <==> h.value.length > |h.rest|
  {
    if h.value.length > |h.rest| then Failure(DataTruncated)
    else
      var n := h.value.length;
      assert h.rest[..n] + h.rest[n..] == h.rest;
      Success(Parsed(Tlv(h.value.cls, h.value.compound, h.value.tag, h.rest[..n]), h.rest[n..]))
  }

  /** `asn1.Unmarshal` into an `asn1.RawValue`: any one element. */
  function ReadRaw(s: seq<byte>): (r: Result<Parsed<Tlv>, Asn1Error>)
    ensures r.Success? ==> |r.value.rest| + 2 <= |s|
    ensures r.Success? ==> r.value.rest == s[|s| - |r.value.rest|..]
  {
    if |s| == 0 then Failure(SequenceTruncated)
    else
      var h :- ReadHeader(s);
      Contents(h)
  }

  /** `r'` is what `r` becomes when `e` follows the input: the same value,
      with `e` after the rest. */
  predicate Extends<T(==)>(r: Result<Parsed<T>, Asn1Error>, r': Result<Parsed<T>, Asn1Error>, e: seq<byte>)
  {
    r.Success? ==> r' == Success(Parsed(r.value.value, r.value.rest + e))
  }

  lemma {:induction false} Base128FromExtends(s: seq<byte>, shifted: nat, acc: nat, e: seq<byte>)
    requires shifted <= 5
    ensures Extends(Base128From(s, shifted, acc), Base128From(s + e, shifted, acc), e)
    decreases |s|
  {
    if |s| > 0 {
      assert (s + e)[0] == s[0] && (s + e)[1..] == s[1..] + e;
      if shifted < 5 && s[0] >= 128 {
        Base128FromExtends(s[1..], shifted + 1, acc * 128 + s[0] % 128, e);
      }
    }
  }

  lemma {:induction false} LongLengthExtends(s: seq<byte>, n: nat, acc: nat, e: seq<byte>)
    ensures Extends(LongLength(s, n, acc), LongLength(s + e, n, acc), e)
    decreases n
  {
    if n > 0 && |s| > 0 {
      assert (s + e)[0] == s[0] && (s + e)[1..] == s[1..] + e;
      LongLengthExtends(s[1..], n - 1, acc * 256 + s[0], e);
    }
  }

  lemma TagNumberExtends(low: nat, s: seq<byte>, e: seq<byte>)
    ensures Extends(TagNumber(low, s), TagNumber(low, s + e), e)
  {
    if low == 31 {
      Base128FromExtends(s, 0, 0, e);
    }
  }

  lemma LengthExtends(first: byte, s: seq<byte>, e: seq<byte>)
    ensures Extends(Length(first, s), Length(first, s + e), e)
  {
    if first > 128 {
      LongLengthExtends(s, first - 128, 0, e);
    }
  }

  /** Dropping from the front of `s + e` drops from `s`. */
  lemma DropAppend(s: seq<byte>, e: seq<byte>, k: nat)
    requires k <= |s|
    ensures (s + e)[k..] == s[k..] + e
  {
  }

  /** Bytes after a header do not change how it reads. */
  lemma HeaderExtends(s: seq<byte>, e: seq<byte>)
    ensures Extends(ReadHeader(s), ReadHeader(s + e), e)
  {
    if ReadHeader(s).Success? {
      var s' := s + e;
      var b := s[0];
      DropAppend(s, e, 1);
      TagNumberExtends(b % 32, s[1..], e);
      var t := TagNumber(b % 32, s[1..]).value;
      var t' := TagNumber(b % 32, s'[1..]).value;
      assert t' == Parsed(t.value, t.rest + e);
      DropAppend(t.rest, e, 1);
      LengthExtends(t.rest[0], t.rest[1..], e);
      var l := Length(t.rest[0], t.rest[1..]).value;
      assert ReadHeader(s).value == Parsed(Header(b / 64, (b / 32) % 2 == 1, t.value, l.value), l.rest);
    }
  }

  lemma ContentsExtends(h: Parsed<Header>, e: seq<byte>)
    ensures Extends(Contents(h), Contents(Parsed(h.value, h.rest + e)), e)
  {
    var n := h.value.length;
    if n <= |h.rest| {
      assert (h.rest + e)[..n] == h.rest[..n] && (h.rest + e)[n..] == h.rest[n..] + e;
    }
  }

  /** Bytes after an element do not change how it reads. */
  lemma RawExtends(s: seq<byte>, e: seq<byte>)
    ensures Extends(ReadRaw(s), ReadRaw(s + e), e)
  {
    HeaderExtends(s, e);
    if ReadRaw(s).Success? {
      ContentsExtends(ReadHeader(s).value, e);
    }
  }

  /** Bytes after a mandatory value do not change how it reads. */
  lemma ExpectedExtends(s: seq<byte>, tag: nat, compound: bool, e: seq<byte>)
    ensures Extends(ReadExpected(s, tag, compound), ReadExpected(s + e, tag, compound), e)
  {
    HeaderExtends(s, e);
    if ReadExpected(s, tag, compound).Success? {
      ContentsExtends(ReadHeader(s).value, e);
    }
  }

  /** Whether a header is of the universal class with the given tag and form. */
  predicate Matches(h: Header, tag: nat, compound: bool)
  {
    h.cls == ClassUniversal && h.tag == tag && h.compound == compound
  }

  /** `asn1.Unmarshal` of a mandatory value: the header must match the Go
      type's universal tag and form, checked before the length. */
  function ReadExpected(s: seq<byte>, tag: nat, compound: bool): (r: Result<Parsed<Tlv>, Asn1Error>)
    ensures r.Success? ==> |r.value.rest| + 2 <= |s|
    ensures r.Success? ==> r.value.value.cls == ClassUniversal && r.value.value.tag == tag
                           && r.value.value.compound == compound
    ensures r.Success? ==> r == ReadRaw(s)
  {
    if |s| == 0 then Failure(SequenceTruncated)
    else
      var h :- ReadHeader(s);
      if !Matches(h.value, tag, compound) then Failure(TagMismatch) else Contents(h)
  }

  /** A struct field tagged `asn1:"optional"`: `None` when the input is
      exhausted or the next header is of another kind, in which case the
      next field is read from the same position. */
  function ReadOptional(s: seq<byte>, tag: nat, compound: bool): (r: Result<Option<Parsed<Tlv>>, Asn1Error>)
    ensures r.Success? && r.value.Some? ==> |r.value.value.rest| + 2 <= |s|
  {
    if |s| == 0 then Success(None)
    else
      var h :- ReadHeader(s);
      if !Matches(h.value, tag, compound) then Success(None)
      else
        var t :- Contents(h);
        Success(Some(t))
  }

  // ---------------------------------------------------------------------
  // Primitive contents
  // ---------------------------------------------------------------------

  /** Go's `asn1.BitString`. */
  datatype BitString = BitString(bytes: seq<byte>, bitLength: int)

  predicate WellFormed(b: BitString)
  {
    0 <= b.bitLength <= 8 * |b.bytes|
  }

  /** `x >> n` on a non-negative number. */
  function ShiftRight(x: nat, n: nat): nat
  {
    if n == 0 then x else ShiftRight(x / 2, n - 1)
  }

  /** `x & (1 << n - 1) == 0`: the low `n` bits of `x` are all clear. */
  predicate LowBitsClear(x: nat, n: nat)
  {
    n == 0 || (x % 2 == 0 && LowBitsClear(x / 2, n - 1))
  }

  /** Go's `parseBitString` (X.690 section 8.6.2): the first octet counts
      the unused bits of the last one, which must all be zero. */
  function ParseBitString(c: seq<byte>): (r: Result<BitString, Asn1Error>)
    ensures r.Success? ==> WellFormed(r.value)
    ensures r.Success? ==> |c| >= 1 && r.value.bytes == c[1..] && r.value.bitLength == 8 * (|c| - 1) - c[0]
  {
    if |c| == 0 then Failure(EmptyBitString)
    else
      var pad := c[0];
      if pad > 7 || (|c| == 1 && pad > 0) || !LowBitsClear(c[|c| - 1], pad) then Failure(InvalidPaddingBits)
      else Success(BitString(c[1..], (|c| - 1) * 8 - pad))
  }

  /** `BitString.At`: bit `i`, counted from the most significant bit of the
      first octet; 0 outside the string. */
  function At(b: BitString, i: int): (r: nat)
    requires WellFormed(b)
    ensures r <= 1
    ensures (i < 0 || i >= b.bitLength) ==> r == 0
  {
    if i < 0 || i >= b.bitLength then 0
    else OctetBit(b.bytes[i / 8], i % 8)
  }

  /** Bit `k` of an octet, counted from the most significant. */
  function OctetBit(x: byte, k: nat): (r: nat)
    requires k < 8
    ensures r <= 1
  {
    ShiftRight(x, 7 - k) % 2
  }

  /** Go's `parseBool`: exactly one octet, 0x00 or 0xff (X.690 section 11.1). */
  function ParseBool(c: seq<byte>): (r: Result<bool, Asn1Error>)
    ensures r.Success? <==> |c| == 1 && (c[0] == 0 || c[0] == 0xff)
    ensures r.Success? ==> (r.value <==> c[0] == 0xff)
  {
    if |c| != 1 then Failure(InvalidBoolean)
    else if c[0] == 0 then Success(false)
    else if c[0] == 0xff then Success(true)
    else Failure(InvalidBoolean)
  }

  /** Two's-complement value of a big-endian octet string. */
  function TwosComplement(c: seq<byte>): int
    requires |c| >= 1
  {
    if c[0] >= 128 then BigEndian(c) - Pow256(|c|) else BigEndian(c)
  }

  /** Go's `parseInt64` (X.690 section 8.3): minimal two's complement, at
      most eight octets. */
  function ParseInt64(c: seq<byte>): (r: Result<int, Asn1Error>)
    ensures r.Success? ==> 1 <= |c| <= 8 && r.value == TwosComplement(c)
  {
    if |c| == 0 then Failure(EmptyInteger)
    else if |c| > 1 && ((c[0] == 0 && c[1] < 128) || (c[0] == 0xff && c[1] >= 128)) then Failure(NonMinimalInteger)
    else if |c| > 8 then Failure(IntegerTooLarge)
    else Success(TwosComplement(c))
  }

  // ---------------------------------------------------------------------
  // Object identifiers (X.690 section 8.19)
  // ---------------------------------------------------------------------

  /** Go's `asn1.ObjectIdentifier`: the arcs, in order. */
  type Oid = seq<nat>

  /** The base-128 arcs after the first subidentifier. */
  function Arcs(s: seq<byte>): (r: Result<seq<nat>, Asn1Error>)
    decreases |s|
  {
    if |s| == 0 then Success([])
    else
      var a :- Base128(s);
      var more :- Arcs(a.rest);
      Success([a.value] + more)
  }

  /** Go's `parseObjectIdentifier`: the first subidentifier packs two arcs
      as 40 * first + second, the first arc being 2 from 80 on. */
  function ParseOid(c: seq<byte>): (r: Result<Oid, Asn1Error>)
    ensures r.Success? ==> |r.value| >= 2
  {
    if |c| == 0 then Failure(EmptyOid)
    else
      var first :- Base128(c);
      var v := first.value;
      var head: seq<nat> := if v < 80 then [v / 40, v % 40] else [2, v - 80];
      var tail :- Arcs(first.rest);
      Success(head + tail)
  }

  /** First pass of Go's `parseSequenceOf` for `[]ObjectIdentifier`: every
      element must be a universal, primitive OBJECT IDENTIFIER whose
      contents fit; yields the contents in order. */
  function ScanOids(s: seq<byte>): (r: Result<seq<seq<byte>>, Asn1Error>)
    decreases |s|
  {
    if |s| == 0 then Success([])
    else
      var h :- ReadHeader(s);
      if !Matches(h.value, TagOid, false) then Failure(SequenceTagMismatch)
      else if h.value.length > |h.rest| then Failure(TruncatedSequence)
      else
        var more :- ScanOids(h.rest[h.value.length..]);
        Success([h.rest[..h.value.length]] + more)
  }

  /** Second pass: each element's contents as an object identifier, the
      first failure winning. */
  function ParseOids(cs: seq<seq<byte>>): (r: Result<seq<Oid>, Asn1Error>)
    ensures r.Success? ==> |r.value| == |cs|
    ensures r.Success? ==> forall i :: 0 <= i < |cs| ==> ParseOid(cs[i]) == Success(r.value[i])
  {
    if |cs| == 0 then Success([])
    else
      var o :- ParseOid(cs[0]);
      var more :- ParseOids(cs[1..]);
      Success([o] + more)
  }

  /** `asn1.Unmarshal` into `[]asn1.ObjectIdentifier`. */
  function ReadOidSequence(s: seq<byte>): (r: Result<Parsed<seq<Oid>>, Asn1Error>)
  {
    var sq :- ReadExpected(s, TagSequence, true);
    var cs :- ScanOids(sq.value.content);
    var oids :- ParseOids(cs);
    Success(Parsed(oids, sq.rest))
  }

  /** `ObjectIdentifier.String`: the arcs in decimal, joined by dots. */
  function Dotted(oid: Oid): (s: string)
    ensures |s| == 0 <==> |oid| == 0
    ensures |oid| > 0 ==> |s| >= 2 * |oid| - 1
  {
    if |oid| == 0 then ""
    else if |oid| == 1 then Decimal(oid[0])
    else Decimal(oid[0]) + "." + Dotted(oid[1..])
  }

  /** The dotted rendering loses nothing: two identifiers with the same
      string are the same identifier. */
  lemma {:induction false} DottedInjective(a: Oid, b: Oid)
    requires Dotted(a) == Dotted(b)
    ensures a == b
  {
    if |a| == 0 || |b| == 0 {
    } else {
      var da, db := Decimal(a[0]), Decimal(b[0]);
      if |a| == 1 && |b| == 1 {
        DecimalInjective(a[0], b[0]);
      } else if |a| == 1 || |b| == 1 {
        NoDotInDecimal(a[0]);
        NoDotInDecimal(b[0]);
      } else {
        NoDotInDecimal(a[0]);
        NoDotInDecimal(b[0]);
        var s := Dotted(a);
        assert s == da + "." + Dotted(a[1..]) && s == db + "." + Dotted(b[1..]);
        FirstDotAfter(da, Dotted(a[1..]));
        FirstDotAfter(db, Dotted(b[1..]));
        assert da == s[..|da|] == db;
        DecimalInjective(a[0], b[0]);
        assert Dotted(a[1..]) == s[|da| + 1..] == Dotted(b[1..]);
        DottedInjective(a[1..], b[1..]);
        assert a == [a[0]] + a[1..] && b == [b[0]] + b[1..];
      }
    }
  }

  /** The position of the first '.' in `s`, or `|s|` when there is none. */
  function FirstDot(s: string): (k: nat)
    ensures k <= |s|
  {
    if |s| == 0 then 0 else if s[0] == '.' then 0 else 1 + FirstDot(s[1..])
  }

  lemma {:induction false} FirstDotAfter(p: string, q: string)
    requires '.' !in p
    ensures FirstDot(p + "." + q) == |p|
  {
    if |p| > 0 {
      assert (p + "." + q)[1..] == p[1..] + "." + q;
      FirstDotAfter(p[1..], q);
    }
  }

  lemma NoDotInDecimal(n: nat)
    ensures '.' !in Decimal(n)
  {
    DecimalDigits(n);
  }

  /** A dotted string is made of digits and dots only. */
  lemma {:induction false} DottedChars(oid: Oid)
    ensures forall i :: 0 <= i < |Dotted(oid)| ==> Dotted(oid)[i] == '.' || '0' <= Dotted(oid)[i] <= '9'
  {
    if |oid| > 0 {
      DecimalDigits(oid[0]);
      if |oid| > 1 {
        DottedChars(oid[1..]);
      }
    }
  }

  /** The dotted string of an identifier with at least two arcs: the first
      arc, a dot, and the dotted rest. */
  lemma DottedCons(a: nat, rest: Oid)
    requires |rest| > 0
    ensures Dotted([a] + rest) == Decimal(a) + "." + Dotted(rest)
  {
    assert ([a] + rest)[1..] == rest;
  }
}
