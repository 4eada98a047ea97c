/** A reference DER writer (ITU-T X.690) for the shapes the extension
    decoders read, and the round trips that tie it to the reader in `Der`:
    whatever the writer produces, the reader gives back. */
module DerEncode {
  import opened Common
  import opened Der

  // ---------------------------------------------------------------------
  // Identifier and length octets
  // ---------------------------------------------------------------------

  /** The identifier octet of a low tag number (X.690 section 8.1.2.3). */
  function Identifier(cls: nat, compound: bool, tag: nat): (b: byte)
    requires cls < 4 && tag < 31
  {
    cls * 64 + (if compound then 32 else 0) + tag
  }

  /** The definite length octets of `n` in the shortest form (X.690
      section 8.1.3), for contents below 16 MiB. */
  function EncodeLength(n: nat): (e: seq<byte>)
    requires n < 0x100_0000
    ensures 1 <= |e| <= 4
  {
    if n < 0x80 then [n]
    else if n < 0x100 then [0x81, n]
    else if n < 0x1_0000 then [0x82, n / 0x100, n % 0x100]
    else [0x83, n / 0x1_0000, (n / 0x100) % 0x100, n % 0x100]
  }

  /** An element the writer can produce. */
  predicate Encodable(t: Tlv)
  {
    t.cls < 4 && t.tag < 31 && |t.content| < 0x100_0000
  }

  /** The whole element: identifier, length, contents. */
  function Encode(t: Tlv): (e: seq<byte>)
    requires Encodable(t)
    ensures 2 + |t.content| <= |e| <= 5 + |t.content|
  {
    [Identifier(t.cls, t.compound, t.tag)] + EncodeLength(|t.content|) + t.content
  }

  /** The elements one after the other. */
  function EncodeAll(ts: seq<Tlv>): seq<byte>
    requires forall i :: 0 <= i < |ts| ==> Encodable(ts[i])
  {
    if |ts| == 0 then [] else Encode(ts[0]) + EncodeAll(ts[1..])
  }

  /** The reader takes the length octets back to the length. */
  lemma LengthRoundTrip(n: nat, rest: seq<byte>)
    requires n < 0x100_0000
    ensures Length(EncodeLength(n)[0], EncodeLength(n)[1..] + rest) == Success(Parsed(n, rest))
  {
    if n < 0x80 {
    } else if n < 0x100 {
      LongLength1(n, rest);
    } else if n < 0x1_0000 {
      LongLength2(n, rest);
    } else {
      LongLength3(n, rest);
    }
  }

  lemma LongLength1(n: nat, rest: seq<byte>)
    requires 0x80 <= n < 0x100
    ensures LongLength([n] + rest, 1, 0) == Success(Parsed(n, rest))
  {
    assert ([n] + rest)[1..] == rest;
  }

  lemma LongLength2(n: nat, rest: seq<byte>)
    requires 0x100 <= n < 0x1_0000
    ensures LongLength([n / 0x100, n % 0x100] + rest, 2, 0) == Success(Parsed(n, rest))
  {
    var tail: seq<byte> := [n / 0x100, n % 0x100] + rest;
    assert tail[1..] == [n % 0x100] + rest;
    assert tail[1..][1..] == rest;
    assert (n / 0x100) * 0x100 + n % 0x100 == n;
  }

  lemma LongLength3(n: nat, rest: seq<byte>)
    requires 0x1_0000 <= n < 0x100_0000
    ensures LongLength([n / 0x1_0000, (n / 0x100) % 0x100, n % 0x100] + rest, 3, 0) == Success(Parsed(n, rest))
  {
    var tail: seq<byte> := [n / 0x1_0000, (n / 0x100) % 0x100, n % 0x100] + rest;
    var hi := n / 0x1_0000;
    var mid := hi * 0x100 + (n / 0x100) % 0x100;
    assert mid == n / 0x100;
    assert mid * 0x100 + n % 0x100 == n;
    assert tail[1..] == [(n / 0x100) % 0x100, n % 0x100] + rest;
    assert LongLength(tail, 3, 0) == LongLength(tail[1..], 2, hi);
    LongLength2Tail(hi, (n / 0x100) % 0x100, n % 0x100, rest);
  }

  lemma LongLength2Tail(hi: nat, mid: byte, lo: byte, rest: seq<byte>)
    requires 1 <= hi < 0x100
    ensures LongLength([mid, lo] + rest, 2, hi) == Success(Parsed((hi * 0x100 + mid) * 0x100 + lo, rest))
  {
    var tail: seq<byte> := [mid, lo] + rest;
    assert tail[1..] == [lo] + rest;
    assert tail[1..][1..] == rest;
  }

  /** The identifier octet's fields are the class, the form and the tag. */
  lemma IdentifierFields(cls: nat, compound: bool, tag: nat)
    requires cls < 4 && tag < 31
    ensures var id := Identifier(cls, compound, tag);
            id % 32 == tag && id / 64 == cls && ((id / 32) % 2 == 1 <==> compound)
  {
  }

  /** The reader takes the identifier and length octets back to the header. */
  lemma HeaderRoundTrip(t: Tlv, rest: seq<byte>)
    requires Encodable(t)
    ensures ReadHeader(Encode(t) + rest)
         == Success(Parsed(Header(t.cls, t.compound, t.tag, |t.content|), t.content + rest))
  {
    var id := Identifier(t.cls, t.compound, t.tag);
    var len := EncodeLength(|t.content|);
    var s := Encode(t) + rest;
    IdentifierFields(t.cls, t.compound, t.tag);
    assert s[0] == id;
    assert s[1..] == len + (t.content + rest);
    assert TagNumber(id % 32, s[1..]) == Success(Parsed(t.tag, s[1..]));
    assert s[1..][1..] == len[1..] + (t.content + rest);
    LengthRoundTrip(|t.content|, t.content + rest);
  }

  /** The reader takes a written element back, leaving what follows. */
  lemma RawRoundTrip(t: Tlv, rest: seq<byte>)
    requires Encodable(t)
    ensures ReadRaw(Encode(t) + rest) == Success(Parsed(t, rest))
  {
    HeaderRoundTrip(t, rest);
    var h := Parsed(Header(t.cls, t.compound, t.tag, |t.content|), t.content + rest);
    assert h.rest[..|t.content|] == t.content && h.rest[|t.content|..] == rest;
  }

  /** A written universal element of the expected tag and form reads back
      as that mandatory value. */
  lemma ExpectedRoundTrip(t: Tlv, rest: seq<byte>)
    requires Encodable(t) && t.cls == ClassUniversal
    ensures ReadExpected(Encode(t) + rest, t.tag, t.compound) == Success(Parsed(t, rest))
  {
    RawRoundTrip(t, rest);
    HeaderRoundTrip(t, rest);
  }

  /** An optional field written where it is due reads back as present. */
  lemma OptionalRoundTrip(t: Tlv, rest: seq<byte>)
    requires Encodable(t) && t.cls == ClassUniversal
    ensures ReadOptional(Encode(t) + rest, t.tag, t.compound) == Success(Some(Parsed(t, rest)))
  {
    RawRoundTrip(t, rest);
    HeaderRoundTrip(t, rest);
  }

  /** An element of another tag or form reads as the field being absent. */
  lemma OptionalMismatch(t: Tlv, rest: seq<byte>, tag: nat, compound: bool)
    requires Encodable(t) && (t.tag != tag || t.compound != compound)
    ensures ReadOptional(Encode(t) + rest, tag, compound) == Success(None)
  {
    HeaderRoundTrip(t, rest);
  }

  // ---------------------------------------------------------------------
  // Bit strings (X.690 section 8.6)
  // ---------------------------------------------------------------------

  /** 1 for a set bit, 0 for a clear one. */
  function Bit(b: bool): nat
  {
    if b then 1 else 0
  }

  /** The bits, most significant first, read as a number. */
  function PackBits(bs: seq<bool>): nat
  {
    if |bs| == 0 then 0 else 2 * PackBits(bs[..|bs| - 1]) + Bit(bs[|bs| - 1])
  }

  /** `n` clear bits. */
  function Zeros(n: nat): (z: seq<bool>)
    ensures |z| == n && forall i :: 0 <= i < n ==> !z[i]
  {
    seq(n, _ => false)
  }

  lemma {:induction false} PackBitsBound(bs: seq<bool>)
    ensures PackBits(bs) < Pow2(|bs|)
  {
    if |bs| > 0 {
      PackBitsBound(bs[..|bs| - 1]);
    }
  }

  /** Bit `k` of `bs` is the bit `|bs| - 1 - k` places up in its number. */
  lemma {:induction false} PackBitsBit(bs: seq<bool>, k: nat)
    requires k < |bs|
    ensures ShiftRight(PackBits(bs), |bs| - 1 - k) % 2 == Bit(bs[k])
  {
    var front := bs[..|bs| - 1];
    if k < |bs| - 1 {
      assert (2 * PackBits(front) + Bit(bs[|bs| - 1])) / 2 == PackBits(front);
      assert front[k] == bs[k];
      PackBitsBit(front, k);
    }
  }

  /** Clear bits appended at the end give a number with clear low bits. */
  lemma {:induction false} PackBitsZeros(bs: seq<bool>, p: nat)
    ensures LowBitsClear(PackBits(bs + Zeros(p)), p)
  {
    if p > 0 {
      var s := bs + Zeros(p);
      assert s[..|s| - 1] == bs + Zeros(p - 1);
      PackBitsZeros(bs, p - 1);
    }
  }

  /** The octet holding up to eight bits, most significant first, the
      unused low bits clear (X.690 section 8.6.2.3). */
  function Octet(ch: seq<bool>): (b: byte)
    requires |ch| <= 8
  {
    var full := ch + Zeros(8 - |ch|);
    PackBitsBound(full);
    PackBits(full)
  }

  /** The octet spells out its bits, and nothing after them. */
  lemma OctetBits(ch: seq<bool>, k: nat)
    requires |ch| <= 8 && k < 8
    ensures OctetBit(Octet(ch), k) == if k < |ch| then Bit(ch[k]) else 0
  {
    var full := ch + Zeros(8 - |ch|);
    PackBitsBit(full, k);
  }

  /** The unused bits of the octet are clear. */
  lemma OctetPadding(ch: seq<bool>)
    requires |ch| <= 8
    ensures LowBitsClear(Octet(ch), 8 - |ch|)
  {
    PackBitsZeros(ch, 8 - |ch|);
  }

  /** The bits packed eight to an octet. */
  function Octets(bs: seq<bool>): (os: seq<byte>)
    decreases |bs|
  {
    if |bs| == 0 then []
    else if |bs| <= 8 then [Octet(bs)]
    else [Octet(bs[..8])] + Octets(bs[8..])
  }

  lemma {:induction false} OctetsLength(bs: seq<bool>)
    ensures |Octets(bs)| == (|bs| + 7) / 8
    decreases |bs|
  {
    if |bs| > 8 {
      OctetsLength(bs[8..]);
    }
  }

  /** Bit `i` of the bits is bit `i % 8` of octet `i / 8`. */
  lemma {:induction false} OctetsBit(bs: seq<bool>, i: nat)
    requires i < |bs|
    ensures i / 8 < |Octets(bs)| && OctetBit(Octets(bs)[i / 8], i % 8) == Bit(bs[i])
    decreases |bs|
  {
    OctetsLength(bs);
    if i < 8 {
      if |bs| <= 8 {
        OctetBits(bs, i);
      } else {
        OctetBits(bs[..8], i);
      }
    } else {
      OctetsBit(bs[8..], i - 8);
      assert (i - 8) / 8 == i / 8 - 1 && (i - 8) % 8 == i % 8;
    }
  }

  /** The number of unused bits in the last octet. */
  function UnusedBits(n: nat): (u: nat)
    ensures u <= 7 && (n + u) % 8 == 0
  {
    (8 - n % 8) % 8
  }

  /** The octets hold the bits and the unused bits exactly. */
  lemma UnusedBitsFill(n: nat)
    ensures 8 * ((n + 7) / 8) == n + UnusedBits(n)
  {
    var q, r := n / 8, n % 8;
    assert n == 8 * q + r;
    if r == 0 {
      assert (n + 7) / 8 == q;
    } else {
      assert n + 7 == 8 * (q + 1) + (r - 1);
      assert (n + 7) / 8 == q + 1;
    }
  }

  /** The octets count the bits and the unused bits. */
  lemma OctetsFill(bs: seq<bool>)
    ensures 8 * |Octets(bs)| == |bs| + UnusedBits(|bs|)
  {
    OctetsLength(bs);
    UnusedBitsFill(|bs|);
  }

  /** The last octet leaves its unused bits clear. */
  lemma {:induction false} OctetsLastPadding(bs: seq<bool>)
    requires |bs| > 0
    ensures |Octets(bs)| > 0 && LowBitsClear(Octets(bs)[|Octets(bs)| - 1], UnusedBits(|bs|))
    decreases |bs|
  {
    if |bs| <= 8 {
      OctetPadding(bs);
      UnusedBitsOfShort(|bs|);
    } else {
      var rest := Octets(bs[8..]);
      OctetsLastPadding(bs[8..]);
      assert Octets(bs) == [Octet(bs[..8])] + rest;
      assert Octets(bs)[|Octets(bs)| - 1] == rest[|rest| - 1];
      UnusedBitsOfLonger(|bs| - 8);
    }
  }

  /** The unused bits of one partly filled octet. */
  lemma UnusedBitsOfShort(n: nat)
    requires 1 <= n <= 8
    ensures UnusedBits(n) == 8 - n
  {
  }

  /** Eight bits more leave the unused bits as they are. */
  lemma UnusedBitsOfLonger(n: nat)
    ensures UnusedBits(n + 8) == UnusedBits(n)
  {
    assert (n + 8) % 8 == n % 8;
  }

  /** The contents octets of a BIT STRING holding `bs`: the count of unused
      bits, then the packed bits. */
  function EncodeBitString(bs: seq<bool>): seq<byte>
  {
    [UnusedBits(|bs|)] + Octets(bs)
  }

  /** Contents whose padding is clear and whose length counts `n` bits
      are accepted as a bit string of `n` bits. */
  lemma AcceptedBitString(c: seq<byte>, n: nat)
    requires |c| >= 1 && c[0] <= 7 && (|c| == 1 ==> c[0] == 0)
    requires LowBitsClear(c[|c| - 1], c[0]) && 8 * (|c| - 1) == n + c[0]
    ensures ParseBitString(c) == Success(BitString(c[1..], n))
  {
  }

  /** The reader accepts a written bit string, with its length. */
  lemma BitStringParses(bs: seq<bool>)
    ensures ParseBitString(EncodeBitString(bs)) == Success(BitString(Octets(bs), |bs|))
  {
    var os := Octets(bs);
    var u := UnusedBits(|bs|);
    OctetsFill(bs);
    var c := [u] + os;
    assert c[1..] == os;
    if |bs| > 0 {
      OctetsLastPadding(bs);
      assert c[|c| - 1] == os[|os| - 1];
    }
    AcceptedBitString(c, |bs|);
  }

  /** The reader gives back a written bit string: its length, and each bit. */
  lemma BitStringRoundTrip(bs: seq<bool>)
    ensures ParseBitString(EncodeBitString(bs)) == Success(BitString(Octets(bs), |bs|))
    ensures WellFormed(BitString(Octets(bs), |bs|))
    ensures forall i :: 0 <= i < |bs| ==> At(BitString(Octets(bs), |bs|), i) == Bit(bs[i])
  {
    BitStringParses(bs);
    forall i | 0 <= i < |bs|
      ensures At(BitString(Octets(bs), |bs|), i) == Bit(bs[i])
    {
      OctetsBit(bs, i);
    }
  }

  // ---------------------------------------------------------------------
  // Integers (X.690 section 8.3)
  // ---------------------------------------------------------------------

  /** `n` in base 256, most significant octet first, without leading zeros. */
  function UnsignedOctets(n: nat): (u: seq<byte>)
    ensures |u| >= 1
    decreases n
  {
    if n < 256 then [n] else UnsignedOctets(n / 256) + [n % 256]
  }

  /** The octets of `n` spell `n`. */
  lemma {:induction false} UnsignedValue(n: nat)
    ensures BigEndian(UnsignedOctets(n)) == n
    decreases n
  {
    if n >= 256 {
      var u := UnsignedOctets(n);
      assert u[..|u| - 1] == UnsignedOctets(n / 256);
      UnsignedValue(n / 256);
    }
  }

  /** More than one octet only from 256 on, and then the first is not zero. */
  lemma {:induction false} UnsignedLead(n: nat)
    ensures |UnsignedOctets(n)| > 1 <==> n >= 256
    ensures n > 0 ==> UnsignedOctets(n)[0] > 0
    decreases n
  {
    if n >= 256 {
      UnsignedLead(n / 256);
    }
  }

  /** Below 256^k, at most `k` octets. */
  lemma {:induction false} UnsignedLength(n: nat, k: nat)
    requires 1 <= k && n < Pow256(k)
    ensures |UnsignedOctets(n)| <= k
    decreases k
  {
    if n >= 256 {
      assert k >= 2;
      assert n / 256 < Pow256(k - 1);
      UnsignedLength(n / 256, k - 1);
    }
  }

  /** A leading zero octet does not change a big-endian value. */
  lemma {:induction false} BigEndianLeadingZero(u: seq<byte>)
    ensures BigEndian([0] + u) == BigEndian(u)
  {
    if |u| > 0 {
      assert ([0] + u)[..|u|] == [0] + u[..|u| - 1];
      BigEndianLeadingZero(u[..|u| - 1]);
    }
  }

  /** The contents octets of a non-negative INTEGER: the shortest two's
      complement form, a zero octet in front when the high bit is set. */
  function EncodeInteger(n: nat): (c: seq<byte>)
    ensures |c| >= 1
  {
    var u := UnsignedOctets(n);
    if u[0] >= 128 then [0] + u else u
  }

  /** Go's `parseInt64` takes a written non-negative integer back. */
  lemma IntegerRoundTrip(n: nat)
    requires n < 0x100_0000_0000_0000
    ensures ParseInt64(EncodeInteger(n)) == Success(n)
  {
    var u := UnsignedOctets(n);
    UnsignedValue(n);
    UnsignedLead(n);
    assert Pow256(7) == 0x100_0000_0000_0000;
    UnsignedLength(n, 7);
    if u[0] >= 128 {
      BigEndianLeadingZero(u);
      assert ([0] + u)[1] == u[0];
    }
  }

  // ---------------------------------------------------------------------
  // Base-128 numbers and object identifiers (X.690 section 8.19)
  // ---------------------------------------------------------------------

  /** `v` in base 128, most significant group first, every octet but the
      last with its high bit set; `last` says whether this is the end. */
  function Base128Octets(v: nat, last: bool): (e: seq<byte>)
    ensures |e| >= 1
    ensures v < 0x1000_0000 ==> |e| <= 4
    ensures v < 0x20_0000 ==> |e| <= 3
    ensures v < 0x4000 ==> |e| <= 2
    decreases v
  {
    var low: byte := v % 128 + (if last then 0 else 128);
    if v < 128 then [low] else Base128Octets(v / 128, false) + [low]
  }

  /** The shortest base-128 encoding of `v`. */
  function EncodeBase128(v: nat): seq<byte>
  {
    Base128Octets(v, true)
  }

  /** One octet with the high bit set: its group is shifted in. */
  lemma Base128More(b: byte, t: seq<byte>, k: nat, acc: nat)
    requires k < 5 && b >= 128 && (k > 0 || b != 0x80)
    ensures Base128From([b] + t, k, acc) == Base128From(t, k + 1, acc * 128 + b % 128)
  {
    var s := [b] + t;
    assert s[0] == b;
    DropAppend([b], t, 1);
    assert s[1..] == t;
  }

  /** The octet with the high bit clear ends the number. */
  lemma Base128Last(b: byte, t: seq<byte>, k: nat, acc: nat)
    requires k < 5 && b < 128 && (k > 0 || b != 0x80) && acc * 128 + b <= MaxInt32
    ensures Base128From([b] + t, k, acc) == Success(Parsed(acc * 128 + b, t))
  {
    DropAppend([b], t, 1);
  }

  /** One more leading group after `front`, whose groups add up to `m`. */
  lemma AppendGroup(front: seq<byte>, low: byte, t: seq<byte>, m: nat, u: nat)
    requires 1 <= |front| <= 3 && low >= 128 && m * 128 + low % 128 == u
    requires Base128From(front + ([low] + t), 0, 0) == Base128From([low] + t, |front|, m)
    ensures Base128From((front + [low]) + t, 0, 0) == Base128From(t, |front| + 1, u)
  {
    assert (front + [low]) + t == front + ([low] + t);
    Base128More(low, t, |front|, m);
  }

  /** The octets of `u` are those of `u / 128` followed by its lowest group. */
  lemma OctetsSplit(u: nat)
    requires 128 <= u < 0x1000_0000
    ensures Base128Octets(u, false) == Base128Octets(u / 128, false) + [u % 128 + 128]
    ensures 1 <= |Base128Octets(u / 128, false)| <= 3
  {
    assert u / 128 < 0x20_0000;
  }

  /** A number is its upper groups shifted by seven bits plus its lowest group. */
  lemma SplitGroup(u: nat)
    ensures (u / 128) * 128 + (u % 128 + 128) % 128 == u
  {
  }

  /** A number below 128 is one leading group. */
  lemma LeadingGroup(u: nat, t: seq<byte>)
    requires 1 <= u < 128
    ensures Base128From(Base128Octets(u, false) + t, 0, 0)
         == Base128From(t, |Base128Octets(u, false)|, u)
  {
    var low: byte := u % 128 + 128;
    assert Base128Octets(u, false) == [low];
    Base128More(low, t, 0, 0);
    SplitGroup(u);
  }

  /** The groups of `u` are those of `u / 128` and one more. */
  lemma LeadingGroupsStep(u: nat, t: seq<byte>)
    requires 128 <= u < 0x1000_0000
    requires Base128From(Base128Octets(u / 128, false) + ([u % 128 + 128] + t), 0, 0)
          == Base128From([u % 128 + 128] + t, |Base128Octets(u / 128, false)|, u / 128)
    ensures Base128From(Base128Octets(u, false) + t, 0, 0)
         == Base128From(t, |Base128Octets(u, false)|, u)
  {
    OctetsSplit(u);
    SplitGroup(u);
    AppendGroup(Base128Octets(u / 128, false), u % 128 + 128, t, u / 128, u);
  }

  /** Reading the leading groups of a number (all with the high bit set)
      accumulates their value and counts them. */
  lemma {:induction false} LeadingGroups(u: nat, t: seq<byte>)
    requires 1 <= u < 0x1000_0000
    ensures Base128From(Base128Octets(u, false) + t, 0, 0)
         == Base128From(t, |Base128Octets(u, false)|, u)
    decreases u
  {
    if u < 128 {
      LeadingGroup(u, t);
    } else {
      LeadingGroups(u / 128, [u % 128 + 128] + t);
      LeadingGroupsStep(u, t);
    }
  }

  /** The reader takes a written base-128 number back, leaving what follows. */
  lemma Base128RoundTrip(v: nat, t: seq<byte>)
    requires v <= MaxInt32
    ensures Base128(EncodeBase128(v) + t) == Success(Parsed(v, t))
  {
    if v < 128 {
      Base128Last(v, t, 0, 0);
    } else {
      var front := Base128Octets(v / 128, false);
      var low: byte := v % 128;
      assert EncodeBase128(v) + t == front + ([low] + t);
      LeadingGroups(v / 128, [low] + t);
      Base128Last(low, t, |front|, v / 128);
    }
  }

  /** What the object identifier reader can take back: at least two arcs,
      a first arc of 0, 1 or 2, a second below 40 unless the first is 2,
      and every subidentifier within the reader's 31-bit limit. */
  predicate ValidOid(oid: Oid)
  {
    |oid| >= 2 && oid[0] <= 2 && (oid[0] < 2 ==> oid[1] < 40)
    && 40 * oid[0] + oid[1] <= MaxInt32
    && forall i :: 2 <= i < |oid| ==> oid[i] <= MaxInt32
  }

  /** The subidentifiers after the first, each in base 128. */
  function EncodeArcs(arcs: seq<nat>): seq<byte>
  {
    if |arcs| == 0 then [] else EncodeBase128(arcs[0]) + EncodeArcs(arcs[1..])
  }

  /** The contents octets of an OBJECT IDENTIFIER. */
  function EncodeOid(oid: Oid): seq<byte>
    requires ValidOid(oid)
  {
    EncodeBase128(40 * oid[0] + oid[1]) + EncodeArcs(oid[2..])
  }

  lemma {:induction false} ArcsRoundTrip(arcs: seq<nat>)
    requires forall i :: 0 <= i < |arcs| ==> arcs[i] <= MaxInt32
    ensures Arcs(EncodeArcs(arcs)) == Success(arcs)
  {
    if |arcs| > 0 {
      Base128RoundTrip(arcs[0], EncodeArcs(arcs[1..]));
      ArcsRoundTrip(arcs[1..]);
      assert [arcs[0]] + arcs[1..] == arcs;
    }
  }

  /** The first subidentifier `40 * a + b` unpacks to the first two arcs. */
  lemma FirstSubidentifier(a: nat, b: nat)
    requires a <= 2 && (a < 2 ==> b < 40)
    ensures var v := 40 * a + b; (if v < 80 then [v / 40, v % 40] else [2, v - 80]) == [a, b]
  {
    var v := 40 * a + b;
    if a < 2 {
      DivUnique40(v, a, b);
    }
  }

  lemma DivUnique40(v: nat, a: nat, b: nat)
    requires a < 2 && b < 40 && v == 40 * a + b
    ensures v / 40 == a && v % 40 == b
  {
    if a == 0 {
    } else {
      assert v - 40 == b;
    }
  }

  /** The reader takes written object identifier contents back. */
  lemma OidRoundTrip(oid: Oid)
    requires ValidOid(oid)
    ensures ParseOid(EncodeOid(oid)) == Success(oid)
  {
    var v := 40 * oid[0] + oid[1];
    Base128RoundTrip(v, EncodeArcs(oid[2..]));
    ArcsRoundTrip(oid[2..]);
    FirstSubidentifier(oid[0], oid[1]);
    assert [oid[0], oid[1]] + oid[2..] == oid;
  }

  // ---------------------------------------------------------------------
  // SEQUENCE OF OBJECT IDENTIFIER
  // ---------------------------------------------------------------------

  /** Identifiers the writer can put in a sequence. */
  predicate EncodableOids(oids: seq<Oid>)
  {
    forall i :: 0 <= i < |oids| ==> ValidOid(oids[i]) && |EncodeOid(oids[i])| < 0x100_0000
  }

  /** One identifier as a universal, primitive OBJECT IDENTIFIER element. */
  function OidElement(oid: Oid): (t: Tlv)
    requires ValidOid(oid) && |EncodeOid(oid)| < 0x100_0000
    ensures Encodable(t)
  {
    Tlv(ClassUniversal, false, TagOid, EncodeOid(oid))
  }

  /** The elements for `oids`, one after the other. */
  function EncodeOidList(oids: seq<Oid>): seq<byte>
    requires EncodableOids(oids)
  {
    if |oids| == 0 then [] else Encode(OidElement(oids[0])) + EncodeOidList(oids[1..])
  }

  /** The contents octets of each identifier, in order. */
  function OidContents(oids: seq<Oid>): (cs: seq<seq<byte>>)
    requires EncodableOids(oids)
  {
    if |oids| == 0 then [] else [EncodeOid(oids[0])] + OidContents(oids[1..])
  }

  /** The whole `SEQUENCE OF OBJECT IDENTIFIER`. */
  function EncodeOidSequence(oids: seq<Oid>): seq<byte>
    requires EncodableOids(oids) && |EncodeOidList(oids)| < 0x100_0000
  {
    Encode(Tlv(ClassUniversal, true, TagSequence, EncodeOidList(oids)))
  }

  /** The first pass over written elements finds each one's contents. */
  lemma {:induction false} ScanOidsRoundTrip(oids: seq<Oid>)
    requires EncodableOids(oids)
    ensures ScanOids(EncodeOidList(oids)) == Success(OidContents(oids))
  {
    if |oids| > 0 {
      var t := OidElement(oids[0]);
      var tail := EncodeOidList(oids[1..]);
      HeaderRoundTrip(t, tail);
      var h := Parsed(Header(t.cls, t.compound, t.tag, |t.content|), t.content + tail);
      assert h.rest[..|t.content|] == t.content && h.rest[|t.content|..] == tail;
      ScanOidsRoundTrip(oids[1..]);
    }
  }

  /** The second pass turns each written contents back into its identifier. */
  lemma {:induction false} ParseOidsRoundTrip(oids: seq<Oid>)
    requires EncodableOids(oids)
    ensures ParseOids(OidContents(oids)) == Success(oids)
  {
    if |oids| > 0 {
      OidRoundTrip(oids[0]);
      ParseOidsRoundTrip(oids[1..]);
      assert OidContents(oids)[1..] == OidContents(oids[1..]);
      assert [oids[0]] + oids[1..] == oids;
    }
  }

  /** `asn1.Unmarshal` into `[]asn1.ObjectIdentifier` takes a written
      sequence back, leaving what follows it. */
  lemma OidSequenceRoundTrip(oids: seq<Oid>, rest: seq<byte>)
    requires EncodableOids(oids) && |EncodeOidList(oids)| < 0x100_0000
    ensures ReadOidSequence(EncodeOidSequence(oids) + rest) == Success(Parsed(oids, rest))
  {
    ExpectedRoundTrip(Tlv(ClassUniversal, true, TagSequence, EncodeOidList(oids)), rest);
    ScanOidsRoundTrip(oids);
    ParseOidsRoundTrip(oids);
  }
}
