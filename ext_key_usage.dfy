/** The key usage extension (RFC 5280 section 4.2.1.3): a BIT STRING whose
    bits 0 to 8 are the nine usages, decoded into a record of nine flags. */
module KeyUsage {
  import opened Common
  import opened Der
  import opened DerEncode

  /** The usage names, bit 0 first, as `Values` spells them. */
  const FlagNames: seq<string> := ["digitalSignature", "nonRepudiation", "keyEncipherment",
                                   "dataEncipherment", "keyAgreement", "keyCertSign",
                                   "cRLSign", "encipherOnly", "decipherOnly"]

  /** The flags of a zero `ExtKeyUsage`. */
  const ZeroFlags: seq<bool> := [false, false, false, false, false, false, false, false, false]

  /** The payload read as one BIT STRING with nothing after it. */
  function DecodeBits(data: seq<byte>): (r: Result<BitString, DecodeError>)
    ensures r.Success? ==> WellFormed(r.value)
  {
    var p :- Lift(ReadExpected(data, TagBitString, false));
    var bits :- Lift(ParseBitString(p.value.content));
    if |p.rest| != 0 then Failure(TrailingData) else Success(bits)
  }

  /** The flags after decoding `bits` into a record holding `flags`: a flag
      is set when it was already set or its bit is 1. */
  function Merge(flags: seq<bool>, bits: BitString): (r: seq<bool>)
    requires |flags| == 9 && WellFormed(bits)
    ensures |r| == 9
  {
    [flags[0] || At(bits, 0) != 0, flags[1] || At(bits, 1) != 0, flags[2] || At(bits, 2) != 0,
     flags[3] || At(bits, 3) != 0, flags[4] || At(bits, 4) != 0, flags[5] || At(bits, 5) != 0,
     flags[6] || At(bits, 6) != 0, flags[7] || At(bits, 7) != 0, flags[8] || At(bits, 8) != 0]
  }

  /** Flag `i` after decoding: set before, or bit `i` is 1. */
  lemma MergeAt(flags: seq<bool>, bits: BitString, i: nat)
    requires |flags| == 9 && WellFormed(bits) && i < 9
    ensures Merge(flags, bits)[i] == (flags[i] || At(bits, i) != 0)
  {
  }

  /** The names of the set flags among the first `n`, in bit order. */
  function Pick(flags: seq<bool>, n: nat): seq<string>
    requires |flags| == 9 && n <= 9
  {
    if n == 0 then [] else Pick(flags, n - 1) + (if flags[n - 1] then [FlagNames[n - 1]] else [])
  }

  /** What `Values` reports for a record with these flags. */
  function Names(flags: seq<bool>): seq<string>
    requires |flags| == 9
  {
    Pick(flags, 9)
  }

  /** How many flags are set. */
  function CountSet(flags: seq<bool>): nat
  {
    if |flags| == 0 then 0 else CountSet(flags[..|flags| - 1]) + (if flags[|flags| - 1] then 1 else 0)
  }

  /** The positions of the set flags among the first `n`, ascending. */
  function SetBits(flags: seq<bool>, n: nat): seq<nat>
    requires |flags| == 9 && n <= 9
  {
    if n == 0 then [] else SetBits(flags, n - 1) + (if flags[n - 1] then [n - 1] else [])
  }

  /** No two usages share a name. */
  lemma FlagNamesDistinct()
    ensures forall i, j :: 0 <= i < j < 9 ==> FlagNames[i] != FlagNames[j]
  {
    assert FlagNames[0][1] == 'i' && FlagNames[3][1] == 'a' && FlagNames[8][1] == 'e';
    assert FlagNames[2][3] == 'E' && FlagNames[4][3] == 'A' && FlagNames[5][3] == 'C';
  }

  /** `Pick` names exactly the set flags below `n`, in ascending bit order,
      once each, and there are as many as set flags. */
  lemma {:induction false} PickFacts(flags: seq<bool>, n: nat)
    requires |flags| == 9 && n <= 9
    ensures forall j :: 0 <= j < |SetBits(flags, n)| ==> SetBits(flags, n)[j] < n
    ensures forall k: nat :: k in SetBits(flags, n) <==> k < n && flags[k]
    ensures forall a, b :: 0 <= a < b < |SetBits(flags, n)| ==> SetBits(flags, n)[a] < SetBits(flags, n)[b]
    ensures |SetBits(flags, n)| == |Pick(flags, n)| == CountSet(flags[..n])
    ensures forall j :: 0 <= j < |Pick(flags, n)| ==> Pick(flags, n)[j] == FlagNames[SetBits(flags, n)[j]]
  {
    if n > 0 {
      PickFacts(flags, n - 1);
      assert flags[..n][..n - 1] == flags[..n - 1];
      var s, s' := SetBits(flags, n - 1), SetBits(flags, n);
      forall a, b | 0 <= a < b < |s'|
        ensures s'[a] < s'[b]
      {
        assert s'[a] == s[a];
        if b < |s| {
          assert s'[b] == s[b];
        } else {
          assert s[a] in s;
        }
      }
    }
  }

  /** `Values` reports a usage's name iff its flag is set. */
  lemma NamesExactlySet(flags: seq<bool>, i: nat)
    requires |flags| == 9 && i < 9
    ensures FlagNames[i] in Names(flags) <==> flags[i]
  {
    PickFacts(flags, 9);
    FlagNamesDistinct();
    var s := SetBits(flags, 9);
    if flags[i] {
      var j :| 0 <= j < |s| && s[j] == i;
      assert Names(flags)[j] == FlagNames[i];
    }
    if FlagNames[i] in Names(flags) {
      var j :| 0 <= j < |Names(flags)| && Names(flags)[j] == FlagNames[i];
      assert s[j] in s;
    }
  }

  /** `Values` lists the set usages in ascending bit order, so none twice,
      and as many names as set flags. */
  lemma NamesInBitOrder(flags: seq<bool>)
    requires |flags| == 9
    ensures |Names(flags)| == |SetBits(flags, 9)| == CountSet(flags)
    ensures forall j :: 0 <= j < |SetBits(flags, 9)| ==> SetBits(flags, 9)[j] < 9
    ensures forall j :: 0 <= j < |Names(flags)| ==> Names(flags)[j] == FlagNames[SetBits(flags, 9)[j]]
    ensures forall a, b :: 0 <= a < b < |SetBits(flags, 9)| ==> SetBits(flags, 9)[a] < SetBits(flags, 9)[b]
    ensures forall a, b :: 0 <= a < b < |Names(flags)| ==> Names(flags)[a] != Names(flags)[b]
  {
    PickFacts(flags, 9);
    FlagNamesDistinct();
    assert flags[..9] == flags;
  }

  /** The record `ExtKeyUsage`: one flag per usage. */
  class ExtKeyUsage {
    var digitalSignature: bool
    var nonRepudiation: bool
    var keyEncipherment: bool
    var dataEncipherment: bool
    var keyAgreement: bool
    var keyCertSign: bool
    var cRLSign: bool
    var encipherOnly: bool
    var decipherOnly: bool

    /** The flags in bit order. */
    function Flags(): (f: seq<bool>)
      reads this
      ensures |f| == 9
    {
      [digitalSignature, nonRepudiation, keyEncipherment, dataEncipherment, keyAgreement,
       keyCertSign, cRLSign, encipherOnly, decipherOnly]
    }

    /** The zero value, `var usage ExtKeyUsage`. */
    constructor ()
      ensures Flags() == ZeroFlags
    {
      digitalSignature, nonRepudiation, keyEncipherment := false, false, false;
      dataEncipherment, keyAgreement, keyCertSign := false, false, false;
      cRLSign, encipherOnly, decipherOnly := false, false, false;
    }

    /** `ExtKeyUsage.Values`: the names of the set flags, in bit order. */
    method Values() returns (values: seq<string>)
      ensures values == Names(Flags())
    {
      ghost var f := Flags();
      values := [];
      if digitalSignature { values := values + [FlagNames[0]]; }
      assert values == Pick(f, 1);
      if nonRepudiation { values := values + [FlagNames[1]]; }
      assert values == Pick(f, 2);
      if keyEncipherment { values := values + [FlagNames[2]]; }
      assert values == Pick(f, 3);
      if dataEncipherment { values := values + [FlagNames[3]]; }
      assert values == Pick(f, 4);
      if keyAgreement { values := values + [FlagNames[4]]; }
      assert values == Pick(f, 5);
      if keyCertSign { values := values + [FlagNames[5]]; }
      assert values == Pick(f, 6);
      if cRLSign { values := values + [FlagNames[6]]; }
      assert values == Pick(f, 7);
      if encipherOnly { values := values + [FlagNames[7]]; }
      assert values == Pick(f, 8);
      if decipherOnly { values := values + [FlagNames[8]]; }
    }

    /** Sets each flag whose bit is 1; the others keep their value. */
    method SetBitsFrom(bits: BitString)
      requires WellFormed(bits)
      modifies this
      ensures Flags() == Merge(old(Flags()), bits)
    {
      var merged := Merge(Flags(), bits);
      digitalSignature, nonRepudiation, keyEncipherment := merged[0], merged[1], merged[2];
      dataEncipherment, keyAgreement, keyCertSign := merged[3], merged[4], merged[5];
      cRLSign, encipherOnly, decipherOnly := merged[6], merged[7], merged[8];
    }

    /** `ExtKeyUsage.Decode`: on a well-formed payload, sets every flag whose
        bit is 1 and clears none; on an error, changes nothing. */
    method Decode(data: seq<byte>) returns (err: Outcome<DecodeError>)
      modifies this
      ensures DecodeBits(data).Failure? ==> err == Fail(DecodeBits(data).error) && Flags() == old(Flags())
      ensures DecodeBits(data).Success? ==> err == Pass && Flags() == Merge(old(Flags()), DecodeBits(data).value)
    {
      var r := DecodeBits(data);
      if r.Failure? {
        return Fail(r.error);
      }
      SetBitsFrom(r.value);
      return Pass;
    }
  }

  /** Any bytes after the BIT STRING make decoding fail. */
  lemma TrailingBytesRejected(data: seq<byte>, extra: seq<byte>)
    requires DecodeBits(data).Success? && |extra| > 0
    ensures DecodeBits(data + extra) == Failure(TrailingData)
  {
    ExpectedExtends(data, TagBitString, false, extra);
    var p := ReadExpected(data, TagBitString, false).value;
    assert ReadExpected(data + extra, TagBitString, false) == Success(Parsed(p.value, p.rest + extra));
    assert |p.rest + extra| != 0;
  }

  /** The payload a writer produces for these flags: a BIT STRING of nine bits. */
  function EncodeKeyUsage(flags: seq<bool>): seq<byte>
    requires |flags| == 9
  {
    OctetsLength(flags);
    Encode(Tlv(ClassUniversal, false, TagBitString, EncodeBitString(flags)))
  }

  /** A written payload decodes to the nine-bit string it holds. */
  lemma DecodeEncoded(flags: seq<bool>)
    requires |flags| == 9
    ensures DecodeBits(EncodeKeyUsage(flags)) == Success(BitString(Octets(flags), 9))
  {
    OctetsLength(flags);
    var t := Tlv(ClassUniversal, false, TagBitString, EncodeBitString(flags));
    ExpectedRoundTrip(t, []);
    assert Encode(t) + [] == Encode(t);
    BitStringParses(flags);
  }

  /** Decoding a written payload recovers the flags: into a zero record it
      gives exactly them, into any record it adds them. */
  lemma KeyUsageRoundTrip(flags: seq<bool>, prior: seq<bool>)
    requires |flags| == 9 && |prior| == 9
    ensures DecodeBits(EncodeKeyUsage(flags)) == Success(BitString(Octets(flags), 9))
    ensures Merge(ZeroFlags, BitString(Octets(flags), 9)) == flags
    ensures forall i :: 0 <= i < 9 ==> Merge(prior, BitString(Octets(flags), 9))[i] == (prior[i] || flags[i])
  {
    DecodeEncoded(flags);
    BitStringRoundTrip(flags);
    MergeOfBits(prior, flags, BitString(Octets(flags), 9));
  }

  /** Decoding bits that spell `flags` adds exactly those flags. */
  lemma MergeOfBits(prior: seq<bool>, flags: seq<bool>, b: BitString)
    requires |prior| == 9 && |flags| == 9 && WellFormed(b)
    requires forall i :: 0 <= i < 9 ==> At(b, i) == Bit(flags[i])
    ensures Merge(ZeroFlags, b) == flags
    ensures forall i :: 0 <= i < 9 ==> Merge(prior, b)[i] == (prior[i] || flags[i])
  {
    forall i | 0 <= i < 9
      ensures Merge(prior, b)[i] == (prior[i] || flags[i])
      ensures Merge(ZeroFlags, b)[i] == flags[i]
    {
      MergeAt(prior, b, i);
      MergeAt(ZeroFlags, b, i);
    }
    SameFlags(Merge(ZeroFlags, b), flags);
  }

  lemma SameFlags(a: seq<bool>, b: seq<bool>)
    requires |a| == |b| && forall i :: 0 <= i < |a| ==> a[i] == b[i]
    ensures a == b
  {
  }

  lemma NamesOfZeroAndFive()
    ensures Names([true, false, false, false, false, true, false, false, false]) == ["digitalSignature", "keyCertSign"]
  {
    var flags := [true, false, false, false, false, true, false, false, false];
    assert Pick(flags, 1) == [FlagNames[0]];
    assert Pick(flags, 5) == Pick(flags, 4) == Pick(flags, 3) == Pick(flags, 2) == Pick(flags, 1);
    assert Pick(flags, 6) == [FlagNames[0], FlagNames[5]];
    assert Pick(flags, 9) == Pick(flags, 8) == Pick(flags, 7) == Pick(flags, 6);
  }

  /** Decoding a string with only bits 0 and 5 set into a zero record gives
      the values digitalSignature and keyCertSign. */
  lemma ValuesOfBitsZeroAndFive()
    ensures var flags := [true, false, false, false, false, true, false, false, false];
            var r := DecodeBits(EncodeKeyUsage(flags));
            r.Success? && Names(Merge(ZeroFlags, r.value)) == ["digitalSignature", "keyCertSign"]
  {
    KeyUsageRoundTrip([true, false, false, false, false, true, false, false, false], ZeroFlags);
    NamesOfZeroAndFive();
  }
}
