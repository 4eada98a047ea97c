/** The extended key usage extension (RFC 5280 section 4.2.1.12): a
    SEQUENCE OF OBJECT IDENTIFIER, decoded into purpose names, the nine
    purposes of section 4.2.1.12 by name and every other identifier in
    dotted-decimal form. */
module ExtendedKeyUsage {
  import opened Common
  import opened Der
  import opened DerEncode

  /** `id-kp`, the arc of the key purposes: 1.3.6.1.5.5.7.3. */
  const KeyPurposeArc: Oid := [1, 3, 6, 1, 5, 5, 7, 3]

  /** `id-kp-<k>`: the key purpose 1.3.6.1.5.5.7.3.k. */
  function KeyPurpose(k: nat): (id: Oid)
    ensures |id| == 9
  {
    KeyPurposeArc + [k]
  }

  /** The names of the key purposes 1 to 9, in order. */
  const PurposeNames: seq<string> := ["serverAuth", "clientAuth", "codeSigning",
                                      "emailProtection", "IPSECEndSystem", "IPSECTunnel",
                                      "IPSECUser", "timeStamping", "OCSPSigning"]

  /** The dotted strings of the key purposes 1 to 9, in the order the
      decoder's switch tries them. */
  const PurposeDotted: seq<string> := ["1.3.6.1.5.5.7.3.1", "1.3.6.1.5.5.7.3.2", "1.3.6.1.5.5.7.3.3",
                                       "1.3.6.1.5.5.7.3.4", "1.3.6.1.5.5.7.3.5", "1.3.6.1.5.5.7.3.6",
                                       "1.3.6.1.5.5.7.3.7", "1.3.6.1.5.5.7.3.8", "1.3.6.1.5.5.7.3.9"]

  /** The switch on the dotted string `d`, from case `i` on: the name of
      the first case equal to `d`, or `d` itself when none is. */
  function NameFrom(d: string, i: nat): string
    requires i <= 9
    decreases 9 - i
  {
    if i == 9 then d
    else if d == PurposeDotted[i] then PurposeNames[i]
    else NameFrom(d, i + 1)
  }

  /** The name the decoder records for `id`. */
  function PurposeName(id: Oid): string
  {
    NameFrom(Dotted(id), 0)
  }

  /** Whether `id` is one of the nine named key purposes. */
  predicate IsNamedPurpose(id: Oid)
  {
    |id| == 9 && id[..8] == KeyPurposeArc && 1 <= id[8] <= 9
  }

  /** The named purposes are exactly `KeyPurpose(1)` to `KeyPurpose(9)`. */
  lemma NamedPurposeShape(id: Oid, k: nat)
    ensures IsNamedPurpose(id) ==> id == KeyPurpose(id[8])
    ensures 1 <= k <= 9 ==> IsNamedPurpose(KeyPurpose(k))
  {
    if IsNamedPurpose(id) {
      assert id == id[..8] + [id[8]];
    }
    assert KeyPurpose(k)[..8] == KeyPurposeArc;
  }

  /** The nine cases are nine different strings. */
  lemma PurposeDottedDistinct(i: nat, j: nat)
    requires i < 9 && j < 9 && i != j
    ensures PurposeDotted[i] != PurposeDotted[j]
  {
    assert PurposeDotted[i][16] as int - '0' as int == i + 1;
    assert PurposeDotted[j][16] as int - '0' as int == j + 1;
  }

  /** The nine names are different. */
  lemma PurposeNamesDistinct(i: nat, j: nat)
    requires i < 9 && j < 9 && i != j
    ensures PurposeNames[i] != PurposeNames[j]
  {
    assert PurposeNames[0][0] == 's' && PurposeNames[1][0] == 'c' && |PurposeNames[2]| == 11;
    assert PurposeNames[5][0] == 'I' && PurposeNames[8][0] == 'O';
  }

  /** The dotted string appends the dotted arcs of two non-empty parts. */
  lemma {:induction false} DottedAppend(a: Oid, b: Oid)
    requires |a| > 0 && |b| > 0
    ensures Dotted(a + b) == Dotted(a) + "." + Dotted(b)
  {
    assert (a + b)[1..] == a[1..] + b;
    if |a| > 1 {
      DottedAppend(a[1..], b);
    }
  }

  lemma DottedArcFront()
    ensures Dotted([1, 3, 6, 1]) == "1.3.6.1"
  {
  }

  lemma DottedArcBack()
    ensures Dotted([5, 5, 7, 3]) == "5.5.7.3"
  {
  }

  /** The dotted string of `id-kp`. */
  lemma DottedKeyPurposeArc()
    ensures Dotted(KeyPurposeArc) == "1.3.6.1.5.5.7.3"
  {
    var front, back := [1, 3, 6, 1], [5, 5, 7, 3];
    assert KeyPurposeArc == front + back;
    DottedAppend(front, back);
    DottedArcFront();
    DottedArcBack();
    JoinArc("1.3.6.1", "5.5.7.3");
  }

  /** The two halves of `id-kp` joined by a dot. */
  lemma JoinArc(front: string, back: string)
    requires front == "1.3.6.1" && back == "5.5.7.3"
    ensures front + "." + back == "1.3.6.1.5.5.7.3"
  {
  }

  /** The case for key purpose `k` is its dotted string. */
  lemma DottedNamedPurpose(k: nat)
    requires 1 <= k <= 9
    ensures Dotted(KeyPurpose(k)) == PurposeDotted[k - 1]
  {
    DottedAppend(KeyPurposeArc, [k]);
    DottedKeyPurposeArc();
    assert Dotted([k]) == [DigitChar(k)];
    JoinPurpose(k, "1.3.6.1.5.5.7.3", [DigitChar(k)]);
  }

  /** `id-kp` and the purpose's digit joined by a dot. */
  lemma JoinPurpose(k: nat, arc: string, digit: string)
    requires 1 <= k <= 9 && arc == "1.3.6.1.5.5.7.3" && digit == [DigitChar(k)]
    ensures arc + "." + digit == PurposeDotted[k - 1]
  {
    if k == 1 { assert digit == "1"; }
    else if k == 2 { assert digit == "2"; }
    else if k == 3 { assert digit == "3"; }
    else if k == 4 { assert digit == "4"; }
    else if k == 5 { assert digit == "5"; }
    else if k == 6 { assert digit == "6"; }
    else if k == 7 { assert digit == "7"; }
    else if k == 8 { assert digit == "8"; }
    else { assert digit == "9"; }
  }

  /** The switch finds case `j` when `d` is its string. */
  lemma {:induction false} NameFromCase(i: nat, j: nat)
    requires i <= j < 9
    ensures NameFrom(PurposeDotted[j], i) == PurposeNames[j]
    decreases j - i
  {
    if i < j {
      PurposeDottedDistinct(i, j);
      NameFromCase(i + 1, j);
    }
  }

  /** The switch falls through to `d` when no case is `d`. */
  lemma {:induction false} NameFromDefault(d: string, i: nat)
    requires i <= 9
    requires forall j :: 0 <= j < 9 ==> d != PurposeDotted[j]
    ensures NameFrom(d, i) == d
    decreases 9 - i
  {
    if i < 9 {
      NameFromDefault(d, i + 1);
    }
  }

  /** The nine named purposes get their names. */
  lemma NamedPurpose(k: nat)
    requires 1 <= k <= 9
    ensures PurposeName(KeyPurpose(k)) == PurposeNames[k - 1]
  {
    DottedNamedPurpose(k);
    NameFromCase(0, k - 1);
  }

  /** Only key purpose `j + 1` has the dotted string of case `j`. */
  lemma NotCase(id: Oid, j: nat)
    requires j < 9 && !IsNamedPurpose(id)
    ensures Dotted(id) != PurposeDotted[j]
  {
    DottedNamedPurpose(j + 1);
    NamedPurposeShape(id, j + 1);
    if Dotted(id) == PurposeDotted[j] {
      DottedInjective(id, KeyPurpose(j + 1));
    }
  }

  /** Every other identifier is reported as its dotted string, and is not
      an error. */
  lemma OtherPurpose(id: Oid)
    requires !IsNamedPurpose(id)
    ensures PurposeName(id) == Dotted(id)
  {
    forall j | 0 <= j < 9
      ensures Dotted(id) != PurposeDotted[j]
    {
      NotCase(id, j);
    }
    NameFromDefault(Dotted(id), 0);
  }

  /** No dotted string is a purpose name. */
  lemma DottedIsNoName(id: Oid, k: nat)
    requires k < 9
    ensures Dotted(id) != PurposeNames[k]
  {
    DottedChars(id);
    var name := PurposeNames[k];
    assert |name| > 0 && !('0' <= name[0] <= '9') && name[0] != '.';
  }

  /** A named purpose is reported under its name and nothing else is: the
      reported name is the name of purpose `k` exactly when the identifier
      is 1.3.6.1.5.5.7.3.k. */
  lemma PurposeNameExact(id: Oid, k: nat)
    requires 1 <= k <= 9
    ensures PurposeName(id) == PurposeNames[k - 1] <==> id == KeyPurpose(k)
  {
    NamedPurposeShape(id, k);
    if id == KeyPurpose(k) {
      NamedPurpose(k);
    } else if IsNamedPurpose(id) {
      NamedPurpose(id[8]);
      PurposeNamesDistinct(k - 1, id[8] - 1);
    } else {
      OtherPurpose(id);
      DottedIsNoName(id, k - 1);
    }
  }

  /** The names of `ids`, in order. */
  function Purposes(ids: seq<Oid>): (names: seq<string>)
    ensures |names| == |ids|
    ensures forall i :: 0 <= i < |ids| ==> names[i] == PurposeName(ids[i])
  {
    if |ids| == 0 then [] else Purposes(ids[..|ids| - 1]) + [PurposeName(ids[|ids| - 1])]
  }

  /** The payload read as one SEQUENCE OF OBJECT IDENTIFIER with nothing
      after it. */
  function DecodePurposeIds(data: seq<byte>): Result<seq<Oid>, DecodeError>
  {
    var p :- Lift(ReadOidSequence(data));
    if |p.rest| != 0 then Failure(TrailingData) else Success(p.value)
  }

  /** The record `ExtExtendedKeyUsage`. */
  class ExtExtendedKeyUsage {
    var keyPurposeIds: seq<string>

    /** The zero value. */
    constructor ()
      ensures keyPurposeIds == []
    {
      keyPurposeIds := [];
    }

    /** `ExtExtendedKeyUsage.Decode`: appends one name per identifier, in
        encoded order, after the names already held; on an error, changes
        nothing. */
    method Decode(data: seq<byte>) returns (err: Outcome<DecodeError>)
      modifies this
      ensures DecodePurposeIds(data).Failure? ==>
                err == Fail(DecodePurposeIds(data).error) && keyPurposeIds == old(keyPurposeIds)
      ensures DecodePurposeIds(data).Success? ==>
                err == Pass && keyPurposeIds == old(keyPurposeIds) + Purposes(DecodePurposeIds(data).value)
    {
      var r := DecodePurposeIds(data);
      if r.Failure? {
        return Fail(r.error);
      }
      AppendPurposes(r.value);
      return Pass;
    }

    /** The loop of `Decode`: the switch's name for each identifier, in
        order, appended to the names held. */
    method AppendPurposes(ids: seq<Oid>)
      modifies this
      ensures keyPurposeIds == old(keyPurposeIds) + Purposes(ids)
    {
      var i := 0;
      while i < |ids|
        invariant 0 <= i <= |ids|
        invariant keyPurposeIds == old(keyPurposeIds) + Purposes(ids[..i])
      {
        var purpose := PurposeName(ids[i]);
        assert ids[..i + 1][..i] == ids[..i];
        keyPurposeIds := keyPurposeIds + [purpose];
        i := i + 1;
      }
      assert ids[..|ids|] == ids;
    }
  }

  /** Bytes after a sequence do not change how it reads. */
  lemma OidSequenceExtends(data: seq<byte>, e: seq<byte>)
    ensures Extends(ReadOidSequence(data), ReadOidSequence(data + e), e)
  {
    ExpectedExtends(data, TagSequence, true, e);
  }

  /** Any bytes after the sequence make decoding fail. */
  lemma TrailingBytesRejected(data: seq<byte>, extra: seq<byte>)
    requires DecodePurposeIds(data).Success? && |extra| > 0
    ensures DecodePurposeIds(data + extra) == Failure(TrailingData)
  {
    OidSequenceExtends(data, extra);
  }

  /** A written sequence decodes to the identifiers it holds, and their
      names are appended one per identifier. */
  lemma ExtendedKeyUsageRoundTrip(oids: seq<Oid>)
    requires EncodableOids(oids) && |EncodeOidList(oids)| < 0x100_0000
    ensures DecodePurposeIds(EncodeOidSequence(oids)) == Success(oids)
  {
    OidSequenceRoundTrip(oids, []);
    assert EncodeOidSequence(oids) + [] == EncodeOidSequence(oids);
  }
}
