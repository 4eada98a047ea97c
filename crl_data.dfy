/** The revocation list kept between runs: the revoked certificates, in the
    order they were revoked, and the two dates of the list. Times are
    nanoseconds on the UTC clock; serial numbers are integers of any size. */
module CrlData {
  import opened Common

  /** The record `CRLRevokedCert`. */
  datatype RevokedCert = RevokedCert(serialNumber: int, revocationDate: int)

  /** A `pkix.RevokedCertificate` as `x509.CreateCRL` reads it, with the
      serial number behind its pointer. */
  datatype PkixRevokedCertificate = PkixRevokedCertificate(serialNumber: int, revocationTime: int)

  /** The parts of a parsed `pkix.CertificateList` that `Read` uses. */
  datatype CertList = CertList(thisUpdate: int, nextUpdate: int, revokedCertificates: seq<PkixRevokedCertificate>)

  /** `ParseCRL` failed. */
  datatype ReadError = CannotParseCrl

  /** One entry as the list hands it to the CRL writer. */
  function ToPkix(c: RevokedCert): PkixRevokedCertificate
  {
    PkixRevokedCertificate(c.serialNumber, c.revocationDate)
  }

  /** One entry of a parsed list. */
  function FromPkix(p: PkixRevokedCertificate): RevokedCert
  {
    RevokedCert(p.serialNumber, p.revocationTime)
  }

  /** All entries as handed to the CRL writer, in order. */
  function PkixOf(l: seq<RevokedCert>): (r: seq<PkixRevokedCertificate>)
  {
    seq(|l|, i requires 0 <= i < |l| => ToPkix(l[i]))
  }

  /** All entries of a parsed list, in order. */
  function FromPkixList(l: seq<PkixRevokedCertificate>): (r: seq<RevokedCert>)
  {
    seq(|l|, i requires 0 <= i < |l| => FromPkix(l[i]))
  }

  /** Converting an appended list appends one converted entry. */
  lemma PkixOfAppend(l: seq<RevokedCert>, c: RevokedCert)
    ensures PkixOf(l + [c]) == PkixOf(l) + [ToPkix(c)]
  {
    assert |PkixOf(l + [c])| == |PkixOf(l) + [ToPkix(c)]|;
    forall i | 0 <= i < |l| + 1
      ensures PkixOf(l + [c])[i] == (PkixOf(l) + [ToPkix(c)])[i]
    {
      if i < |l| {
        assert (l + [c])[i] == l[i];
      }
    }
  }

  /** A list read back from its converted entries is the list itself. */
  lemma PkixRoundTrip(l: seq<RevokedCert>)
    ensures FromPkixList(PkixOf(l)) == l
  {
    assert forall i :: 0 <= i < |l| ==> FromPkix(ToPkix(l[i])) == l[i];
  }

  /** The record `CRLData`. */
  class CRLData {
    var revokedCerts: seq<RevokedCert>
    var creationDate: int
    var expirationDate: int

    /** The zero value, `var crlData CRLData`. */
    constructor ()
      ensures revokedCerts == [] && creationDate == 0 && expirationDate == 0
    {
      revokedCerts, creationDate, expirationDate := [], 0, 0;
    }

    /** `CRLData.AddRevokedCertificate`: `rc` goes at the end; earlier
        entries, duplicates included, stay as they are. */
    method AddRevokedCertificate(rc: RevokedCert)
      modifies this
      ensures revokedCerts == old(revokedCerts) + [rc]
      ensures creationDate == old(creationDate) && expirationDate == old(expirationDate)
    {
      revokedCerts := revokedCerts + [rc];
    }

    /** `CRLData.Read` on what `x509.ParseCRL` made of the file (`None`
        when it failed): the entries are replaced by the parsed ones, in
        parsed order, and the dates copied; on failure nothing changes. */
    method Read(parsed: Option<CertList>) returns (err: Option<ReadError>)
      modifies this
      ensures parsed.None? ==> err == Some(CannotParseCrl)
                               && revokedCerts == old(revokedCerts)
                               && creationDate == old(creationDate) && expirationDate == old(expirationDate)
      ensures parsed.Some? ==> err.None?
                               && revokedCerts == FromPkixList(parsed.value.revokedCertificates)
                               && creationDate == parsed.value.thisUpdate
                               && expirationDate == parsed.value.nextUpdate
    {
      if parsed.None? {
        return Some(CannotParseCrl);
      }
      var cl := parsed.value;
      creationDate := cl.thisUpdate;
      expirationDate := cl.nextUpdate;
      var n := |cl.revokedCertificates|;
      var certs := new RevokedCert[n](_ => RevokedCert(0, 0));
      for i := 0 to n
        invariant forall j :: 0 <= j < i ==> certs[j] == FromPkix(cl.revokedCertificates[j])
        invariant creationDate == cl.thisUpdate && expirationDate == cl.nextUpdate
      {
        var pkixRc := cl.revokedCertificates[i];
        certs[i] := RevokedCert(pkixRc.serialNumber, pkixRc.revocationTime);
      }
      revokedCerts := certs[..];
      return None;
    }

    /** `CRLData.PKIXRevokedCerts`, with each entry holding its own copy of
        the serial number: one entry per revoked certificate, in order. */
    method PKIXRevokedCerts() returns (rcs: seq<PkixRevokedCertificate>)
      ensures rcs == PkixOf(revokedCerts)
    {
      var n := |revokedCerts|;
      var a := new PkixRevokedCertificate[n](_ => PkixRevokedCertificate(0, 0));
      for i := 0 to n
        invariant forall j :: 0 <= j < i ==> a[j] == ToPkix(revokedCerts[j])
      {
        var c := revokedCerts[i];
        a[i] := PkixRevokedCertificate(c.serialNumber, c.revocationDate);
      }
      rcs := a[..];
    }
  }

  // ---------------------------------------------------------------------
  // The loop of PKIXRevokedCerts as written
  // ---------------------------------------------------------------------

  /** The `big.Int` a `pkix.RevokedCertificate` points to. */
  class BigIntCell {
    var value: int

    constructor (v: int)
      ensures value == v
    {
      value := v;
    }
  }

  /** A `pkix.RevokedCertificate` holding the pointer itself. */
  datatype PkixEntryRef = PkixEntryRef(serialNumber: BigIntCell, revocationTime: int)

  /** What the CRL writer sees when every entry shares one serial number,
      that of the last revoked certificate. */
  function SharedSerialEntries(l: seq<RevokedCert>): seq<PkixRevokedCertificate>
  {
    seq(|l|, i requires 0 <= i < |l| => PkixRevokedCertificate(l[|l| - 1].serialNumber, l[i].revocationDate))
  }

  /** The loop as written: the range variable `c` is one variable for the
      whole loop (the rule of Go before version 1.22), and every entry
      takes the address of its `SerialNumber`. Once the loop is over,
      every entry points to the serial number of the last certificate. */
  method PKIXRevokedCertsAsWritten(revokedCerts: seq<RevokedCert>) returns (rcs: seq<PkixEntryRef>, c: BigIntCell)
    ensures |rcs| == |revokedCerts|
    ensures forall i :: 0 <= i < |rcs| ==> rcs[i].serialNumber == c
    ensures forall i :: 0 <= i < |rcs| ==> PkixRevokedCertificate(rcs[i].serialNumber.value, rcs[i].revocationTime)
                                            == SharedSerialEntries(revokedCerts)[i]
  {
    var n := |revokedCerts|;
    c := new BigIntCell(0);
    var date := 0;
    var a := new PkixEntryRef[n](_ => PkixEntryRef(c, 0));
    for i := 0 to n
      invariant forall j :: 0 <= j < i ==> a[j] == PkixEntryRef(c, revokedCerts[j].revocationDate)
      invariant i > 0 ==> c.value == revokedCerts[i - 1].serialNumber
    {
      c.value, date := revokedCerts[i].serialNumber, revokedCerts[i].revocationDate;
      a[i] := PkixEntryRef(c, date);
    }
    rcs := a[..];
  }

  /** Two revocations with different serial numbers: the list as written
      names the second certificate twice and the first not at all. */
  lemma SharedSerialLosesRevocation()
    ensures var l := [RevokedCert(1, 10), RevokedCert(2, 20)];
            SharedSerialEntries(l) == [PkixRevokedCertificate(2, 10), PkixRevokedCertificate(2, 20)]
            && PkixOf(l) == [PkixRevokedCertificate(1, 10), PkixRevokedCertificate(2, 20)]
            && SharedSerialEntries(l) != PkixOf(l)
  {
    var l := [RevokedCert(1, 10), RevokedCert(2, 20)];
    assert SharedSerialEntries(l)[0].serialNumber == 2;
    assert PkixOf(l)[0].serialNumber == 1;
  }

  /** The two agree exactly when every serial number is the last one, as
      for a list of one entry. */
  lemma SharedSerialAgrees(l: seq<RevokedCert>)
    ensures SharedSerialEntries(l) == PkixOf(l) <==>
            forall i :: 0 <= i < |l| ==> l[i].serialNumber == l[|l| - 1].serialNumber
  {
    if SharedSerialEntries(l) == PkixOf(l) {
      forall i | 0 <= i < |l|
        ensures l[i].serialNumber == l[|l| - 1].serialNumber
      {
        assert SharedSerialEntries(l)[i] == PkixOf(l)[i];
      }
    }
  }

  // ---------------------------------------------------------------------
  // The revocation step of `revoke-certificate`
  // ---------------------------------------------------------------------

  /** The list updated in memory for revoking the certificate with serial
      number `serial`: `creationTime` and `revocationTime` are the two
      readings of the clock. The expiration date is left as it was. */
  method RevokeCertificate(crl: CRLData, serial: int, creationTime: int, revocationTime: int)
    modifies crl
    ensures crl.creationDate == creationTime && crl.expirationDate == old(crl.expirationDate)
    ensures crl.revokedCerts == old(crl.revokedCerts) + [RevokedCert(serial, revocationTime)]
  {
    crl.creationDate := creationTime;
    crl.AddRevokedCertificate(RevokedCert(serial, revocationTime));
  }

  /** After a revocation the entries handed to the CRL writer are the
      earlier ones followed by the new one. */
  lemma RevocationAppendsEntry(before: seq<RevokedCert>, serial: int, revocationTime: int)
    ensures PkixOf(before + [RevokedCert(serial, revocationTime)])
         == PkixOf(before) + [PkixRevokedCertificate(serial, revocationTime)]
  {
    PkixOfAppend(before, RevokedCert(serial, revocationTime));
  }
}
