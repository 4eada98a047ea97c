/** The data a certificate is created from: the subject, the validity in
    days, the subject alternative names and the two role flags; how missing
    values are taken from the configured defaults; and the certificate
    template built from it. */
module CertData {
  import opened Common
  import opened San
  import opened SerialNumber

  /** The record `Subject`. An empty string is an unset field. */
  datatype Subject = Subject(country: string, organization: string, organizationalUnit: string,
                             locality: string, province: string, streetAddress: string,
                             postalCode: string, commonName: string)

  /** The parts of a `pkix.Name` that are filled: a list per attribute, and
      the common name. */
  datatype Name = Name(country: seq<string>, organization: seq<string>, organizationalUnit: seq<string>,
                       locality: seq<string>, province: seq<string>, streetAddress: seq<string>,
                       postalCode: seq<string>, commonName: string)

  /** The list for an optional attribute: one element when it is set. */
  function Attribute(value: string): (l: seq<string>)
    ensures |l| <= 1
    ensures |l| == 1 <==> value != ""
    ensures |l| == 1 ==> l[0] == value
  {
    if value != "" then [value] else []
  }

  /** `Subject.PKIXName`. */
  function PKIXName(s: Subject): (n: Name)
    ensures SubjectOf(n) == s
  {
    Name(Attribute(s.country), Attribute(s.organization), Attribute(s.organizationalUnit),
         Attribute(s.locality), Attribute(s.province), Attribute(s.streetAddress),
         Attribute(s.postalCode), s.commonName)
  }

  /** The value an attribute list holds, or "" for none. */
  function AttributeValue(l: seq<string>): string
  {
    if |l| == 0 then "" else l[0]
  }

  /** The subject a name was made from, read back. */
  function SubjectOf(n: Name): Subject
  {
    Subject(AttributeValue(n.country), AttributeValue(n.organization), AttributeValue(n.organizationalUnit),
            AttributeValue(n.locality), AttributeValue(n.province), AttributeValue(n.streetAddress),
            AttributeValue(n.postalCode), n.commonName)
  }

  /** Converting loses nothing: each set field is the single element of its
      list, each unset field has no list, and the common name is copied. */
  lemma PKIXNameRoundTrip(s: Subject)
    ensures SubjectOf(PKIXName(s)) == s
  {
    var n := PKIXName(s);
    assert AttributeValue(n.country) == s.country;
    assert AttributeValue(n.organization) == s.organization;
    assert AttributeValue(n.organizationalUnit) == s.organizationalUnit;
    assert AttributeValue(n.locality) == s.locality;
    assert AttributeValue(n.province) == s.province;
    assert AttributeValue(n.streetAddress) == s.streetAddress;
    assert AttributeValue(n.postalCode) == s.postalCode;
  }

  /** An empty subject gives a name with no attribute and an empty common
      name. */
  lemma EmptySubjectName()
    ensures PKIXName(Subject("", "", "", "", "", "", "", "")) == Name([], [], [], [], [], [], [], "")
  {
  }

  // ---------------------------------------------------------------------
  // CertificateData and its defaults
  // ---------------------------------------------------------------------

  /** The fields of a `CertificateData`, as one value. */
  datatype Data = Data(validity: int, subject: Subject, san: SanLists, isCA: bool, isClientCertificate: bool)

  /** A string field after the merge: the default when it was empty. */
  function Fill(value: string, default: string): string
  {
    if value == "" then default else value
  }

  /** A SAN list after the merge: a fresh copy of the default, which is an
      empty list when the default is nil, when it was nil. */
  function FillList<T>(l: Option<seq<T>>, default: Option<seq<T>>): Option<seq<T>>
  {
    if l.None? then Some([] + default.GetOr([])) else l
  }

  /** The subject after the merge. */
  function FillSubject(s: Subject, d: Subject): Subject
  {
    Subject(Fill(s.country, d.country), Fill(s.organization, d.organization),
            Fill(s.organizationalUnit, d.organizationalUnit), Fill(s.locality, d.locality),
            Fill(s.province, d.province), Fill(s.streetAddress, d.streetAddress),
            Fill(s.postalCode, d.postalCode), Fill(s.commonName, d.commonName))
  }

  /** The SAN lists after the merge. */
  function FillSan(l: SanLists, d: SanLists): SanLists
  {
    SanLists(FillList(l.uris, d.uris), FillList(l.dnsNames, d.dnsNames),
             FillList(l.ipAddresses, d.ipAddresses), FillList(l.emailAddresses, d.emailAddresses))
  }

  /** What `UpdateFromDefaults` makes of `x` with the defaults `d`. */
  function MergeDefaults(x: Data, d: Data): Data
  {
    Data(if x.validity == 0 then d.validity else x.validity,
         FillSubject(x.subject, d.subject), FillSan(x.san, d.san), x.isCA, x.isClientCertificate)
  }

  /** The merge rule for a string field: a set value is kept, an empty one
      becomes the default. */
  predicate StringMerged(value: string, default: string, result: string)
  {
    (value != "" ==> result == value) && (value == "" ==> result == default)
  }

  /** The merge rule for a SAN list: a non-nil list is kept, even when
      empty; a nil one becomes a copy of the default, empty for a nil
      default. */
  predicate ListMerged<T(==)>(l: Option<seq<T>>, default: Option<seq<T>>, result: Option<seq<T>>)
  {
    (l.Some? ==> result == l) && (l.None? ==> result == Some(default.GetOr([])))
  }

  /** The merge rule applied to each of the eight subject fields. */
  predicate SubjectMerged(s: Subject, d: Subject, r: Subject)
  {
    StringMerged(s.country, d.country, r.country)
    && StringMerged(s.organization, d.organization, r.organization)
    && StringMerged(s.organizationalUnit, d.organizationalUnit, r.organizationalUnit)
    && StringMerged(s.locality, d.locality, r.locality)
    && StringMerged(s.province, d.province, r.province)
    && StringMerged(s.streetAddress, d.streetAddress, r.streetAddress)
    && StringMerged(s.postalCode, d.postalCode, r.postalCode)
    && StringMerged(s.commonName, d.commonName, r.commonName)
  }

  /** The merge rule applied to each of the four SAN lists. */
  predicate SanMerged(l: SanLists, d: SanLists, r: SanLists)
  {
    ListMerged(l.uris, d.uris, r.uris)
    && ListMerged(l.dnsNames, d.dnsNames, r.dnsNames)
    && ListMerged(l.ipAddresses, d.ipAddresses, r.ipAddresses)
    && ListMerged(l.emailAddresses, d.emailAddresses, r.emailAddresses)
  }

  /** The subject after the merge follows the rule field by field. */
  lemma FillSubjectMerged(s: Subject, d: Subject)
    ensures SubjectMerged(s, d, FillSubject(s, d))
  {
  }

  /** A nil list filled from the default holds the default's names. */
  lemma FillListMerged<T>(l: Option<seq<T>>, default: Option<seq<T>>)
    ensures ListMerged(l, default, FillList(l, default))
  {
    assert [] + default.GetOr([]) == default.GetOr([]);
  }

  /** The SAN lists after the merge follow the rule list by list. */
  lemma FillSanMerged(l: SanLists, d: SanLists)
    ensures SanMerged(l, d, FillSan(l, d))
  {
    FillListMerged(l.uris, d.uris);
    FillListMerged(l.dnsNames, d.dnsNames);
    FillListMerged(l.ipAddresses, d.ipAddresses);
    FillListMerged(l.emailAddresses, d.emailAddresses);
  }

  /** Whether every field the merge looks at is already set. */
  predicate Complete(x: Data)
  {
    x.validity != 0
    && x.subject.country != "" && x.subject.organization != "" && x.subject.organizationalUnit != ""
    && x.subject.locality != "" && x.subject.province != "" && x.subject.streetAddress != ""
    && x.subject.postalCode != "" && x.subject.commonName != ""
    && x.san.uris.Some? && x.san.dnsNames.Some? && x.san.ipAddresses.Some? && x.san.emailAddresses.Some?
  }

  /** The record `CertificateData`. */
  class CertificateData {
    var validity: int
    var subject: Subject
    var san: SanLists
    var isCA: bool
    var isClientCertificate: bool

    function Snapshot(): Data
      reads this
    {
      Data(validity, subject, san, isCA, isClientCertificate)
    }

    constructor (x: Data)
      ensures Snapshot() == x
    {
      validity, subject, san, isCA, isClientCertificate := x.validity, x.subject, x.san, x.isCA, x.isClientCertificate;
    }

    /** `CertificateData.UpdateFromDefaults`: each unset field takes the
        default's value; nothing else changes. */
    method UpdateFromDefaults(defaults: CertificateData)
      modifies this
      ensures Snapshot() == MergeDefaults(old(Snapshot()), old(defaults.Snapshot()))
    {
      var d := defaults.Snapshot();
      if validity == 0 {
        validity := d.validity;
      }
      subject := FillSubjectFields(subject, d.subject);
      san := FillSanLists(san, d.san);
    }
  }

  /** The subject's fields filled one by one, in the order of the source. */
  method FillSubjectFields(subject: Subject, d: Subject) returns (s: Subject)
    ensures s == FillSubject(subject, d)
    ensures SubjectMerged(subject, d, s)
  {
    FillSubjectMerged(subject, d);
    s := subject;
    if s.country == "" {
      s := s.(country := d.country);
    }
    if s.organization == "" {
      s := s.(organization := d.organization);
    }
    if s.organizationalUnit == "" {
      s := s.(organizationalUnit := d.organizationalUnit);
    }
    if s.locality == "" {
      s := s.(locality := d.locality);
    }
    if s.province == "" {
      s := s.(province := d.province);
    }
    if s.streetAddress == "" {
      s := s.(streetAddress := d.streetAddress);
    }
    if s.postalCode == "" {
      s := s.(postalCode := d.postalCode);
    }
    if s.commonName == "" {
      s := s.(commonName := d.commonName);
    }
  }

  /** The SAN lists filled one by one, each nil list with a copy of the
      default. */
  method FillSanLists(san: SanLists, d: SanLists) returns (l: SanLists)
    ensures l == FillSan(san, d)
    ensures SanMerged(san, d, l)
  {
    FillSanMerged(san, d);
    l := san;
    if l.uris.None? {
      l := l.(uris := Some([] + d.uris.GetOr([])));
    }
    if l.dnsNames.None? {
      l := l.(dnsNames := Some([] + d.dnsNames.GetOr([])));
    }
    if l.ipAddresses.None? {
      l := l.(ipAddresses := Some([] + d.ipAddresses.GetOr([])));
    }
    if l.emailAddresses.None? {
      l := l.(emailAddresses := Some([] + d.emailAddresses.GetOr([])));
    }
  }

  /** Field by field: a non-zero validity and every non-empty subject
      string are kept, zero and empty ones take the default; every non-nil
      SAN list is kept, empty or not, and every nil one becomes a copy of
      the default; the role flags are never touched; and every SAN list is
      set afterwards. */
  lemma MergeKeepsSetValues(x: Data, d: Data)
    ensures var m := MergeDefaults(x, d);
            m.isCA == x.isCA && m.isClientCertificate == x.isClientCertificate
            && (x.validity != 0 ==> m.validity == x.validity)
            && (x.validity == 0 ==> m.validity == d.validity)
            && SubjectMerged(x.subject, d.subject, m.subject)
            && SanMerged(x.san, d.san, m.san)
            && (x.san.uris == Some([]) ==> m.san.uris == Some([]))
            && m.san.uris.Some? && m.san.dnsNames.Some? && m.san.ipAddresses.Some? && m.san.emailAddresses.Some?
  {
    FillSanMerged(x.san, d.san);
  }

  /** Merging into complete data changes nothing, whatever the defaults. */
  lemma MergeComplete(x: Data, d: Data)
    requires Complete(x)
    ensures MergeDefaults(x, d) == x
  {
  }

  /** Merging fills every field the defaults have set. */
  lemma MergeCompletes(x: Data, d: Data)
    requires Complete(d)
    ensures Complete(MergeDefaults(x, d))
  {
  }

  /** Applying the defaults twice is applying them once. */
  lemma MergeIdempotent(x: Data, d: Data)
    ensures MergeDefaults(MergeDefaults(x, d), d) == MergeDefaults(x, d)
  {
    var m := MergeDefaults(x, d);
    assert FillSubject(m.subject, d.subject) == m.subject;
    assert FillSan(m.san, d.san) == m.san;
  }

  /** Merging into unset data gives the defaults' values, except that a nil
      default list becomes an empty list. */
  lemma MergeIntoUnset(d: Data, isCA: bool, isClient: bool)
    requires d.validity != 0
    ensures var m := MergeDefaults(Data(0, Subject("", "", "", "", "", "", "", ""),
                                        SanLists(None, None, None, None), isCA, isClient), d);
            m.validity == d.validity && m.subject == d.subject
            && m.san.uris == Some(d.san.uris.GetOr([]))
            && m.san.dnsNames == Some(d.san.dnsNames.GetOr([]))
            && m.san.ipAddresses == Some(d.san.ipAddresses.GetOr([]))
            && m.san.emailAddresses == Some(d.san.emailAddresses.GetOr([]))
            && m.isCA == isCA && m.isClientCertificate == isClient
  {
    FillSanMerged(SanLists(None, None, None, None), d.san);
  }

  // ---------------------------------------------------------------------
  // CertificateTemplate
  // ---------------------------------------------------------------------

  /** `x509.KeyUsage`, a bit set. */
  type KeyUsageMask = bv16

  const KeyUsageDigitalSignature: KeyUsageMask := 1
  const KeyUsageContentCommitment: KeyUsageMask := 2
  const KeyUsageKeyEncipherment: KeyUsageMask := 4
  const KeyUsageDataEncipherment: KeyUsageMask := 8
  const KeyUsageKeyAgreement: KeyUsageMask := 16
  const KeyUsageCertSign: KeyUsageMask := 32
  const KeyUsageCRLSign: KeyUsageMask := 64
  const KeyUsageEncipherOnly: KeyUsageMask := 128
  const KeyUsageDecipherOnly: KeyUsageMask := 256

  /** The key usage of the template: key encipherment and digital
      signature, and certificate and CRL signing for a CA. */
  function TemplateKeyUsage(isCA: bool): (k: KeyUsageMask)
    ensures k & KeyUsageDigitalSignature != 0 && k & KeyUsageKeyEncipherment != 0
    ensures (k & KeyUsageCertSign != 0) == isCA && (k & KeyUsageCRLSign != 0) == isCA
  {
    var keyUsage: KeyUsageMask := 0 | KeyUsageKeyEncipherment | KeyUsageDigitalSignature;
    if isCA then keyUsage | KeyUsageCertSign | KeyUsageCRLSign else keyUsage
  }

  /** The nine `x509.KeyUsage` constants, bit 0 to bit 8. */
  const KeyUsages: seq<KeyUsageMask> := [KeyUsageDigitalSignature, KeyUsageContentCommitment,
                                         KeyUsageKeyEncipherment, KeyUsageDataEncipherment,
                                         KeyUsageKeyAgreement, KeyUsageCertSign, KeyUsageCRLSign,
                                         KeyUsageEncipherOnly, KeyUsageDecipherOnly]

  /** The numbers of the constants a key usage holds. */
  function UsageBits(mask: KeyUsageMask): set<nat>
  {
    set i: nat | i < |KeyUsages| && mask & KeyUsages[i] != 0
  }

  /** A CA gets exactly digital signature (0), key encipherment (2),
      certificate signing (5) and CRL signing (6); any other certificate
      exactly the first two. */
  lemma TemplateKeyUsageBits(isCA: bool)
    ensures UsageBits(TemplateKeyUsage(isCA)) == if isCA then {0, 2, 5, 6} else {0, 2}
  {
    var m := TemplateKeyUsage(isCA);
    forall i: nat | i < |KeyUsages|
      ensures i in UsageBits(m) <==> i in (if isCA then {0, 2, 5, 6} else {0, 2})
    {
      BitOfUsage(isCA, i);
    }
  }

  lemma BitOfUsage(isCA: bool, i: nat)
    requires i < |KeyUsages|
    ensures TemplateKeyUsage(isCA) & KeyUsages[i] != 0 <==> i == 0 || i == 2 || (isCA && (i == 5 || i == 6))
  {
  }

  /** One day, in nanoseconds: `24 * time.Hour`. */
  const Hour: int := 3_600_000_000_000
  const Day: int := 24 * Hour

  /** The validity as `time.Duration(validity) * 24 * time.Hour` computes
      it, in wrapping 64-bit arithmetic. */
  function ValidityDurationAsWritten(validity: int): (d: int)
    requires MinInt64 <= validity <= MaxInt64
    ensures MinInt64 <= d <= MaxInt64
  {
    WrapInt64(WrapInt64(validity * 24) * Hour)
  }

  /** The validity as a duration: `validity` days, without overflow. */
  function ValidityDuration(validity: int): (d: int)
    ensures d % Day == 0 && d / Day == validity
  {
    validity * Day
  }

  /** The largest validity whose duration fits in 64 bits. */
  const MaxExactValidity: int := 106751

  /** Up to 106751 days the written computation is exact. */
  lemma DurationExactBelowOverflow(validity: int)
    requires 0 <= validity <= MaxExactValidity
    ensures ValidityDurationAsWritten(validity) == ValidityDuration(validity)
  {
    assert validity * Day <= MaxExactValidity * Day;
    assert MaxExactValidity * Day <= MaxInt64;
  }

  /** One day more, still far below `math.MaxInt32`, and the duration wraps
      round to about -292 years: the certificate would expire before it
      becomes valid. */
  lemma DurationOverflows()
    ensures 1 <= MaxExactValidity + 1 <= MaxInt32
    ensures ValidityDurationAsWritten(MaxExactValidity + 1) == -9_223_371_273_709_551_616
    ensures ValidityDurationAsWritten(MaxExactValidity + 1) < 0 < ValidityDuration(MaxExactValidity + 1)
  {
  }

  /** Why `CertificateTemplate` failed. */
  datatype TemplateError = SerialNumberFailed(cause: SerialError)

  /** The parts of an `x509.Certificate` the template sets. Times are
      nanoseconds on the UTC clock. */
  datatype Template = Template(serialNumber: nat, subject: Name, notBefore: int, notAfter: int,
                               keyUsage: KeyUsageMask, basicConstraintsValid: bool, isCA: bool,
                               uris: Option<seq<Uri>>, dnsNames: Option<seq<string>>,
                               ipAddresses: Option<seq<IpAddress>>, emailAddresses: Option<seq<string>>)

  /** The template for data `x`, a serial number and its validity period. */
  function TemplateOf(x: Data, serialNumber: nat, notBefore: int, notAfter: int): Template
  {
    Template(serialNumber, PKIXName(x.subject), notBefore, notAfter,
             TemplateKeyUsage(x.isCA), true, x.isCA,
             x.san.uris, x.san.dnsNames, x.san.ipAddresses, x.san.emailAddresses)
  }

  /** `CertificateData.CertificateTemplate` for data `x`, with `draw` the
      random octets read for the serial number and `now` the clock; the
      validity is added as exactly `validity` days. */
  function CertificateTemplate(x: Data, draw: Option<seq<byte>>, now: int): (r: Result<Template, TemplateError>)
    requires draw.Some? ==> |draw.value| == DrawLength
    ensures r.Failure? <==> draw.None?
    ensures r.Success? ==> r.value.serialNumber < SerialLimit
  {
    match GenerateRandomSerialNumber(draw)
    case Failure(e) => Failure(SerialNumberFailed(e))
    case Success(serialNumber) =>
      var notBefore := now;
      var notAfter := now + ValidityDuration(x.validity);
      Success(TemplateOf(x, serialNumber, notBefore, notAfter))
  }

  /** `CertificateData.CertificateTemplate` as written: the validity, a Go
      `int` of 64 bits, is added as the wrapping duration of
      certificate_data.go:151. */
  function CertificateTemplateAsWritten(x: Data, draw: Option<seq<byte>>, now: int): (r: Result<Template, TemplateError>)
    requires MinInt64 <= x.validity <= MaxInt64
    requires draw.Some? ==> |draw.value| == DrawLength
    ensures r.Failure? <==> draw.None?
    ensures r.Success? ==> r.value.serialNumber < SerialLimit
  {
    match GenerateRandomSerialNumber(draw)
    case Failure(e) => Failure(SerialNumberFailed(e))
    case Success(serialNumber) =>
      var notBefore := now;
      var notAfter := now + ValidityDurationAsWritten(x.validity);
      Success(TemplateOf(x, serialNumber, notBefore, notAfter))
  }

  /** Up to 106751 days the written template is the intended one. */
  lemma TemplateAsWrittenExact(x: Data, draw: Option<seq<byte>>, now: int)
    requires 0 <= x.validity <= MaxExactValidity
    requires draw.Some? ==> |draw.value| == DrawLength
    ensures CertificateTemplateAsWritten(x, draw, now) == CertificateTemplate(x, draw, now)
  {
    DurationExactBelowOverflow(x.validity);
  }

  /** At 106752 days, which the command line accepts, the written template
      expires about 292 years before it becomes valid, while the intended
      one is valid for the whole period. */
  lemma TemplateAsWrittenExpiresEarly(x: Data, b: seq<byte>, now: int)
    requires x.validity == MaxExactValidity + 1 && |b| == DrawLength
    ensures x.validity <= MaxInt32
    ensures var t := CertificateTemplateAsWritten(x, Some(b), now).value;
            t.notAfter < t.notBefore
            && t.notAfter == now - 9_223_371_273_709_551_616
    ensures var t := CertificateTemplate(x, Some(b), now).value;
            t.notAfter > t.notBefore
  {
    DurationOverflows();
  }

  /** The template is valid from `now` for exactly `validity` days, carries
      the subject's name, marks its basic constraints valid with the CA
      flag of the data, and passes the four SAN lists through unchanged,
      nil or not. */
  lemma TemplateContents(x: Data, b: seq<byte>, now: int)
    requires |b| == DrawLength
    ensures var t := CertificateTemplate(x, Some(b), now).value;
            t.notBefore == now && t.notAfter - t.notBefore == x.validity * Day
            && (x.validity >= 1 ==> t.notAfter > t.notBefore)
            && SubjectOf(t.subject) == x.subject
            && t.basicConstraintsValid && t.isCA == x.isCA
            && SanLists(t.uris, t.dnsNames, t.ipAddresses, t.emailAddresses) == x.san
  {
    PKIXNameRoundTrip(x.subject);
  }

  /** `IsClientCertificate` plays no part in the template. */
  lemma TemplateIgnoresClientFlag(x: Data, draw: Option<seq<byte>>, now: int)
    requires draw.Some? ==> |draw.value| == DrawLength
    ensures CertificateTemplate(x, draw, now) == CertificateTemplate(x.(isClientCertificate := !x.isClientCertificate), draw, now)
  {
  }
}
