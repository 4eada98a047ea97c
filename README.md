# galdor/pki: certificate extensions, request data, CRL entries, printer and passwords

This project models the core of `pki`, a small command-line certificate authority written in Go. It proves properties of that model in Dafny.

It covers these parts:

- **The four extension decoders.** Key usage, extended key usage, basic constraints and subject alt name (RFC 5280 sections 4.2.1.3, 4.2.1.12, 4.2.1.9 and 4.2.1.6). They sit on a DER reader written to behave as Go's `encoding/asn1.Unmarshal` does for the types the decoders use. A reference DER encoder gives every decoder a round trip.
- **The comma-list parsers** of `san.go`.
- **The certificate request data** of `certificate_data.go`: the subject name, the defaults merge and the certificate template.
- **The revocation list data** of `crl_data.go`, and the in-memory revocation step of `revoke-certificate`.
- **The indenting printer** with its sticky write error and its hex dump.
- **The extension rendering** of `certificates.go`, plus its issuer choice and its serial-number bound.
- **The password rules** of `passwords.go`.

## How it is organised

There is one module per Go file:

- `Common`: machine integers, `Option`/`Result`, decimal text and big-endian values.
- `Der`: the DER reader.
- `DerEncode`: the reference encoder and its round trips.
- `KeyUsage`, `ExtendedKeyUsage`, `BasicConstraints`, `SubjectAltName`: the four decoders.
- `San`, `SerialNumber`, `CertData`, `CrlData`, `Printer`, `Certificates`, `Passwords`.

`SerialNumber` holds `generateRandomSerialNumber` from `certificates.go`. It has its own module because the certificate template needs it and `Certificates` needs the template.

The Go objects whose methods update their fields are Dafny classes:

- `ExtKeyUsage`, `ExtExtendedKeyUsage`, `ExtBasicConstraints`, `ExtSubjectAltName`;
- `CertificateData`, `CRLData`;
- `Printer` and its `Writer`;
- the password `Terminal`.

Each method is proved against a function on values. The properties are proved about those functions.

The outside world enters as parameters:

- The clock is an integer of nanoseconds.
- The random octets of the serial number are an optional 16-octet draw.
- `url.Parse`, `net.ParseIP` and the `String` methods of URLs and IP addresses are function parameters.
- Which write calls of the printer's writer fail is a set of call numbers.
- What the terminal returns is a queue of entries.
- `x509.ParseCRL` is its optional result.
- Private keys are abstract handles.

## Model

| member | source | states |
|---|---|---|
| Common.WrapInt64 | certificate_data.go:151 | the result is a 64-bit signed value, equal to the input whenever the input already fits |
| Common.BytesToString | ext_subject_alt_name.go:65 | `string(value.Bytes)` keeps the length and turns octet i into character i |
| Common.Spaces | printer.go:89-96 | n spaces, one per position |
| Common.DecimalValueOfDecimal | certificates.go:271 | the decimal text of `%d` reads back as the number it prints |
| Common.DecimalInjective | certificates.go:271 | two numbers with the same `%d` text are equal |
| Der.ReadHeader | ext_subject_alt_name.go:35 | a header read consumes at least two octets and leaves a suffix of the input; the class has two bits |
| Der.Contents | ext_subject_alt_name.go:35 | the contents are exactly `length` octets followed by the rest; it fails exactly when fewer octets remain |
| Der.ReadRaw | ext_subject_alt_name.go:35-40 | `Unmarshal` into a `RawValue` consumes at least two octets and returns a suffix of its input as the rest |
| Der.ReadExpected | ext_key_usage.go:81 | a typed `Unmarshal` succeeds only on a universal element of the type's tag and form, and then reads as `ReadRaw` does |
| Der.ReadOptional | ext_basic_constraints.go:23-24 | an optional struct field either consumes a whole element or is absent |
| Der.RawExtends | ext_subject_alt_name.go:35-40 | appending octets to the input of a successful read changes only the rest, by exactly those octets; a failing read stays failing |
| Der.ExpectedExtends | ext_key_usage.go:81-85 | the same for a typed read |
| Der.ParseBitString | ext_key_usage.go:81 | an accepted BIT STRING has well-formed padding; its octets are the contents after the first; its length is eight per octet less the unused count |
| Der.At | ext_key_usage.go:87-121 | `BitString.At` is 0 or 1, and 0 at every position outside the bit length |
| Der.ParseBool | ext_basic_constraints.go:23 | a BOOLEAN is accepted exactly when it is one octet 0x00 or 0xff, and it is true exactly for 0xff |
| Der.ParseInt64 | ext_basic_constraints.go:24 | an accepted INTEGER has one to eight octets and is their two's-complement value |
| Der.ParseOid | ext_extended_key_usage.go:31 | an accepted OBJECT IDENTIFIER has at least two arcs |
| Der.ParseOids | ext_extended_key_usage.go:31 | a SEQUENCE OF OBJECT IDENTIFIER gives one identifier per element, each the parse of that element |
| Der.Dotted | ext_extended_key_usage.go:69 | `ObjectIdentifier.String`: empty exactly for no arcs, and at least one character per arc plus a dot between arcs |
| Der.DottedInjective | ext_extended_key_usage.go:40 | `ObjectIdentifier.String` is injective: two OIDs with the same dotted text are equal |
| Der.DottedChars | ext_extended_key_usage.go:69 | dotted text contains only digits and dots |
| Der.DottedCons | ext_extended_key_usage.go:40 | dotted text is the first arc, a dot, then the dotted rest |
| DerEncode.EncodeLength | ext_subject_alt_name.go:35 | a definite length takes one to four octets |
| DerEncode.Encode | ext_subject_alt_name.go:35 | an element's encoding is its contents plus two to five octets |
| DerEncode.LengthRoundTrip | ext_subject_alt_name.go:35 | every encoded length below 2^24 reads back as itself, leaving what follows |
| DerEncode.HeaderRoundTrip | ext_subject_alt_name.go:35 | the header of an encoded element reads back as its class, form, tag and content length |
| DerEncode.RawRoundTrip | ext_subject_alt_name.go:35 | an encoded element reads back whole, leaving what follows it |
| DerEncode.ExpectedRoundTrip | ext_key_usage.go:81 | an encoded universal element is accepted by the typed read for its own tag and form |
| DerEncode.OptionalRoundTrip | ext_basic_constraints.go:23-24 | an encoded element fills the optional field of its own tag and form |
| DerEncode.OptionalMismatch | ext_basic_constraints.go:23-24 | an element of another tag or form leaves the optional field absent without consuming it |
| DerEncode.Zeros | ext_key_usage.go:87-121 | n unset bits |
| DerEncode.PackBitsBound | ext_key_usage.go:87-121 | n bits packed most significant first stay below 2^n |
| DerEncode.PackBitsBit | ext_key_usage.go:87-121 | bit k of the packed value, counted from the most significant, is flag k |
| DerEncode.PackBitsZeros | ext_key_usage.go:87-121 | padding with zero bits clears the low bits |
| DerEncode.OctetBits | ext_key_usage.go:87-121 | bit k of a packed octet, counted from the most significant, is flag k or zero beyond the flags |
| DerEncode.OctetPadding | ext_key_usage.go:87-121 | the unused low bits of a packed octet are clear |
| DerEncode.OctetsLength | ext_key_usage.go:87-121 | n bits take ⌈n/8⌉ octets |
| DerEncode.OctetsBit | ext_key_usage.go:87-121 | bit i of the bits sits at bit i mod 8 of octet i div 8 |
| DerEncode.UnusedBits | ext_key_usage.go:81 | the unused-bit count is below eight and completes the last octet |
| DerEncode.UnusedBitsFill | ext_key_usage.go:81 | the octets hold exactly the bits and the unused ones |
| DerEncode.OctetsLastPadding | ext_key_usage.go:81 | the unused bits of the last octet are zero, as DER requires |
| DerEncode.BitStringParses | ext_key_usage.go:81 | an encoded bit string parses to its octets and its bit count |
| DerEncode.BitStringRoundTrip | ext_key_usage.go:81-121 | an encoded bit string parses well formed, and `At(i)` returns bit i for every i below its length |
| DerEncode.UnsignedOctets | ext_basic_constraints.go:24 | a number takes at least one octet |
| DerEncode.UnsignedValue | ext_basic_constraints.go:24 | the minimal big-endian octets of n read back as n |
| DerEncode.UnsignedLead | ext_basic_constraints.go:24 | the octets are minimal: more than one exactly from 256 on, and no leading zero octet |
| DerEncode.UnsignedLength | ext_basic_constraints.go:24 | a number below 256^k takes at most k octets |
| DerEncode.BigEndianLeadingZero | ext_basic_constraints.go:24 | a leading zero octet does not change a big-endian value |
| DerEncode.EncodeInteger | ext_basic_constraints.go:24 | an INTEGER has at least one content octet |
| DerEncode.IntegerRoundTrip | ext_basic_constraints.go:24 | every non-negative number below 2^56 encodes to an INTEGER that reads back as itself |
| DerEncode.Base128Octets | ext_extended_key_usage.go:31 | a base-128 arc takes one octet, and at most two, three or four below 2^14, 2^21 or 2^28 |
| DerEncode.Base128RoundTrip | ext_extended_key_usage.go:31 | every arc up to MaxInt32 encodes in base 128 and reads back as itself, leaving what follows |
| DerEncode.LeadingGroups | ext_extended_key_usage.go:31 | reading the leading groups of an arc accumulates its value |
| DerEncode.ArcsRoundTrip | ext_extended_key_usage.go:31 | every list of arcs up to MaxInt32 reads back from its encoding |
| DerEncode.FirstSubidentifier | ext_extended_key_usage.go:31 | the first subidentifier 40·a + b splits back into a and b |
| DerEncode.OidRoundTrip | ext_extended_key_usage.go:31 | every valid OID reads back from its encoding |
| DerEncode.OidElement | ext_extended_key_usage.go:31 | an OID short enough is an encodable element |
| DerEncode.ScanOidsRoundTrip | ext_extended_key_usage.go:31 | the elements of an encoded SEQUENCE OF split back into the encoded OIDs |
| DerEncode.ParseOidsRoundTrip | ext_extended_key_usage.go:31 | those elements parse back into the OIDs |
| DerEncode.OidSequenceRoundTrip | ext_extended_key_usage.go:31 | an encoded SEQUENCE OF OBJECT IDENTIFIER reads back as its OIDs, in order |
| KeyUsage.DecodeBits | ext_key_usage.go:81-85 | a decoded bit string is well formed |
| KeyUsage.Merge | ext_key_usage.go:87-121 | the merged flags are again nine |
| KeyUsage.MergeAt | ext_key_usage.go:87-121 | flag i after decoding is flag i before, or bit i being set; a flag is never cleared |
| KeyUsage.FlagNamesDistinct | ext_key_usage.go:36-76 | the nine names are distinct |
| KeyUsage.PickFacts | ext_key_usage.go:36-76 | the names picked from the first n flags are those of exactly the set flags, in increasing flag order, one per set flag |
| KeyUsage.NamesExactlySet | ext_key_usage.go:36-76 | `Values` holds the name of flag i exactly when flag i is set |
| KeyUsage.NamesInBitOrder | ext_key_usage.go:36-76 | `Values` has one name per set flag, in flag order, without duplicates |
| KeyUsage.ExtKeyUsage.Flags | ext_key_usage.go:24-34 | the receiver holds nine flags |
| KeyUsage.ExtKeyUsage.constructor | ext_key_usage.go:24-34 | the zero value has no flag set |
| KeyUsage.ExtKeyUsage.Values | ext_key_usage.go:36-76 | `Values` appends the names of the set flags in flag order |
| KeyUsage.ExtKeyUsage.SetBitsFrom | ext_key_usage.go:87-121 | the nine `bits.At` tests set the flags the bit string has set and keep the others |
| KeyUsage.ExtKeyUsage.Decode | ext_key_usage.go:78-124 | a malformed bit string or trailing data is an error that leaves the flags unchanged; otherwise the flags are merged with the bits |
| KeyUsage.TrailingBytesRejected | ext_key_usage.go:83-85 | any octets after an accepted BIT STRING make it fail with trailing data |
| KeyUsage.DecodeEncoded | ext_key_usage.go:81 | nine flags encoded as a BIT STRING decode to their own bits |
| KeyUsage.KeyUsageRoundTrip | ext_key_usage.go:78-124 | decoding encoded flags into the zero value gives those flags; into any receiver it gives their union with the flags there |
| KeyUsage.MergeOfBits | ext_key_usage.go:87-121 | a bit string that holds the flags merges into the zero value as those flags |
| KeyUsage.SameFlags | ext_key_usage.go:24-34 | flags equal at every position are equal |
| KeyUsage.NamesOfZeroAndFive | ext_key_usage.go:36-76 | flags 0 and 5 are named digitalSignature and keyCertSign, in that order |
| KeyUsage.ValuesOfBitsZeroAndFive | ext_key_usage.go:78-124 | decoding a string with only bits 0 and 5 into a zero value gives `Values` = [digitalSignature, keyCertSign] |
| ExtendedKeyUsage.KeyPurpose | ext_extended_key_usage.go:41-66 | a key purpose identifier has nine arcs |
| ExtendedKeyUsage.NamedPurposeShape | ext_extended_key_usage.go:41-66 | the named purposes are exactly 1.3.6.1.5.5.7.3.k for k from 1 to 9 |
| ExtendedKeyUsage.PurposeDottedDistinct | ext_extended_key_usage.go:41-66 | the nine case labels are distinct |
| ExtendedKeyUsage.PurposeNamesDistinct | ext_extended_key_usage.go:41-66 | the nine names are distinct |
| ExtendedKeyUsage.DottedAppend | ext_extended_key_usage.go:40 | the dotted text of two OIDs joined is their texts joined by a dot |
| ExtendedKeyUsage.DottedKeyPurposeArc | ext_extended_key_usage.go:41-66 | the key purpose arc prints as 1.3.6.1.5.5.7.3 |
| ExtendedKeyUsage.DottedNamedPurpose | ext_extended_key_usage.go:41-66 | purpose k prints as the text of the k-th case label |
| ExtendedKeyUsage.NameFromCase | ext_extended_key_usage.go:40-66 | the switch maps the j-th case label to the j-th name |
| ExtendedKeyUsage.NameFromDefault | ext_extended_key_usage.go:68-69 | a text matching no case label is its own name |
| ExtendedKeyUsage.NamedPurpose | ext_extended_key_usage.go:41-66 | 1.3.6.1.5.5.7.3.1 to .9 are named serverAuth to OCSPSigning, in that order |
| ExtendedKeyUsage.NotCase | ext_extended_key_usage.go:40-66 | an OID that is not a named purpose matches no case label |
| ExtendedKeyUsage.OtherPurpose | ext_extended_key_usage.go:68-69 | any other OID is named by its dotted text and is never rejected |
| ExtendedKeyUsage.DottedIsNoName | ext_extended_key_usage.go:40-69 | dotted text never coincides with one of the nine names |
| ExtendedKeyUsage.PurposeNameExact | ext_extended_key_usage.go:40-69 | a name from the table comes only from its own OID |
| ExtendedKeyUsage.Purposes | ext_extended_key_usage.go:37-73 | one name per OID, in order, each the switch's name for it |
| ExtendedKeyUsage.ExtExtendedKeyUsage.constructor | ext_extended_key_usage.go:24-26 | the zero value has no key purposes |
| ExtendedKeyUsage.ExtExtendedKeyUsage.Decode | ext_extended_key_usage.go:28-76 | on error the list is unchanged; otherwise the new names go after the existing ones, one per OID in encoded order |
| ExtendedKeyUsage.ExtExtendedKeyUsage.AppendPurposes | ext_extended_key_usage.go:37-73 | the loop appends the switch's name for each identifier, in order, after the names held |
| ExtendedKeyUsage.OidSequenceExtends | ext_extended_key_usage.go:31 | appending octets to a SEQUENCE OF read changes only its rest |
| ExtendedKeyUsage.TrailingBytesRejected | ext_extended_key_usage.go:33-35 | octets after an accepted SEQUENCE OF make the decode fail with trailing data |
| ExtendedKeyUsage.ExtendedKeyUsageRoundTrip | ext_extended_key_usage.go:31-35 | an encoded SEQUENCE OF OBJECT IDENTIFIER decodes to its OIDs |
| BasicConstraints.ReadCa | ext_basic_constraints.go:23 | the optional CA field consumes a suffix of the body |
| BasicConstraints.DecodeInto | ext_basic_constraints.go:27-36 | a malformed outer SEQUENCE is an error that leaves the fields as they were; success means exactly one SEQUENCE with nothing after it |
| BasicConstraints.ExtBasicConstraints.constructor | ext_basic_constraints.go:22-25 | the zero value has CA false and path length 0 |
| BasicConstraints.ExtBasicConstraints.Decode | ext_basic_constraints.go:27-36 | the receiver takes the decoded fields and the outcome of `DecodeInto` |
| BasicConstraints.TrailingBytesRejected | ext_basic_constraints.go:31-33 | octets after an accepted SEQUENCE fail with trailing data, once the fields are filled |
| BasicConstraints.BodySize | ext_basic_constraints.go:22-25 | the body of the reference encoding is at most 20 octets |
| BasicConstraints.ReadCaOfEncoded | ext_basic_constraints.go:23 | an encoded CA boolean is read; when it is absent the previous value stays |
| BasicConstraints.ReadPathLenOfEncoded | ext_basic_constraints.go:24 | an encoded path length reads back as itself; when it is absent it reads as -1 |
| BasicConstraints.BasicConstraintsRoundTrip | ext_basic_constraints.go:22-36 | an encoded extension decodes to its CA flag (or the receiver's) and to its path length, or -1 when absent |
| BasicConstraints.AbsentAndZeroPathLen | ext_basic_constraints.go:24 | an absent path length decodes to -1, distinct from an explicit 0; an absent CA leaves CA false in a zero value |
| SubjectAltName.DecodeSan | ext_subject_alt_name.go:32-109 | a malformed outer element fails with the reader's error and leaves the lists; success needs exactly one universal constructed SEQUENCE with nothing after it |
| SubjectAltName.ExtSubjectAltName.constructor | ext_subject_alt_name.go:25-30 | the zero value has four empty lists |
| SubjectAltName.ExtSubjectAltName.Decode | ext_subject_alt_name.go:32-109 | the loop over the sequence body leaves the lists and returns the outcome of `DecodeSan` |
| SubjectAltName.ExtSubjectAltName.AddName | ext_subject_alt_name.go:62-103 | the tag switch appends one accepted name to its list, or fails and changes nothing |
| SubjectAltName.StepAccepted | ext_subject_alt_name.go:62-99 | an accepted element appends to exactly the list its tag names |
| SubjectAltName.Single | ext_subject_alt_name.go:62-99 | tags 1, 2, 7 and 6 go to email addresses, DNS names, IP addresses and parsed URIs respectively, and to no other list |
| SubjectAltName.StepRejected | ext_subject_alt_name.go:79-83 | an unknown tag, a bad IP length or an unparsable URI fails with its own error |
| SubjectAltName.StepIgnoresClass | ext_subject_alt_name.go:62 | only the tag number of an element is examined, not its class or form |
| SubjectAltName.FiltersCons | ext_subject_alt_name.go:62-99 | each list collects the names of its tag element by element |
| SubjectAltName.AppendedCons | ext_subject_alt_name.go:62-105 | appending a run of names is appending the first, then the rest |
| SubjectAltName.ApplyAccepted | ext_subject_alt_name.go:54-106 | when all elements are accepted, each list gains its names in encoded order, duplicates kept |
| SubjectAltName.ApplyFirstRejected | ext_subject_alt_name.go:54-106 | the first rejected element fails the decode, and the names before it stay appended |
| SubjectAltName.BodyRoundTrip | ext_subject_alt_name.go:54-106 | each iteration consumes exactly one whole encoded element, and the loop ends when the body is exhausted |
| SubjectAltName.SanRoundTrip | ext_subject_alt_name.go:32-109 | an encoded GeneralNames decodes as its elements applied in order |
| SubjectAltName.TrailingBytesRejected | ext_subject_alt_name.go:35-40 | octets after the outer element fail with trailing data and leave the lists unchanged |
| SubjectAltName.MalformedElement | ext_subject_alt_name.go:55-60 | a malformed or truncated inner element fails with the reader's error |
| San.Split | san.go:34 | `strings.Split` on "," gives at least one part |
| San.JoinSplit | san.go:34 | the parts joined with commas give back the input |
| San.SplitCommaFree | san.go:34 | no part contains a comma |
| San.SplitAround | san.go:34 | splitting at a comma splits each side |
| San.SplitJoin | san.go:34 | comma-free parts joined and split again are those parts |
| San.SplitCommaFreePart | san.go:34 | a comma-free string is a single part |
| San.LeadingCommaSplit | san.go:34 | a leading comma makes an empty first part |
| San.TrailingComma | san.go:34 | a trailing comma makes an empty last part |
| San.DoubleComma | san.go:34 | ",," makes an empty part between its sides |
| San.TrimLeftShape | san.go:37 | trimming the left removes exactly the leading spaces |
| San.TrimRightShape | san.go:37 | trimming the right removes exactly the trailing spaces |
| San.TrimShape | san.go:37 | `strings.Trim(part, " ")` is a slice of the part between runs of spaces only, and neither starts nor ends with a space |
| San.TrimLeftOf | san.go:37 | trimming spaces before a text that does not start with one gives the text |
| San.TrimRightOf | san.go:37 | the same at the right |
| San.TrimOf | san.go:37 | spaces around a trimmed text are exactly what trimming removes |
| San.TrimEmpty | san.go:38 | a part trims to "" exactly when it is only spaces |
| San.ParseSanUris | san.go:31-52 | success means every part trims to a parsable URI, with one URI per part in order; a failure names the first bad part, empty or unparsable |
| San.ParseSanDnsNames | san.go:54-69 | succeeds exactly when no part is empty before trimming, and then gives one trimmed name per part in order; fails with "empty name" |
| San.ParseSanIpAddresses | san.go:71-92 | success means every part trims to a parsable address, with one address per part in order; a failure names the first bad part |
| San.ParseSanEmailAddresses | san.go:94-109 | succeeds exactly when no part is empty before trimming, and then gives one trimmed address per part in order; fails with "empty address" |
| San.EmptyPartRefused | san.go:38-40 | an empty part is refused by all four parsers, with the error of each |
| San.SpacesOnlyPart | san.go:61-63 | a part of spaces only is accepted as "" by the name and address parsers, and refused by the URI and IP parsers |
| San.EmptyPartFromCommas | san.go:34-38 | a leading comma, a trailing comma or ",," always yields an empty part |
| SerialNumber.SerialLimitValue | certificates.go:297 | the limit is 2^128 |
| SerialNumber.GenerateRandomSerialNumber | certificates.go:296-299 | the draw fails exactly when reading the random source fails, and a serial number is always below 2^128 |
| SerialNumber.Pow256IsPow2 | certificates.go:297 | proof helper for DrawsMatchSerials: 256^k = 2^(8k) |
| SerialNumber.Pow2Add | certificates.go:297 | proof helper for DrawsMatchSerials: 2^(a+b) = 2^a · 2^b |
| SerialNumber.FixedOctets | certificates.go:298 | a number below 256^k has k big-endian octets |
| SerialNumber.FixedOctetsValue | certificates.go:298 | those octets read back as the number |
| SerialNumber.OctetsOfValue | certificates.go:298 | every k-octet draw is the k octets of its own value |
| SerialNumber.DrawsMatchSerials | certificates.go:296-299 | every serial number below 2^128 is drawn by exactly one 16-octet draw |
| CertData.PKIXName | certificate_data.go:37-71 | the name converted from a subject gives that subject back, so no field is lost or moved |
| CertData.Attribute | certificate_data.go:40-66 | an attribute becomes a one-element list exactly when it is non-empty, and otherwise no list |
| CertData.PKIXNameRoundTrip | certificate_data.go:37-71 | the subject is recovered from its name: no field is lost or moved |
| CertData.EmptySubjectName | certificate_data.go:37-71 | an empty subject has no attributes and an empty common name |
| CertData.CertificateData.constructor | certificate_data.go:73-79 | the record holds the given fields |
| CertData.CertificateData.UpdateFromDefaults | certificate_data.go:81-140 | the record becomes its merge with the defaults |
| CertData.FillSubjectFields | certificate_data.go:87-118 | each of the eight subject fields is taken from the defaults when it is "" and kept otherwise |
| CertData.FillSanLists | certificate_data.go:121-139 | each of the four SAN lists is replaced by a copy of the default when it is nil, and kept otherwise, even when empty |
| CertData.FillSubjectMerged | certificate_data.go:87-118 | each of the eight subject fields follows the rule: kept when set, the default's when "" |
| CertData.FillListMerged | certificate_data.go:121-139 | a nil list becomes the default's names, or an empty list for a nil default; a non-nil list is kept |
| CertData.FillSanMerged | certificate_data.go:121-139 | the four SAN lists each follow that rule |
| CertData.MergeKeepsSetValues | certificate_data.go:81-140 | field by field: a non-zero validity and each non-empty subject string are kept, and zero or empty ones take the default; each non-nil SAN list is kept, empty or not, and each nil one becomes a copy of the default; the CA and client flags never change; no list is nil afterwards |
| CertData.MergeComplete | certificate_data.go:81-140 | data with every field set is unchanged |
| CertData.MergeCompletes | certificate_data.go:81-140 | complete defaults make the data complete |
| CertData.MergeIdempotent | certificate_data.go:81-140 | merging twice with the same defaults is merging once |
| CertData.MergeIntoUnset | certificate_data.go:81-140 | unset data takes the default validity and subject, each of the four lists becomes the default's names (empty for a nil default), and the data keeps its own flags |
| CertData.TemplateKeyUsage | certificate_data.go:153-159 | digital signature and key encipherment are always set; certificate and CRL signing are set exactly for a CA |
| CertData.TemplateKeyUsageBits | certificate_data.go:153-159 | the key usage is {digitalSignature, keyEncipherment}, plus {certSign, CRLSign} exactly for a CA |
| CertData.BitOfUsage | certificate_data.go:153-159 | no other usage bit is ever set |
| CertData.ValidityDurationAsWritten | certificate_data.go:151 | the written duration is a 64-bit value |
| CertData.ValidityDuration | certificate_data.go:151 | the corrected duration: a whole number of days, exactly `validity` of them |
| CertData.DurationExactBelowOverflow | certificate_data.go:151 | up to 106751 days the written duration is exact |
| CertData.DurationOverflows | certificate_data.go:151 | at 106752 days, which the command line accepts, the written duration wraps negative |
| CertData.CertificateTemplate | certificate_data.go:142-181 | with the corrected duration: the template fails exactly when the serial number cannot be drawn, and its serial number is below 2^128 |
| CertData.CertificateTemplateAsWritten | certificate_data.go:142-181 | the template with the duration as written: it fails exactly when the serial number cannot be drawn, and its serial number is below 2^128 |
| CertData.TemplateAsWrittenExact | certificate_data.go:151 | up to 106751 days the template as written is the corrected one |
| CertData.TemplateAsWrittenExpiresEarly | certificate_data.go:151 | at 106752 days, which the command line accepts, the template as written has notAfter about 292 years before notBefore, while the corrected one is valid for the whole period |
| CertData.TemplateContents | certificate_data.go:149-178 | with the corrected duration: notBefore is now and notAfter is validity days later; the subject, the CA flag, a valid basic constraints and the four SAN lists pass through verbatim |
| CertData.TemplateIgnoresClientFlag | certificate_data.go:161-178 | the client flag has no effect on the template |
| CrlData.PkixOfAppend | crl_data.go:36-38 | converting an appended list appends one converted entry |
| CrlData.PkixRoundTrip | crl_data.go:52-59 | a list read back from its converted entries is itself |
| CrlData.CRLData.constructor | cmd_revoke_certificate.go:64 | the zero value has no entries and zero dates |
| CrlData.CRLData.AddRevokedCertificate | crl_data.go:36-38 | one entry goes at the end; earlier entries, duplicates and the dates stay |
| CrlData.CRLData.Read | crl_data.go:40-62 | a parse failure changes nothing; otherwise the entries are replaced by the parsed ones in parsed order, and ThisUpdate and NextUpdate become the creation and expiration dates |
| CrlData.CRLData.PKIXRevokedCerts | crl_data.go:64-77 | one entry per revoked certificate, in order, each with its own serial number and revocation time |
| CrlData.PKIXRevokedCertsAsWritten | crl_data.go:64-77 | with one loop variable for the whole loop, every entry points at one serial number cell, which holds the last serial |
| CrlData.SharedSerialLosesRevocation | crl_data.go:69 | for two certificates with serials 1 and 2, the list as written names serial 2 twice |
| CrlData.SharedSerialAgrees | crl_data.go:64-77 | the written and intended lists agree exactly when every serial number equals the last |
| CrlData.RevokeCertificate | cmd_revoke_certificate.go:69-77 | the creation date becomes now, (serial, now) is appended, the expiration date is unchanged |
| CrlData.RevocationAppendsEntry | crl_data.go:64-77 | after a revocation the converted list is the previous one plus the new entry |
| Printer.Writer.Write | printer.go:63 | a failing call writes nothing and reports its number; any other call writes all of its text |
| Printer.IndentWritesClean | printer.go:89-96 | when no call fails, the indent is k spaces in k calls |
| Printer.IndentWritesKeep | printer.go:89-96 | the indent never changes the level, never clears an error, and ends without one exactly when none of its calls fails |
| Printer.LineClean | printer.go:56-66 | `Line` writes 4·indent spaces, the text and "\n" when no call fails |
| Printer.LineError | printer.go:57-59 | once an error is held, `Line` writes nothing and keeps it; it ends without error exactly when none of its calls fails |
| Printer.PrintLinesAppend | printer.go:56-66 | printing two runs of lines is printing one after the other |
| Printer.PrintLinesKeep | printer.go:57-59 | printing lines keeps the level and changes nothing once an error is held |
| Printer.AfterLine | printer.go:50-54 | one more line at a level extends the lines printed at it |
| Printer.AfterNothing | printer.go:50-54 | nothing printed leaves the state alone |
| Printer.AfterDone | printer.go:50-54 | back at the starting level the lines are printed as a run |
| Printer.PrintLinesClean | printer.go:56-66 | when no call fails, lines are written as their rendered text, in order, each at its own indent |
| Printer.HexOctet | printer.go:81 | `%02x` gives two characters |
| Printer.RowsStep | printer.go:74 | a new row starts exactly at each multiple of 16 |
| Printer.HexDumpLength | printer.go:68-87 | n octets give 3n characters plus one indent per row, ⌈n/16⌉ rows; empty data gives "" |
| Printer.MulAdd | printer.go:68-87 | proof helper for HexDumpLength: multiplication distributes over addition |
| Printer.DigitsOfAppend | printer.go:68-87 | the digits of joined texts are the digits of each |
| Printer.SeparatorDigits | printer.go:74-79 | a separator holds no digit |
| Printer.SpacesDigits | printer.go:89-96 | an indent holds no digit |
| Printer.OctetKept | printer.go:81 | both characters of an octet are digits |
| Printer.HexDigitsNoSeparator | printer.go:81 | no hexadecimal digit is a space or a newline |
| Printer.DumpDigits | printer.go:68-87 | the dump with its spaces and newlines removed is the octets' digits in order |
| Printer.OctetValue | printer.go:81 | an octet's two digits read back as the octet |
| Printer.UnhexAppend | printer.go:81 | reading digits back works octet by octet |
| Printer.OctetDigitsLength | printer.go:81 | n octets give 2n digits |
| Printer.HexDumpRoundTrip | printer.go:68-87 | reading the digits of a dump back gives the data |
| Printer.OctetDigitsRoundTrip | printer.go:81 | the digits of the octets read back as the octets |
| Printer.HexDumpRowStart | printer.go:73-76 | octet i with i mod 16 = 0 is preceded by "\n" and the indent one level deeper |
| Printer.Printer.Error | printer.go:38-40 | the error of the modelled state; LineError and PrintLinesKeep show it is the first failed write, kept from then on |
| Printer.Printer.constructor | printer.go:30-36 | a new printer has no error and indent 0 |
| Printer.Printer.Indent | printer.go:42-44 | the level goes up by one and nothing else changes |
| Printer.Printer.Unindent | printer.go:46-48 | the level goes down by one and nothing else changes |
| Printer.Printer.PrintIndent | printer.go:89-96 | one space per call, four per level, stopping at the first failing call, whose error is kept |
| Printer.Printer.PrintIndentTo | printer.go:76 | on a buffer, the indent appends four spaces per level |
| Printer.Printer.Line | printer.go:56-66 | the line step: nothing once an error is held, else the indent and then the text with a newline |
| Printer.Printer.Hex | printer.go:68-87 | the dump at one level deeper than the printer's; the level is restored and nothing is written |
| Certificates.DottedIdCe | certificates.go:176-188 | the ids 2.5.29.k print as their dotted text |
| Certificates.DottedIds | certificates.go:179-188 | the four known extensions print as 2.5.29.15, .17, .19 and .37 |
| Certificates.KindById | certificates.go:176-195 | the string switch picks each renderer for exactly its own OID, and the generic one for all other OIDs |
| Certificates.HeaderCritical | certificates.go:199-205 | the header ends in " (critical):" exactly when the extension is critical |
| Certificates.LinesAt | certificates.go:216-220 | one line per text, in order, at the given level |
| Certificates.LinesAtSnoc | certificates.go:216-220 | one more text adds one line at the end |
| Certificates.Texts | certificates.go:233-250 | one text per value, in order |
| Certificates.Results | certificates.go:175-196 | one rendering per extension, in certificate order |
| Certificates.OutcomesAll | certificates.go:175-196 | when no extension panics, the output is their renderings in order |
| Certificates.OutcomesStop | certificates.go:175-196 | the first extension that panics stops rendering after the earlier ones |
| Certificates.OutcomesPanic | certificates.go:175-196 | rendering panics exactly when some extension fails to decode |
| Certificates.OutcomesStep | certificates.go:175-196 | rendering from extension i is rendering i and then the rest |
| Certificates.RenderAll | certificates.go:174-197 | when every extension decodes, the output is every extension's lines in certificate order |
| Certificates.RenderStops | certificates.go:174-197 | the first undecodable known extension aborts with its panic, after the lines of the earlier ones |
| Certificates.RenderPanics | certificates.go:211-282 | a decode failure in a known extension aborts rendering rather than skipping it |
| Certificates.OtherExtension | certificates.go:191-194 | any other OID gets its dotted header and a "Non-decoded data" line whose hex dump gives back the value |
| Certificates.KeyUsageRendered | certificates.go:209-221 | encoded key usage renders as its header and one line per set flag's name, in flag order |
| Certificates.BasicConstraintsRendered | certificates.go:261-275 | basic constraints always print "CA: <bool>", and the path length line only when it is present |
| Certificates.ExtendedKeyUsageRendered | certificates.go:277-289 | encoded extended key usage renders as its header and one line per purpose name, in encoded order |
| Certificates.SanWrittenLists | ext_subject_alt_name.go:32-109 | accepted names decode into a zero value as four lists, each in encoded order |
| Certificates.AppendedToEmpty | ext_subject_alt_name.go:62-99 | names appended to empty lists are the lists of their tags |
| Certificates.SubjectAltNameRendered | certificates.go:223-259 | encoded alt names render as the four sections, each listing its names in order |
| Certificates.SanTextSize | certificates.go:230-257 | SAN output is one header, four section titles and one line per name |
| Certificates.WithIndentLines | certificates.go:206 | the body lines are printed one level deeper, and the level is restored |
| Certificates.PrintHeader | certificates.go:199-205 | the header line is printed at the current level |
| Certificates.PrintLine | certificates.go:218 | one line is printed at the current level |
| Certificates.PrintSection | certificates.go:199-207 | a header and its body lines one level deeper |
| Certificates.PrintKeyUsage | certificates.go:209-221 | a decode failure panics and prints nothing; otherwise the key usage lines are printed |
| Certificates.PrintSanSections | certificates.go:230-257 | the header, then URIs, DNS names, IP addresses and email addresses in that order, each list one level deeper |
| Certificates.PrintSubjectAltName | certificates.go:223-259 | a decode failure panics and prints nothing; otherwise the SAN sections are printed |
| Certificates.PrintBasicConstraintsText | certificates.go:268-274 | "CA: <bool>", and the path length line unless the value is -1 |
| Certificates.PrintBasicConstraints | certificates.go:261-275 | a decode failure panics and prints nothing; otherwise the basic constraints lines are printed |
| Certificates.PrintExtendedKeyUsage | certificates.go:277-289 | a decode failure panics and prints nothing; otherwise one line per purpose is printed |
| Certificates.PrintOther | certificates.go:191-194 | the dotted header and the hex dump of the value |
| Certificates.PrintExtension | certificates.go:176-195 | the switch on the dotted id prints what the extension renders as, or panics |
| Certificates.PrintOutcome | certificates.go:176-195 | extension i is printed as its rendering, or panics |
| Certificates.PrintEach | certificates.go:175-196 | the loop prints the extensions in order until the first panic |
| Certificates.PrintExtensions | certificates.go:174-197 | the printed output and the panic are those of the extensions rendered in order |
| Certificates.PublicKey | private_keys.go:101-115 | the public key belongs to its private key |
| Certificates.GenerateCertificateAsWritten | certificates.go:73-97 | built on the template as written; the certificate fails exactly when that template does, and carries it |
| Certificates.GenerateCertificate | certificates.go:73-97 | the corrected generation: it fails exactly when the serial number cannot be drawn, certifies the subject's own key and is signed by the issuer's |
| Certificates.SubjectKeyIsIssuerKey | certificates.go:83-86 | as written, the subject key is the issuer's public key, and the certificate is signed by the issuer key |
| Certificates.LeafKeyNotCertified | certificates.go:83-86 | as written, a certificate issued by a CA never carries a leaf's own distinct key |
| Certificates.GeneratedCertificate | certificates.go:73-97 | the template is the data's; the subject key is the subject's; the issuer is the template itself when there is no issuer certificate, else the issuer certificate's subject |
| Certificates.SelfSignedAgrees | certificates.go:79-86 | for a self-signed certificate valid for at most 106751 days the written and corrected versions agree |
| Passwords.Terminal.Print | passwords.go:12 | `fmt.Print` shows its text and reads nothing |
| Passwords.Terminal.ReadEntry | passwords.go:13 | one entry is consumed and nothing is shown; an exhausted input reads as its end |
| Passwords.SingleMeaning | passwords.go:11-20 | a single read gives the entry typed, or the terminal's error |
| Passwords.ConfirmedMeaning | passwords.go:22-42 | confirmation succeeds exactly for two equal entries and gives the first; two different entries are a mismatch; a failed read passes through, the first read first |
| Passwords.CreationAccepted | passwords.go:50-73 | a new key's password is accepted exactly when both entries are equal and 4 to 1023 bytes long, and it is the entry |
| Passwords.CreationRefused | passwords.go:57-70 | too short or too long exactly when the entries agree and the length is out of bounds; read errors and mismatches pass through |
| Passwords.CreationBounds | passwords.go:52-53 | the bounds count bytes: equal entries are accepted exactly from 4 to 1023 bytes |
| Passwords.KeyPromptName | passwords.go:45 | the prompt is "private key password (", the key's name, then "): " |
| Passwords.ReadPassword | passwords.go:11-20 | the prompt is shown and one entry read; a read error returns no password, otherwise the line is ended |
| Passwords.ReadPasswordWithConfirmation | passwords.go:22-42 | shows both prompts and reads two entries, stopping at the first read error, then compares them |
| Passwords.ReadPrivateKeyPassword | passwords.go:44-48 | the key's prompt, then a single read |
| Passwords.ReadPrivateKeyPasswordForCreation | passwords.go:50-73 | the key's prompt and "confirmation: ", then the creation rule |

## Left out

- Go's `encoding/asn1` is not part of this model. `Der` follows ITU-T X.690 DER and the behaviour of that package for the four target types. It is not a transcription of the package. Error values are one constructor per check, not Go's message texts.
- Errors are not modelled as their formatted text. They are constructors (`DecodeError`, `SanError`, `PasswordError`); `Passwords.Message` is the only place a text is given. The printer's `fmt` formatting is modelled as the already formatted line text.
- File and directory I/O, PEM armoring, JSON encoding and `crls.go` are left out. They are plumbing around the operating system.
- Cryptography and `x509` calls are left out (`x509.CreateCertificate`, `x509.ParseCertificate`, `x509.ParseCRL`, `CreateCRL`, key generation and marshalling). Their behaviour is not visible here:
  - `GenerateCertificate` returns what it hands to `CreateCertificate`;
  - `CRLData.Read` takes the parse result as its input.
- `private_keys.go` is not part of this model. A private key is an abstract handle and its public key a value tied to it.
- The clock is an integer parameter, and the two clock readings of the revocation step are two parameters.
- The random source is an optional 16-octet draw. `crypto/rand.Int` with a limit of 2^128 reads 16 octets, masks none and never retries.
- `url.Parse`, `net.ParseIP`, `URL.String` and `IP.String` are function parameters.
- `terminal.ReadPassword` is a queue of entries. Echo control and the end of line typed are not modelled.
- The writer is a record of what was written and which calls fail. A partial write is modelled as a failed call that writes nothing.
- Certificates.WithIndentLines: `WithIndent` takes a closure. The model inlines each closure, printing its lines between `Indent` and `Unindent`.
- Text decoded from DER (`string(value.Bytes)`) is one character per octet. No UTF-8 decoding is modelled.
- Concurrency is not relevant: the program is single threaded.
- `printCertificate`, `printCertificateData` and `printCertificateSignature` are left out. They format values through `x509` `String` methods.
- The command-line handling in `main.go` and the `cmd_*.go` files is left out, except the in-memory revocation step of `revoke-certificate`.
- `pki.go` is left out. It redefines `Subject`, `SAN` and `encodeJSON` in conflict with `certificate_data.go`, `san.go` and `misc.go`, and the model follows the latter.
- The validity is a Go `int`, 64 bits wide. The as-written template and generation therefore require it to lie in that range; the corrected ones take any integer.
- Extended key usage: `CertificateTemplate` (certificate_data.go:142-181) sets no extended key usage, and neither does the model.
- Certificates.GenerateCertificate: the subject's key pair is an input. Generating it belongs to the key code, which is not part of this model.

## Findings

| source | as written | input that shows it | evidently intended | confidence | as-written member | corrected member |
|---|---|---|---|---|---|---|
| certificate_data.go:151 | `time.Duration(data.Validity) * 24 * time.Hour` is computed in 64-bit nanoseconds and wraps | validity 106752 days. The command line accepts up to 2^31−1. The duration wraps to about −292 years, so notAfter comes before notBefore | notAfter = notBefore + validity days, with no wrap | not executed | CertData.CertificateTemplateAsWritten, CertData.TemplateAsWrittenExpiresEarly | CertData.CertificateTemplate, CertData.TemplateContents |
| certificates.go:83-86 | the key passed to `CreateCertificate` as the subject's public key is `PublicKey(issuerKey)` | a leaf signed by a CA key: the certificate carries the CA's public key, not a key of its own | the subject's own public key, with the issuer key only signing | not executed | Certificates.GenerateCertificateAsWritten, Certificates.LeafKeyNotCertified | Certificates.GenerateCertificate, Certificates.GeneratedCertificate |
| crl_data.go:69 | `&c.SerialNumber` takes the address of the loop variable, which is one variable for the whole loop under Go before 1.22 | revoked serials [1, 2]: the CRL lists serial 2 twice and never serial 1 | one entry per revoked certificate with its own serial number | not executed | CrlData.PKIXRevokedCertsAsWritten, CrlData.SharedSerialLosesRevocation | CrlData.CRLData.PKIXRevokedCerts, CrlData.SharedSerialAgrees |
