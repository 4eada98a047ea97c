/** Certificates: the choice of issuer when one is generated, and the
    rendering of a certificate's extensions through the printer, each known
    extension decoded and listed, every other one dumped in hexadecimal. */
module Certificates {
  import opened Common
  import opened Der
  import opened DerEncode
  import opened Printer
  import KU = KeyUsage
  import EKU = ExtendedKeyUsage
  import BC = BasicConstraints
  import SAN = SubjectAltName
  import CertData
  import SerialNumber

  // ---------------------------------------------------------------------
  // Extensions and their texts
  // ---------------------------------------------------------------------

  /** A `pkix.Extension`. */
  datatype Extension = Extension(id: Oid, critical: bool, value: seq<byte>)

  /** The panic of a renderer whose extension does not decode: which
      extension, and the decoder's error. */
  datatype Panic = CannotDecode(extension: string, cause: DecodeError)

  /** `url.URL.String` and `net.IP.String`, which this model does not
      define. */
  type UriString = Uri -> string
  type IpString = IpAddress -> string

  /** The extensions with a renderer of their own. */
  datatype Kind = KeyUsageKind | SubjectAltNameKind | BasicConstraintsKind | ExtendedKeyUsageKind | OtherKind

  /** The switch on the dotted identifier. */
  function KindOf(id: Oid): Kind
  {
    var idString := Dotted(id);
    if idString == "2.5.29.15" then KeyUsageKind
    else if idString == "2.5.29.17" then SubjectAltNameKind
    else if idString == "2.5.29.19" then BasicConstraintsKind
    else if idString == "2.5.29.37" then ExtendedKeyUsageKind
    else OtherKind
  }

  const IdKeyUsage: Oid := [2, 5, 29, 15]
  const IdSubjectAltName: Oid := [2, 5, 29, 17]
  const IdBasicConstraints: Oid := [2, 5, 29, 19]
  const IdExtendedKeyUsage: Oid := [2, 5, 29, 37]

  /** The dotted form of an identifier of the id-ce arc with a two-digit
      last component. */
  lemma DottedIdCe(k: nat)
    requires 10 <= k < 100
    ensures Dotted([2, 5, 29, k]) == "2.5.29." + [DigitChar(k / 10), DigitChar(k % 10)]
  {
    DottedCons(2, [5, 29, k]);
    assert [2, 5, 29, k] == [2] + [5, 29, k];
    DottedCons(5, [29, k]);
    assert [5, 29, k] == [5] + [29, k];
    DottedCons(29, [k]);
    assert [29, k] == [29] + [k];
    assert Decimal(k) == Decimal(k / 10) + [DigitChar(k % 10)];
    assert Decimal(29) == "29" && Decimal(5) == "5" && Decimal(2) == "2";
    assert Decimal(2) + "." + (Decimal(5) + "." + (Decimal(29) + "." + Decimal(k)))
        == "2.5.29." + [DigitChar(k / 10), DigitChar(k % 10)];
  }

  lemma DottedIds()
    ensures Dotted(IdKeyUsage) == "2.5.29.15" && Dotted(IdSubjectAltName) == "2.5.29.17"
    ensures Dotted(IdBasicConstraints) == "2.5.29.19" && Dotted(IdExtendedKeyUsage) == "2.5.29.37"
  {
    DottedIdCe(15);
    DottedIdCe(17);
    DottedIdCe(19);
    DottedIdCe(37);
  }

  /** The string switch is a switch on the identifier itself: each renderer
      is picked by exactly its own identifier (id-ce 15, 17, 19 and 37) and
      every other identifier gets the hexadecimal dump. */
  lemma KindById(id: Oid)
    ensures KindOf(id) == KeyUsageKind <==> id == IdKeyUsage
    ensures KindOf(id) == SubjectAltNameKind <==> id == IdSubjectAltName
    ensures KindOf(id) == BasicConstraintsKind <==> id == IdBasicConstraints
    ensures KindOf(id) == ExtendedKeyUsageKind <==> id == IdExtendedKeyUsage
    ensures KindOf(id) == OtherKind <==> id !in {IdKeyUsage, IdSubjectAltName, IdBasicConstraints, IdExtendedKeyUsage}
  {
    DottedIds();
    var d := Dotted(id);
    if d == "2.5.29.15" {
      DottedInjective(id, IdKeyUsage);
    } else if d == "2.5.29.17" {
      DottedInjective(id, IdSubjectAltName);
    } else if d == "2.5.29.19" {
      DottedInjective(id, IdBasicConstraints);
    } else if d == "2.5.29.37" {
      DottedInjective(id, IdExtendedKeyUsage);
    }
  }

  /** The header line of an extension, `"%s%s:"`. */
  function Header(name: string, critical: bool): string
  {
    name + (if critical then " (critical)" else "") + ":"
  }

  /** The header tells whether the extension is critical, for any name that
      does not itself end in " (critical)". */
  lemma HeaderCritical(name: string, critical: bool)
    requires |name| < 11 || name[|name| - 11..] != " (critical)"
    ensures var h := Header(name, critical);
            critical <==> |h| >= 12 && h[|h| - 12..] == " (critical):"
  {
    var h := Header(name, critical);
    if !critical && |h| >= 12 && h[|h| - 12..] == " (critical):" {
      assert h == name + ":";
      assert name[|name| - 11..] == h[|h| - 12..|h| - 1];
    }
  }

  /** Each text as a line at `level`. */
  function LinesAt(level: int, texts: seq<string>): (ls: seq<LineAt>)
    ensures |ls| == |texts|
    ensures forall i :: 0 <= i < |texts| ==> ls[i] == LineAt(level, texts[i])
  {
    seq(|texts|, i requires 0 <= i < |texts| => LineAt(level, texts[i]))
  }

  lemma LinesAtSnoc(level: int, texts: seq<string>, i: nat)
    requires i < |texts|
    ensures LinesAt(level, texts[..i + 1]) == LinesAt(level, texts[..i]) + [LineAt(level, texts[i])]
  {
  }

  /** The texts of `xs`, by `f`. */
  function Texts<T>(f: T -> string, xs: seq<T>): (r: seq<string>)
    ensures |r| == |xs|
    ensures forall i :: 0 <= i < |xs| ==> r[i] == f(xs[i])
  {
    seq(|xs|, i requires 0 <= i < |xs| => f(xs[i]))
  }

  /** `%v` of a boolean. */
  function BoolText(b: bool): string
  {
    if b then "true" else "false"
  }

  /** An extension's header at `level` and the texts one level deeper. */
  function Section(level: int, name: string, critical: bool, texts: seq<string>): seq<LineAt>
  {
    [LineAt(level, Header(name, critical))] + LinesAt(level + 1, texts)
  }

  /** What the key usage renderer prints: the header, then the name of each
      set usage one level deeper. The record decoded into is a zero one. */
  function KeyUsageLines(level: int, critical: bool, data: seq<byte>): Result<seq<LineAt>, Panic>
  {
    match KU.DecodeBits(data)
    case Failure(e) => Failure(CannotDecode("key usage", e))
    case Success(bits) => Success(Section(level, "Key usage", critical, KU.Names(KU.Merge(KU.ZeroFlags, bits))))
  }

  /** What the subject alternative name renderer prints for decoded lists:
      the header, then four sections, each a title one level deeper and
      its entries one level deeper still, in the order URIs, DNS names, IP
      addresses, email addresses. */
  function SanText(level: int, critical: bool, l: SAN.Lists, uriString: UriString, ipString: IpString): seq<LineAt>
  {
    [LineAt(level, Header("Subject alt name", critical))]
    + [LineAt(level + 1, "URIs:")] + LinesAt(level + 2, Texts(uriString, l.uris))
    + [LineAt(level + 1, "DNS names:")] + LinesAt(level + 2, l.dnsNames)
    + [LineAt(level + 1, "IP addresses")] + LinesAt(level + 2, Texts(ipString, l.ipAddresses))
    + [LineAt(level + 1, "Email addresses")] + LinesAt(level + 2, l.emailAddresses)
  }

  /** What the subject alternative name renderer prints. */
  function SubjectAltNameLines(level: int, critical: bool, data: seq<byte>, parseUri: UriParser,
                               uriString: UriString, ipString: IpString): Result<seq<LineAt>, Panic>
  {
    var d := SAN.DecodeSan(data, SAN.Lists([], [], [], []), parseUri);
    if d.outcome.Fail? then Failure(CannotDecode("subject alt name", d.outcome.error))
    else Success(SanText(level, critical, d.lists, uriString, ipString))
  }

  /** What the basic constraints renderer prints: the CA flag always, the
      path length only when one is set. */
  function BasicConstraintsLines(level: int, critical: bool, data: seq<byte>): Result<seq<LineAt>, Panic>
  {
    var d := BC.DecodeInto(data, BC.Fields(false, 0));
    if d.outcome.Fail? then Failure(CannotDecode("basic contraints", d.outcome.error))
    else Success(BasicConstraintsText(level, critical, d.fields))
  }

  /** The lines of decoded basic constraints. */
  function BasicConstraintsText(level: int, critical: bool, f: BC.Fields): seq<LineAt>
  {
    [LineAt(level, Header("Basic constraints", critical)), LineAt(level + 1, "CA: " + BoolText(f.ca))]
    + (if f.pathLenConstraint != BC.NoPathLen
       then [LineAt(level + 1, "Path length constraint: " + SignedDecimal(f.pathLenConstraint))]
       else [])
  }

  /** What the extended key usage renderer prints: one purpose per line. */
  function ExtendedKeyUsageLines(level: int, critical: bool, data: seq<byte>): Result<seq<LineAt>, Panic>
  {
    match EKU.DecodePurposeIds(data)
    case Failure(e) => Failure(CannotDecode("extended key usage", e))
    case Success(ids) => Success(Section(level, "Extended key usage", critical, EKU.Purposes(ids)))
  }

  /** What is printed for an extension with no renderer: its identifier as
      the header, and its payload dumped by `Hex` from inside the body,
      where the printer is one level deeper. */
  function OtherLines(level: int, ext: Extension): seq<LineAt>
  {
    [LineAt(level, Header(Dotted(ext.id), ext.critical)),
     LineAt(level + 1, "Non-decoded data: " + HexDump(ext.value, level + 2))]
  }

  /** The foreign functions the renderers use. */
  datatype Foreign = Foreign(parseUri: UriParser, uriString: UriString, ipString: IpString)

  /** What is printed for one extension, at `level`, or the panic. */
  function ExtensionLines(level: int, ext: Extension, fr: Foreign): Result<seq<LineAt>, Panic>
  {
    var idString := Dotted(ext.id);
    if idString == "2.5.29.15" then KeyUsageLines(level, ext.critical, ext.value)
    else if idString == "2.5.29.17" then SubjectAltNameLines(level, ext.critical, ext.value, fr.parseUri, fr.uriString, fr.ipString)
    else if idString == "2.5.29.19" then BasicConstraintsLines(level, ext.critical, ext.value)
    else if idString == "2.5.29.37" then ExtendedKeyUsageLines(level, ext.critical, ext.value)
    else Success(OtherLines(level, ext))
  }

  /** What is printed for one extension, or its panic. */
  type Printed = Result<seq<LineAt>, Panic>

  /** The lines printed for a list of extensions and the panic that ends
      it, if any. */
  datatype Rendering = Rendering(lines: seq<LineAt>, panic: Option<Panic>)

  /** The outcome of each extension, in certificate order. */
  function Results(level: int, exts: seq<Extension>, fr: Foreign): (rs: seq<Printed>)
    ensures |rs| == |exts|
    ensures forall i :: 0 <= i < |exts| ==> rs[i] == ExtensionLines(level, exts[i], fr)
  {
    seq(|exts|, i requires 0 <= i < |exts| => ExtensionLines(level, exts[i], fr))
  }

  /** Outcomes printed in order, up to the first panic. */
  function RenderOutcomes(rs: seq<Printed>): Rendering
    decreases |rs|
  {
    if |rs| == 0 then Rendering([], None)
    else
      match rs[0]
      case Failure(p) => Rendering([], Some(p))
      case Success(ls) =>
        var r := RenderOutcomes(rs[1..]);
        Rendering(ls + r.lines, r.panic)
  }

  /** The lines of outcomes that all succeed, one after the other. */
  function Concat(rs: seq<Printed>): seq<LineAt>
    requires forall i :: 0 <= i < |rs| ==> rs[i].Success?
    decreases |rs|
  {
    if |rs| == 0 then [] else rs[0].value + Concat(rs[1..])
  }

  /** The extensions rendered in order, up to the first that panics. */
  function RenderExtensions(level: int, exts: seq<Extension>, fr: Foreign): Rendering
  {
    RenderOutcomes(Results(level, exts, fr))
  }

  /** All lines of the extensions, one after the other. */
  function AllLines(level: int, exts: seq<Extension>, fr: Foreign): seq<LineAt>
    requires forall i :: 0 <= i < |exts| ==> ExtensionLines(level, exts[i], fr).Success?
  {
    Concat(Results(level, exts, fr))
  }

  lemma {:induction false} OutcomesAll(rs: seq<Printed>)
    requires forall i :: 0 <= i < |rs| ==> rs[i].Success?
    ensures RenderOutcomes(rs) == Rendering(Concat(rs), None)
    decreases |rs|
  {
    if |rs| > 0 {
      OutcomesAll(rs[1..]);
    }
  }

  lemma {:induction false} OutcomesStop(rs: seq<Printed>, k: nat)
    requires k < |rs| && rs[k].Failure?
    requires forall i :: 0 <= i < k ==> rs[i].Success?
    ensures RenderOutcomes(rs) == Rendering(Concat(rs[..k]), Some(rs[k].error))
    decreases k
  {
    if k > 0 {
      OutcomesStop(rs[1..], k - 1);
      assert rs[..k][1..] == rs[1..][..k - 1];
    }
  }

  lemma {:induction false} OutcomesPanic(rs: seq<Printed>)
    ensures RenderOutcomes(rs).panic.Some? <==> exists i :: 0 <= i < |rs| && rs[i].Failure?
    decreases |rs|
  {
    if |rs| > 0 {
      OutcomesPanic(rs[1..]);
      if rs[0].Success? {
        if exists i :: 0 <= i < |rs| && rs[i].Failure? {
          var i :| 0 <= i < |rs| && rs[i].Failure?;
          assert rs[1..][i - 1] == rs[i];
        }
        if exists i :: 0 <= i < |rs[1..]| && rs[1..][i].Failure? {
          var i :| 0 <= i < |rs[1..]| && rs[1..][i].Failure?;
          assert rs[i + 1] == rs[1..][i];
        }
      }
    }
  }

  /** Rendering from outcome `i` on: its lines and the rendering of the
      rest, or its panic. */
  lemma OutcomesStep(rs: seq<Printed>, i: nat)
    requires i < |rs|
    ensures var r := RenderOutcomes(rs[i + 1..]);
            RenderOutcomes(rs[i..])
            == if rs[i].Failure? then Rendering([], Some(rs[i].error)) else Rendering(rs[i].value + r.lines, r.panic)
  {
    assert rs[i..][0] == rs[i] && rs[i..][1..] == rs[i + 1..];
  }

  // ---------------------------------------------------------------------
  // What the rendering promises
  // ---------------------------------------------------------------------

  /** When every extension decodes, all are rendered, in certificate order,
      and nothing panics. */
  lemma RenderAll(level: int, exts: seq<Extension>, fr: Foreign)
    requires forall i :: 0 <= i < |exts| ==> ExtensionLines(level, exts[i], fr).Success?
    ensures RenderExtensions(level, exts, fr) == Rendering(AllLines(level, exts, fr), None)
  {
    OutcomesAll(Results(level, exts, fr));
  }

  /** The first extension that does not decode stops the rendering with
      its panic: the extensions before it are printed, it and the ones
      after it are not, and it is not skipped over. */
  lemma RenderStops(level: int, exts: seq<Extension>, fr: Foreign, k: nat)
    requires k < |exts| && ExtensionLines(level, exts[k], fr).Failure?
    requires forall i :: 0 <= i < k ==> ExtensionLines(level, exts[i], fr).Success?
    ensures RenderExtensions(level, exts, fr)
         == Rendering(AllLines(level, exts[..k], fr), Some(ExtensionLines(level, exts[k], fr).error))
  {
    var rs := Results(level, exts, fr);
    OutcomesStop(rs, k);
    assert Results(level, exts[..k], fr) == rs[..k];
  }

  /** Rendering panics exactly when some extension does not decode. */
  lemma RenderPanics(level: int, exts: seq<Extension>, fr: Foreign)
    ensures RenderExtensions(level, exts, fr).panic.Some? <==>
            exists i :: 0 <= i < |exts| && ExtensionLines(level, exts[i], fr).Failure?
  {
    var rs := Results(level, exts, fr);
    OutcomesPanic(rs);
    if exists i :: 0 <= i < |rs| && rs[i].Failure? {
      var i :| 0 <= i < |rs| && rs[i].Failure?;
      assert ExtensionLines(level, exts[i], fr).Failure?;
    }
  }

  /** An extension without a renderer never panics: its header is its
      dotted identifier and its one body line holds the dump of its
      payload, which reads back to the payload. */
  lemma OtherExtension(level: int, ext: Extension, fr: Foreign)
    requires ext.id !in {IdKeyUsage, IdSubjectAltName, IdBasicConstraints, IdExtendedKeyUsage}
    ensures ExtensionLines(level, ext, fr) == Success(OtherLines(level, ext))
    ensures Unhex(DigitsOf(HexDump(ext.value, level + 2))) == ext.value
  {
    KindById(ext.id);
    HexDumpRoundTrip(ext.value, level + 2);
  }

  /** A written key usage renders as its header and the names of the set
      usages, in bit order. */
  lemma KeyUsageRendered(level: int, critical: bool, flags: seq<bool>)
    requires |flags| == 9
    ensures KeyUsageLines(level, critical, KU.EncodeKeyUsage(flags))
         == Success(Section(level, "Key usage", critical, KU.Names(flags)))
  {
    KU.KeyUsageRoundTrip(flags, KU.ZeroFlags);
  }

  /** A written basic constraints renders as "CA: " and the flag, then the
      path length line exactly when a path length was written. */
  lemma BasicConstraintsRendered(level: int, critical: bool, ca: bool, pathLen: Option<nat>)
    requires pathLen.Some? ==> pathLen.value < 0x100_0000_0000_0000
    ensures BasicConstraintsLines(level, critical, BC.EncodeBasicConstraints(ca, pathLen))
         == Success([LineAt(level, Header("Basic constraints", critical)), LineAt(level + 1, "CA: " + BoolText(ca))]
                    + (if pathLen.Some? then [LineAt(level + 1, "Path length constraint: " + Decimal(pathLen.value))] else []))
  {
    BC.BasicConstraintsRoundTrip(ca, pathLen, BC.Fields(false, 0));
  }

  /** A written extended key usage renders one name per purpose, in the
      written order. */
  lemma ExtendedKeyUsageRendered(level: int, critical: bool, oids: seq<Oid>)
    requires EncodableOids(oids) && |EncodeOidList(oids)| < 0x100_0000
    ensures ExtendedKeyUsageLines(level, critical, EncodeOidSequence(oids))
         == Success(Section(level, "Extended key usage", critical, EKU.Purposes(oids)))
  {
    EKU.ExtendedKeyUsageRoundTrip(oids);
  }

  /** The lists a written subject alternative name decodes to, when all its
      names are accepted: the names of each kind, in written order. */
  lemma SanWrittenLists(ts: seq<Tlv>, parseUri: UriParser)
    requires forall i :: 0 <= i < |ts| ==> Encodable(ts[i]) && SAN.Accepted(ts[i], parseUri)
    requires |EncodeAll(ts)| < 0x100_0000
    ensures SAN.DecodeSan(SAN.EncodeSan(ts), SAN.Lists([], [], [], []), parseUri)
         == SAN.Decoded(SAN.Lists(SAN.Uris(ts, parseUri), SAN.DnsNames(ts), SAN.IpAddresses(ts), SAN.Emails(ts)), Pass)
  {
    var empty := SAN.Lists([], [], [], []);
    SAN.SanRoundTrip(ts, empty, parseUri);
    SAN.ApplyAccepted(empty, ts, parseUri);
    AppendedToEmpty(ts, parseUri);
  }

  lemma AppendedToEmpty(ts: seq<Tlv>, parseUri: UriParser)
    ensures SAN.Appended(SAN.Lists([], [], [], []), ts, parseUri)
         == SAN.Lists(SAN.Uris(ts, parseUri), SAN.DnsNames(ts), SAN.IpAddresses(ts), SAN.Emails(ts))
  {
    assert [] + SAN.Uris(ts, parseUri) == SAN.Uris(ts, parseUri);
    assert [] + SAN.DnsNames(ts) == SAN.DnsNames(ts);
    assert [] + SAN.IpAddresses(ts) == SAN.IpAddresses(ts);
    assert [] + SAN.Emails(ts) == SAN.Emails(ts);
  }

  /** A written subject alternative name whose names are all accepted
      renders its four sections with the names of each kind, in written
      order. */
  lemma SubjectAltNameRendered(level: int, critical: bool, ts: seq<Tlv>, fr: Foreign)
    requires forall i :: 0 <= i < |ts| ==> Encodable(ts[i]) && SAN.Accepted(ts[i], fr.parseUri)
    requires |EncodeAll(ts)| < 0x100_0000
    ensures SubjectAltNameLines(level, critical, SAN.EncodeSan(ts), fr.parseUri, fr.uriString, fr.ipString)
         == Success(SanText(level, critical, SAN.Lists(SAN.Uris(ts, fr.parseUri), SAN.DnsNames(ts), SAN.IpAddresses(ts), SAN.Emails(ts)),
                            fr.uriString, fr.ipString))
  {
    SanWrittenLists(ts, fr.parseUri);
  }

  /** The header and the four section titles are always printed, with one
      line per name. */
  lemma SanTextSize(level: int, critical: bool, l: SAN.Lists, uriString: UriString, ipString: IpString)
    ensures |SanText(level, critical, l, uriString, ipString)|
         == 5 + |l.uris| + |l.dnsNames| + |l.ipAddresses| + |l.emailAddresses|
  {
  }

  // ---------------------------------------------------------------------
  // The renderers, driving the printer
  // ---------------------------------------------------------------------

  /** `WithIndent` around a loop printing each of `texts` as a line. */
  method WithIndentLines(p: Printer, texts: seq<string>, ghost st: State, ghost acc: seq<LineAt>)
    requires p.Snapshot() == After(st, p.w.failing, acc, p.indent)
    modifies p, p.w
    ensures p.indent == old(p.indent)
    ensures p.Snapshot() == After(st, p.w.failing, acc + LinesAt(old(p.indent) + 1, texts), old(p.indent))
  {
    p.Indent();
    var level := p.indent;
    assert acc + LinesAt(level, texts[..0]) == acc;
    for i := 0 to |texts|
      invariant p.indent == level
      invariant p.Snapshot() == After(st, p.w.failing, acc + LinesAt(level, texts[..i]), level)
    {
      AfterLine(st, p.w.failing, acc + LinesAt(level, texts[..i]), level, texts[i]);
      p.Line(texts[i]);
      LinesAtSnoc(level, texts, i);
      assert acc + LinesAt(level, texts[..i]) + [LineAt(level, texts[i])] == acc + LinesAt(level, texts[..i + 1]);
    }
    assert texts[..|texts|] == texts;
    p.Unindent();
  }

  /** `printCertificateExtension`'s header line, the first line of every
      extension. */
  method PrintHeader(p: Printer, name: string, critical: bool)
    modifies p, p.w
    ensures p.indent == old(p.indent)
    ensures p.Snapshot() == After(old(p.Snapshot()), p.w.failing, [LineAt(old(p.indent), Header(name, critical))], old(p.indent))
  {
    var criticalString := "";
    if critical {
      criticalString := " (critical)";
    }
    AfterNothing(p.Snapshot(), p.w.failing);
    AfterLine(p.Snapshot(), p.w.failing, [], p.indent, name + criticalString + ":");
    assert [] + [LineAt(p.indent, name + criticalString + ":")] == [LineAt(p.indent, Header(name, critical))];
    p.Line(name + criticalString + ":");
    LineError(old(p.Snapshot()), p.w.failing, name + criticalString + ":");
  }

  /** Prints one line at the printer's level, tracking the lines so far. */
  method PrintLine(p: Printer, text: string, ghost st: State, ghost acc: seq<LineAt>)
    requires p.Snapshot() == After(st, p.w.failing, acc, p.indent)
    modifies p, p.w
    ensures p.indent == old(p.indent)
    ensures p.Snapshot() == After(st, p.w.failing, acc + [LineAt(old(p.indent), text)], old(p.indent))
  {
    AfterLine(st, p.w.failing, acc, p.indent, text);
    p.Line(text);
    LineError(old(p.Snapshot()), p.w.failing, text);
  }

  /** `printCertificateExtension` with a body printing each of `texts`. */
  method PrintSection(p: Printer, name: string, critical: bool, texts: seq<string>)
    modifies p, p.w
    ensures p.Snapshot() == PrintLines(old(p.Snapshot()), p.w.failing, Section(old(p.indent), name, critical, texts))
  {
    ghost var st := p.Snapshot();
    PrintHeader(p, name, critical);
    WithIndentLines(p, texts, st, [LineAt(st.indent, Header(name, critical))]);
    AfterDone(st, p.w.failing, Section(st.indent, name, critical, texts));
  }

  /** `printCertificateExtensionKeyUsage`. */
  method PrintKeyUsage(p: Printer, ext: Extension) returns (panic: Option<Panic>)
    modifies p, p.w
    ensures var r := KeyUsageLines(old(p.indent), ext.critical, ext.value);
            if r.Failure? then panic == Some(r.error) && p.Snapshot() == old(p.Snapshot())
            else panic.None? && p.Snapshot() == PrintLines(old(p.Snapshot()), p.w.failing, r.value)
  {
    var usage := new KU.ExtKeyUsage();
    var err := usage.Decode(ext.value);
    if err.Fail? {
      return Some(CannotDecode("key usage", err.error));
    }
    var values := usage.Values();
    PrintSection(p, "Key usage", ext.critical, values);
    return None;
  }

  /** The body of the subject alternative name renderer. */
  method PrintSanSections(p: Printer, critical: bool, l: SAN.Lists, uriString: UriString, ipString: IpString)
    modifies p, p.w
    ensures p.Snapshot() == PrintLines(old(p.Snapshot()), p.w.failing, SanText(old(p.indent), critical, l, uriString, ipString))
  {
    ghost var st := p.Snapshot();
    ghost var f := p.w.failing;
    ghost var level := st.indent;
    PrintHeader(p, "Subject alt name", critical);
    ghost var acc := [LineAt(level, Header("Subject alt name", critical))];
    p.Indent();
    PrintLine(p, "URIs:", st, acc);
    acc := acc + [LineAt(level + 1, "URIs:")];
    var uriTexts := Texts(uriString, l.uris);
    WithIndentLines(p, uriTexts, st, acc);
    acc := acc + LinesAt(level + 2, uriTexts);
    PrintLine(p, "DNS names:", st, acc);
    acc := acc + [LineAt(level + 1, "DNS names:")];
    WithIndentLines(p, l.dnsNames, st, acc);
    acc := acc + LinesAt(level + 2, l.dnsNames);
    PrintLine(p, "IP addresses", st, acc);
    acc := acc + [LineAt(level + 1, "IP addresses")];
    var ipTexts := Texts(ipString, l.ipAddresses);
    WithIndentLines(p, ipTexts, st, acc);
    acc := acc + LinesAt(level + 2, ipTexts);
    PrintLine(p, "Email addresses", st, acc);
    acc := acc + [LineAt(level + 1, "Email addresses")];
    WithIndentLines(p, l.emailAddresses, st, acc);
    acc := acc + LinesAt(level + 2, l.emailAddresses);
    p.Unindent();
    AfterDone(st, f, acc);
  }

  /** `printCertificateExtensionSubjectAltName`. */
  method PrintSubjectAltName(p: Printer, ext: Extension, fr: Foreign) returns (panic: Option<Panic>)
    modifies p, p.w
    ensures var r := SubjectAltNameLines(old(p.indent), ext.critical, ext.value, fr.parseUri, fr.uriString, fr.ipString);
            if r.Failure? then panic == Some(r.error) && p.Snapshot() == old(p.Snapshot())
            else panic.None? && p.Snapshot() == PrintLines(old(p.Snapshot()), p.w.failing, r.value)
  {
    var san := new SAN.ExtSubjectAltName();
    var err := san.Decode(ext.value, fr.parseUri);
    if err.Fail? {
      return Some(CannotDecode("subject alt name", err.error));
    }
    PrintSanSections(p, ext.critical, san.Contents(), fr.uriString, fr.ipString);
    return None;
  }

  /** The body of the basic constraints renderer. */
  method PrintBasicConstraintsText(p: Printer, critical: bool, ca: bool, pathLenConstraint: int)
    modifies p, p.w
    ensures p.Snapshot() == PrintLines(old(p.Snapshot()), p.w.failing,
                                       BasicConstraintsText(old(p.indent), critical, BC.Fields(ca, pathLenConstraint)))
  {
    ghost var st := p.Snapshot();
    ghost var f := p.w.failing;
    ghost var level := st.indent;
    PrintHeader(p, "Basic constraints", critical);
    ghost var acc := [LineAt(level, Header("Basic constraints", critical))];
    p.Indent();
    PrintLine(p, "CA: " + BoolText(ca), st, acc);
    acc := acc + [LineAt(level + 1, "CA: " + BoolText(ca))];
    if pathLenConstraint != -1 {
      PrintLine(p, "Path length constraint: " + SignedDecimal(pathLenConstraint), st, acc);
      acc := acc + [LineAt(level + 1, "Path length constraint: " + SignedDecimal(pathLenConstraint))];
    }
    p.Unindent();
    assert acc == BasicConstraintsText(level, critical, BC.Fields(ca, pathLenConstraint));
    AfterDone(st, f, acc);
  }

  /** `printCertificateExtensionBasicConstraints`. */
  method PrintBasicConstraints(p: Printer, ext: Extension) returns (panic: Option<Panic>)
    modifies p, p.w
    ensures var r := BasicConstraintsLines(old(p.indent), ext.critical, ext.value);
            if r.Failure? then panic == Some(r.error) && p.Snapshot() == old(p.Snapshot())
            else panic.None? && p.Snapshot() == PrintLines(old(p.Snapshot()), p.w.failing, r.value)
  {
    var cs := new BC.ExtBasicConstraints();
    var err := cs.Decode(ext.value);
    if err.Fail? {
      return Some(CannotDecode("basic contraints", err.error));
    }
    PrintBasicConstraintsText(p, ext.critical, cs.ca, cs.pathLenConstraint);
    return None;
  }

  /** `printCertificateExtensionExtendedKeyUsage`. */
  method PrintExtendedKeyUsage(p: Printer, ext: Extension) returns (panic: Option<Panic>)
    modifies p, p.w
    ensures var r := ExtendedKeyUsageLines(old(p.indent), ext.critical, ext.value);
            if r.Failure? then panic == Some(r.error) && p.Snapshot() == old(p.Snapshot())
            else panic.None? && p.Snapshot() == PrintLines(old(p.Snapshot()), p.w.failing, r.value)
  {
    var usage := new EKU.ExtExtendedKeyUsage();
    var err := usage.Decode(ext.value);
    if err.Fail? {
      return Some(CannotDecode("extended key usage", err.error));
    }
    assert usage.keyPurposeIds == EKU.Purposes(EKU.DecodePurposeIds(ext.value).value);
    PrintSection(p, "Extended key usage", ext.critical, usage.keyPurposeIds);
    return None;
  }

  /** The default case: the identifier as the header and the dump of the
      payload, made by `Hex` inside the body. */
  method PrintOther(p: Printer, ext: Extension, idString: string)
    requires idString == Dotted(ext.id)
    modifies p, p.w
    ensures p.Snapshot() == PrintLines(old(p.Snapshot()), p.w.failing, OtherLines(old(p.indent), ext))
  {
    ghost var st := p.Snapshot();
    ghost var f := p.w.failing;
    ghost var level := st.indent;
    PrintHeader(p, idString, ext.critical);
    ghost var acc := [LineAt(level, Header(idString, ext.critical))];
    p.Indent();
    var hex := p.Hex(ext.value);
    PrintLine(p, "Non-decoded data: " + hex, st, acc);
    acc := acc + [LineAt(level + 1, "Non-decoded data: " + hex)];
    p.Unindent();
    AfterDone(st, f, acc);
  }

  /** One step of `printCertificateExtensions`: the switch on the dotted
      identifier. */
  method PrintExtension(p: Printer, ext: Extension, fr: Foreign) returns (panic: Option<Panic>)
    modifies p, p.w
    ensures var r := ExtensionLines(old(p.indent), ext, fr);
            if r.Failure? then panic == Some(r.error) && p.Snapshot() == old(p.Snapshot())
            else panic.None? && p.Snapshot() == PrintLines(old(p.Snapshot()), p.w.failing, r.value)
  {
    var idString := Dotted(ext.id);
    ghost var level := p.indent;
    if idString == "2.5.29.15" {
      panic := PrintKeyUsage(p, ext);
    } else if idString == "2.5.29.17" {
      panic := PrintSubjectAltName(p, ext, fr);
    } else if idString == "2.5.29.19" {
      panic := PrintBasicConstraints(p, ext);
    } else if idString == "2.5.29.37" {
      panic := PrintExtendedKeyUsage(p, ext);
    } else {
      PrintOther(p, ext, idString);
      panic := None;
    }
  }

  /** One turn of the loop of `printCertificateExtensions`: extension `i`,
      whose outcome is `rs[i]`. */
  method PrintOutcome(p: Printer, exts: seq<Extension>, i: nat, fr: Foreign, ghost rs: seq<Printed>, ghost level: int)
      returns (panic: Option<Panic>)
    requires i < |exts| == |rs| && p.indent == level
    requires forall j {:trigger exts[j]} :: 0 <= j < |exts| ==> rs[j] == ExtensionLines(level, exts[j], fr)
    modifies p, p.w
    ensures if rs[i].Failure? then panic == Some(rs[i].error) && p.Snapshot() == old(p.Snapshot())
            else panic.None? && p.Snapshot() == PrintLines(old(p.Snapshot()), p.w.failing, rs[i].value)
  {
    panic := PrintExtension(p, exts[i], fr);
  }

  /** The loop of `printCertificateExtensions`, over extensions whose
      outcomes are `rs`. */
  method PrintEach(p: Printer, exts: seq<Extension>, fr: Foreign, ghost rs: seq<Printed>, ghost level: int)
      returns (panic: Option<Panic>)
    requires |rs| == |exts| && p.indent == level
    requires forall j {:trigger exts[j]} :: 0 <= j < |exts| ==> rs[j] == ExtensionLines(level, exts[j], fr)
    modifies p, p.w
    ensures var r := RenderOutcomes(rs);
            panic == r.panic && p.Snapshot() == PrintLines(old(p.Snapshot()), p.w.failing, r.lines)
  {
    ghost var st := p.Snapshot();
    ghost var f := p.w.failing;
    ghost var acc: seq<LineAt> := [];
    for i := 0 to |exts|
      invariant p.indent == level
      invariant p.Snapshot() == PrintLines(st, f, acc)
      invariant RenderOutcomes(rs) == Rendering(acc + RenderOutcomes(rs[i..]).lines, RenderOutcomes(rs[i..]).panic)
    {
      ghost var before := p.Snapshot();
      panic := PrintOutcome(p, exts, i, fr, rs, level);
      OutcomesStep(rs, i);
      if panic.Some? {
        assert acc + [] == acc;
        return;
      }
      ghost var ls := rs[i].value;
      PrintLinesAppend(st, f, acc, ls);
      PrintLinesKeep(before, f, ls);
      assert acc + (ls + RenderOutcomes(rs[i + 1..]).lines) == (acc + ls) + RenderOutcomes(rs[i + 1..]).lines;
      acc := acc + ls;
    }
    assert acc + [] == acc;
    return None;
  }

  /** `printCertificateExtensions`: the extensions in certificate order,
      until a renderer panics. */
  method PrintExtensions(p: Printer, exts: seq<Extension>, fr: Foreign) returns (panic: Option<Panic>)
    modifies p, p.w
    ensures var r := RenderExtensions(old(p.indent), exts, fr);
            panic == r.panic && p.Snapshot() == PrintLines(old(p.Snapshot()), p.w.failing, r.lines)
  {
    panic := PrintEach(p, exts, fr, Results(p.indent, exts, fr), p.indent);
  }

  // ---------------------------------------------------------------------
  // The issuer of a generated certificate
  // ---------------------------------------------------------------------

  /** A private key, as an opaque identity; the key algorithms are not part
      of this model. */
  datatype PrivateKey = PrivateKey(handle: nat)

  /** A `crypto.PublicKey`, the public half of a private key. */
  datatype PubKey = PubKey(privateKey: PrivateKey)

  /** `PublicKey`: the public key of a private key. */
  function PublicKey(k: PrivateKey): (pub: PubKey)
    ensures pub.privateKey == k
  {
    PubKey(k)
  }

  /** The parts of an issuer certificate used when signing. */
  datatype IssuerCert = IssuerCert(subject: CertData.Name, publicKey: PubKey)

  /** A generated certificate as `x509.CreateCertificate` is asked to make it:
      the template, the issuer's name, the public key it certifies, and the
      key that signs it. */
  datatype Signed = Signed(template: CertData.Template, issuer: CertData.Name, subjectKey: PubKey, signer: PrivateKey)

  /** `GenerateCertificate` as written: the template as written, with no
      issuer certificate its own issuer; the public key put in the
      certificate is that of the issuer's private key. */
  function GenerateCertificateAsWritten(data: CertData.Data, issuerCert: Option<IssuerCert>, issuerKey: PrivateKey,
                                        draw: Option<seq<byte>>, now: int): (r: Result<Signed, CertData.TemplateError>)
    requires MinInt64 <= data.validity <= MaxInt64
    requires draw.Some? ==> |draw.value| == SerialNumber.DrawLength
    ensures r.Failure? <==> draw.None?
    ensures r.Success? ==> r.value.template == CertData.CertificateTemplateAsWritten(data, draw, now).value
  {
    var template :- CertData.CertificateTemplateAsWritten(data, draw, now);
    var issuer := if issuerCert.None? then template.subject else issuerCert.value.subject;
    var publicKey := PublicKey(issuerKey);
    Success(Signed(template, issuer, publicKey, issuerKey))
  }

  /** As written, every certificate an issuer signs certifies the issuer's
      own public key, whatever its subject: a subordinate certificate
      shares the key of its CA, and two certificates of one CA for
      different subjects carry the same key. */
  lemma SubjectKeyIsIssuerKey(data: CertData.Data, issuerCert: Option<IssuerCert>, issuerKey: PrivateKey, b: seq<byte>, now: int)
    requires MinInt64 <= data.validity <= MaxInt64 && |b| == SerialNumber.DrawLength
    ensures var s := GenerateCertificateAsWritten(data, issuerCert, issuerKey, Some(b), now).value;
            s.subjectKey == PublicKey(issuerKey) && s.signer == issuerKey
    ensures issuerCert.Some? && issuerCert.value.publicKey == PublicKey(issuerKey) ==>
              GenerateCertificateAsWritten(data, issuerCert, issuerKey, Some(b), now).value.subjectKey
              == issuerCert.value.publicKey
  {
  }

  /** For a leaf whose own key is `k`, the certificate as written does not
      certify `k` unless `k` is the issuer's key. */
  lemma LeafKeyNotCertified(data: CertData.Data, ca: IssuerCert, caKey: PrivateKey, leafKey: PrivateKey, b: seq<byte>, now: int)
    requires MinInt64 <= data.validity <= MaxInt64 && |b| == SerialNumber.DrawLength && leafKey != caKey
    ensures GenerateCertificateAsWritten(data, Some(ca), caKey, Some(b), now).value.subjectKey != PublicKey(leafKey)
  {
  }

  /** `GenerateCertificate` as intended: the certificate certifies the
      subject's own key and is signed by the issuer's; with no issuer
      certificate it is self-signed, its issuer being its own subject. */
  function GenerateCertificate(data: CertData.Data, issuerCert: Option<IssuerCert>, issuerKey: PrivateKey,
                               subjectKey: PrivateKey, draw: Option<seq<byte>>, now: int): (r: Result<Signed, CertData.TemplateError>)
    requires draw.Some? ==> |draw.value| == SerialNumber.DrawLength
    ensures r.Failure? <==> draw.None?
    ensures r.Success? ==> r.value.subjectKey == PublicKey(subjectKey) && r.value.signer == issuerKey
  {
    var template :- CertData.CertificateTemplate(data, draw, now);
    var issuer := if issuerCert.None? then template.subject else issuerCert.value.subject;
    Success(Signed(template, issuer, PublicKey(subjectKey), issuerKey))
  }

  /** The intended generation fails exactly when the serial number cannot be
      drawn; it certifies the subject's key, which differs from the
      issuer's whenever the subject's private key does; it is signed by the
      issuer's key; and with no issuer certificate the issuer is the
      subject itself. */
  lemma GeneratedCertificate(data: CertData.Data, issuerCert: Option<IssuerCert>, issuerKey: PrivateKey,
                              subjectKey: PrivateKey, draw: Option<seq<byte>>, now: int)
    requires draw.Some? ==> |draw.value| == SerialNumber.DrawLength
    ensures var r := GenerateCertificate(data, issuerCert, issuerKey, subjectKey, draw, now);
            (r.Failure? <==> draw.None?)
            && (r.Success? ==>
                  r.value.template == CertData.CertificateTemplate(data, draw, now).value
                  && r.value.subjectKey == PublicKey(subjectKey) && r.value.signer == issuerKey
                  && (subjectKey != issuerKey ==> r.value.subjectKey != PublicKey(issuerKey))
                  && (issuerCert.None? ==> r.value.issuer == r.value.template.subject)
                  && (issuerCert.Some? ==> r.value.issuer == issuerCert.value.subject))
  {
  }

  /** For a self-signed certificate, where the subject's key is the issuer's,
      valid for at most 106751 days, the intended generation and the
      written one agree. */
  lemma SelfSignedAgrees(data: CertData.Data, key: PrivateKey, draw: Option<seq<byte>>, now: int)
    requires 0 <= data.validity <= CertData.MaxExactValidity
    requires draw.Some? ==> |draw.value| == SerialNumber.DrawLength
    ensures GenerateCertificate(data, None, key, key, draw, now) == GenerateCertificateAsWritten(data, None, key, draw, now)
  {
    CertData.TemplateAsWrittenExact(data, draw, now);
  }
}
