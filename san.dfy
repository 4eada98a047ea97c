/** The command-line subject alternative names: comma-separated lists of
    URIs, DNS names, IP addresses and e-mail addresses, split with
    `strings.Split(s, ",")` and trimmed with `strings.Trim(part, " ")`. */
module San {
  import opened Common

  /** The record `SAN`. A list that was never set is Go's nil slice,
      `None`, which is not the same as an empty list. */
  datatype SanLists = SanLists(uris: Option<seq<Uri>>, dnsNames: Option<seq<string>>,
                               ipAddresses: Option<seq<IpAddress>>, emailAddresses: Option<seq<string>>)

  /** What `net.ParseIP` makes of a string: `None` for a nil address. */
  type IpParser = string -> Option<IpAddress>

  /** The errors of the four parsers. */
  datatype SanError =
    | EmptyUri
    | InvalidUri(uri: string)
    | EmptyName
    | EmptyIpAddress
    | InvalidIpAddress(address: string)
    | EmptyAddress

  // ---------------------------------------------------------------------
  // strings.Split(s, ",")
  // ---------------------------------------------------------------------

  /** The parts of `s` between commas; the empty string has one empty part. */
  function Split(s: string): (parts: seq<string>)
    ensures |parts| >= 1
    decreases |s|
  {
    if |s| == 0 then [""]
    else
      var r := Split(s[1..]);
      if s[0] == ',' then [""] + r else [[s[0]] + r[0]] + r[1..]
  }

  /** `strings.Join(parts, ",")`. */
  function Join(parts: seq<string>): string
    requires |parts| >= 1
    decreases |parts|
  {
    if |parts| == 1 then parts[0] else parts[0] + "," + Join(parts[1..])
  }

  /** Whether no part holds a comma. */
  predicate CommaFree(parts: seq<string>)
  {
    forall i :: 0 <= i < |parts| ==> ',' !in parts[i]
  }

  /** Joining the parts back with commas gives the string. */
  lemma {:induction false} JoinSplit(s: string)
    ensures Join(Split(s)) == s
    decreases |s|
  {
    if |s| > 0 {
      var r := Split(s[1..]);
      JoinSplit(s[1..]);
      if s[0] == ',' {
        assert ([""] + r)[1..] == r;
      } else {
        var parts := [[s[0]] + r[0]] + r[1..];
        if |r| > 1 {
          assert parts[1..] == r[1..];
        }
      }
    }
  }

  /** No part holds a comma. */
  lemma {:induction false} SplitCommaFree(s: string)
    ensures CommaFree(Split(s))
    decreases |s|
  {
    if |s| > 0 {
      SplitCommaFree(s[1..]);
      var r := Split(s[1..]);
      if s[0] != ',' {
        var parts := [[s[0]] + r[0]] + r[1..];
        forall i | 0 <= i < |parts|
          ensures ',' !in parts[i]
        {
          if i > 0 {
            assert parts[i] == r[i];
          }
        }
      }
    }
  }

  /** Splitting around one comma splits each side. */
  lemma {:induction false} SplitAround(a: string, b: string)
    ensures Split(a + "," + b) == Split(a) + Split(b)
    decreases |a|
  {
    var s := a + "," + b;
    if |a| == 0 {
      assert s == "," + b;
      LeadingCommaSplit(b);
    } else {
      assert s[0] == a[0] && s[1..] == a[1..] + "," + b;
      SplitAround(a[1..], b);
      var r, t := Split(a[1..]), Split(b);
      assert Split(s[1..]) == r + t;
      if a[0] == ',' {
        assert Split(s) == [""] + (r + t) && Split(a) == [""] + r;
        Associative([""], r, t);
      } else {
        assert (r + t)[0] == r[0] && (r + t)[1..] == r[1..] + t;
        assert Split(s) == [[a[0]] + r[0]] + (r[1..] + t);
        assert Split(a) == [[a[0]] + r[0]] + r[1..];
        Associative([[a[0]] + r[0]], r[1..], t);
      }
    }
  }

  /** Parts without commas are what splitting their join gives back. */
  lemma {:induction false} SplitJoin(parts: seq<string>)
    requires |parts| >= 1 && CommaFree(parts)
    ensures Split(Join(parts)) == parts
    decreases |parts|
  {
    SplitCommaFreePart(parts[0]);
    if |parts| > 1 {
      assert CommaFree(parts[1..]) by {
        forall i | 0 <= i < |parts| - 1
          ensures ',' !in parts[1..][i]
        {
          assert parts[1..][i] == parts[i + 1];
        }
      }
      SplitJoin(parts[1..]);
      SplitAround(parts[0], Join(parts[1..]));
      assert parts == [parts[0]] + parts[1..];
    }
  }

  /** A string without commas is one part. */
  lemma {:induction false} SplitCommaFreePart(p: string)
    requires ',' !in p
    ensures Split(p) == [p]
    decreases |p|
  {
    if |p| > 0 {
      assert ',' !in p[1..];
      SplitCommaFreePart(p[1..]);
      assert [p[0]] + p[1..] == p;
    }
  }

  /** A leading comma makes an empty first part. */
  lemma LeadingCommaSplit(b: string)
    ensures Split("," + b) == [""] + Split(b)
  {
    assert ("," + b)[1..] == b;
  }

  /** A trailing comma makes an empty last part. */
  lemma TrailingComma(s: string)
    ensures Split(s + ",") == Split(s) + [""]
  {
    SplitAround(s, "");
    assert s + "," + "" == s + ",";
  }

  /** Two adjacent commas make an empty part between them. */
  lemma DoubleComma(a: string, b: string)
    ensures Split(a + ",," + b) == Split(a) + [""] + Split(b)
  {
    SplitAround(a, "," + b);
    LeadingCommaSplit(b);
    assert a + ",," + b == a + "," + ("," + b);
  }

  // ---------------------------------------------------------------------
  // strings.Trim(part, " ")
  // ---------------------------------------------------------------------

  /** Leading ' ' characters removed. */
  function TrimLeft(s: string): string
    decreases |s|
  {
    if |s| > 0 && s[0] == ' ' then TrimLeft(s[1..]) else s
  }

  /** Trailing ' ' characters removed. */
  function TrimRight(s: string): string
    decreases |s|
  {
    if |s| > 0 && s[|s| - 1] == ' ' then TrimRight(s[..|s| - 1]) else s
  }

  /** Leading and trailing ' ' characters removed; no other character is. */
  function Trim(s: string): string
  {
    TrimRight(TrimLeft(s))
  }

  /** Whether `s` is made of ' ' characters only. */
  predicate AllSpaces(s: string)
  {
    forall i :: 0 <= i < |s| ==> s[i] == ' '
  }

  /** Whether `s` neither starts nor ends with ' '. */
  predicate Trimmed(s: string)
  {
    |s| == 0 || (s[0] != ' ' && s[|s| - 1] != ' ')
  }

  /** Trimming the left removes a prefix of spaces, leaving no leading space. */
  lemma {:induction false} TrimLeftShape(s: string)
    ensures |TrimLeft(s)| <= |s| && TrimLeft(s) == s[|s| - |TrimLeft(s)|..]
    ensures AllSpaces(s[..|s| - |TrimLeft(s)|])
    ensures |TrimLeft(s)| > 0 ==> TrimLeft(s)[0] != ' '
    decreases |s|
  {
    if |s| > 0 && s[0] == ' ' {
      TrimLeftShape(s[1..]);
      var k := |s| - |TrimLeft(s)|;
      assert s[1..][k - 1..] == s[k..];
      forall i | 0 <= i < k
        ensures s[..k][i] == ' '
      {
        if i > 0 {
          assert s[..k][i] == s[1..][..k - 1][i - 1];
        }
      }
    }
  }

  /** Trimming the right removes a suffix of spaces, leaving no trailing space. */
  lemma {:induction false} TrimRightShape(s: string)
    ensures |TrimRight(s)| <= |s| && TrimRight(s) == s[..|TrimRight(s)|]
    ensures AllSpaces(s[|TrimRight(s)|..])
    ensures |TrimRight(s)| > 0 ==> TrimRight(s)[|TrimRight(s)| - 1] != ' '
    decreases |s|
  {
    if |s| > 0 && s[|s| - 1] == ' ' {
      var t := s[..|s| - 1];
      TrimRightShape(t);
      var k := |TrimRight(s)|;
      assert t[..k] == s[..k];
      forall i | k <= i < |s|
        ensures s[i] == ' '
      {
        if i < |s| - 1 {
          assert t[k..][i - k] == s[i];
        }
      }
      assert forall i :: 0 <= i < |s[k..]| ==> s[k..][i] == s[k + i];
    }
  }

  /** The trimmed string is the middle of `s` between a run of spaces on
      each side, and it starts and ends with no space. */
  lemma TrimShape(s: string)
    ensures Trimmed(Trim(s))
    ensures exists i, j :: 0 <= i <= j <= |s| && Trim(s) == s[i..j] && AllSpaces(s[..i]) && AllSpaces(s[j..])
  {
    var l := TrimLeft(s);
    TrimLeftShape(s);
    TrimRightShape(l);
    var i := |s| - |l|;
    var j := i + |Trim(s)|;
    assert Trim(s) == l[..|Trim(s)|];
    assert l[..|Trim(s)|] == s[i..j];
    assert forall k :: 0 <= k < |s[j..]| ==> s[j..][k] == l[|Trim(s)|..][k];
    if |Trim(s)| > 0 {
      assert Trim(s)[0] == l[0];
    }
  }

  /** Only leading spaces go on the left. */
  lemma {:induction false} TrimLeftOf(a: nat, y: string)
    requires |y| == 0 || y[0] != ' '
    ensures TrimLeft(Spaces(a) + y) == y
    decreases a
  {
    if a > 0 {
      assert (Spaces(a) + y)[1..] == Spaces(a - 1) + y;
      TrimLeftOf(a - 1, y);
    } else {
      assert Spaces(a) + y == y;
    }
  }

  /** Only trailing spaces go on the right. */
  lemma {:induction false} TrimRightOf(x: string, b: nat)
    requires |x| == 0 || x[|x| - 1] != ' '
    ensures TrimRight(x + Spaces(b)) == x
    decreases b
  {
    if b > 0 {
      assert (x + Spaces(b))[..|x| + b - 1] == x + Spaces(b - 1);
      TrimRightOf(x, b - 1);
    } else {
      assert x + Spaces(b) == x;
    }
  }

  /** Only spaces are removed: surrounding any string that neither starts
      nor ends with a space by runs of spaces, trimming gives it back. */
  lemma TrimOf(a: nat, x: string, b: nat)
    requires Trimmed(x)
    ensures Trim(Spaces(a) + x + Spaces(b)) == x
  {
    if |x| == 0 {
      assert Spaces(a) + x + Spaces(b) == Spaces(a + b) + "";
      TrimLeftOf(a + b, "");
    } else {
      assert Spaces(a) + x + Spaces(b) == Spaces(a) + (x + Spaces(b));
      TrimLeftOf(a, x + Spaces(b));
      TrimRightOf(x, b);
    }
  }

  /** A part trims to the empty string exactly when it is all spaces. */
  lemma TrimEmpty(s: string)
    ensures Trim(s) == "" <==> AllSpaces(s)
  {
    TrimShape(s);
    var i, j :| 0 <= i <= j <= |s| && Trim(s) == s[i..j] && AllSpaces(s[..i]) && AllSpaces(s[j..]);
    if Trim(s) == "" {
      forall k | 0 <= k < |s|
        ensures s[k] == ' '
      {
        if k < i {
          assert s[..i][k] == s[k];
        } else {
          assert s[j..][k - j] == s[k];
        }
      }
    } else {
      assert s[i] == Trim(s)[0];
    }
  }

  // ---------------------------------------------------------------------
  // The four parsers
  // ---------------------------------------------------------------------

  /** A part `parseSANUris` takes: non-empty once trimmed, and parsed. */
  predicate UriPartOk(part: string, parseUri: UriParser)
  {
    Trim(part) != "" && parseUri(Trim(part)).Some?
  }

  /** The error for a part `parseSANUris` does not take. */
  function UriPartError(part: string, parseUri: UriParser): SanError
  {
    if Trim(part) == "" then EmptyUri else InvalidUri(Trim(part))
  }

  /** A part `parseSANIPAddresses` takes: non-empty once trimmed, and parsed. */
  predicate IpPartOk(part: string, parseIp: IpParser)
  {
    Trim(part) != "" && parseIp(Trim(part)).Some?
  }

  /** The error for a part `parseSANIPAddresses` does not take. */
  function IpPartError(part: string, parseIp: IpParser): SanError
  {
    if Trim(part) == "" then EmptyIpAddress else InvalidIpAddress(Trim(part))
  }

  /** A part `parseSANDNSNames` and `parseSANEmailAddresses` take: one that
      is non-empty BEFORE trimming, so a part of spaces only is taken. */
  predicate NamePartOk(part: string)
  {
    |part| != 0
  }

  /** `parseSANUris`: one parsed URI per part, in order, or the error of the
      first part that is empty once trimmed or does not parse, and no list. */
  method ParseSanUris(s: string, parseUri: UriParser) returns (r: Result<seq<Uri>, SanError>)
    ensures r.Success? ==>
              (forall i :: 0 <= i < |Split(s)| ==> UriPartOk(Split(s)[i], parseUri))
              && |r.value| == |Split(s)|
              && forall i :: 0 <= i < |Split(s)| ==> r.value[i] == parseUri(Trim(Split(s)[i])).value
    ensures r.Failure? ==>
              exists k :: 0 <= k < |Split(s)| && !UriPartOk(Split(s)[k], parseUri)
                          && (forall i :: 0 <= i < k ==> UriPartOk(Split(s)[i], parseUri))
                          && r.error == UriPartError(Split(s)[k], parseUri)
  {
    var parts := Split(s);
    var uris: seq<Uri> := [];
    for n := 0 to |parts|
      invariant |uris| == n
      invariant forall i :: 0 <= i < n ==> UriPartOk(parts[i], parseUri) && uris[i] == parseUri(Trim(parts[i])).value
    {
      var uriString := Trim(parts[n]);
      if uriString == "" {
        return Failure(EmptyUri);
      }
      var uri := parseUri(uriString);
      if uri.None? {
        return Failure(InvalidUri(uriString));
      }
      uris := uris + [uri.value];
    }
    return Success(uris);
  }

  /** `parseSANDNSNames`: one trimmed name per part, in order, or an error
      when some part is empty before trimming, and no list. */
  method ParseSanDnsNames(s: string) returns (r: Result<seq<string>, SanError>)
    ensures r.Success? <==> forall i :: 0 <= i < |Split(s)| ==> NamePartOk(Split(s)[i])
    ensures r.Success? ==>
              |r.value| == |Split(s)| && forall i :: 0 <= i < |Split(s)| ==> r.value[i] == Trim(Split(s)[i])
    ensures r.Failure? ==> r.error == EmptyName
  {
    var parts := Split(s);
    var names: seq<string> := [];
    for n := 0 to |parts|
      invariant |names| == n
      invariant forall i :: 0 <= i < n ==> NamePartOk(parts[i]) && names[i] == Trim(parts[i])
    {
      var name := Trim(parts[n]);
      if |parts[n]| == 0 {
        assert !NamePartOk(Split(s)[n]);
        return Failure(EmptyName);
      }
      names := names + [name];
    }
    return Success(names);
  }

  /** `parseSANIPAddresses`: one parsed address per part, in order, or the
      error of the first part that is empty once trimmed or does not parse,
      and no list. */
  method ParseSanIpAddresses(s: string, parseIp: IpParser) returns (r: Result<seq<IpAddress>, SanError>)
    ensures r.Success? ==>
              (forall i :: 0 <= i < |Split(s)| ==> IpPartOk(Split(s)[i], parseIp))
              && |r.value| == |Split(s)|
              && forall i :: 0 <= i < |Split(s)| ==> r.value[i] == parseIp(Trim(Split(s)[i])).value
    ensures r.Failure? ==>
              exists k :: 0 <= k < |Split(s)| && !IpPartOk(Split(s)[k], parseIp)
                          && (forall i :: 0 <= i < k ==> IpPartOk(Split(s)[i], parseIp))
                          && r.error == IpPartError(Split(s)[k], parseIp)
  {
    var parts := Split(s);
    var addresses: seq<IpAddress> := [];
    for n := 0 to |parts|
      invariant |addresses| == n
      invariant forall i :: 0 <= i < n ==> IpPartOk(parts[i], parseIp) && addresses[i] == parseIp(Trim(parts[i])).value
    {
      var addressString := Trim(parts[n]);
      if addressString == "" {
        return Failure(EmptyIpAddress);
      }
      var address := parseIp(addressString);
      if address.None? {
        return Failure(InvalidIpAddress(addressString));
      }
      addresses := addresses + [address.value];
    }
    return Success(addresses);
  }

  /** `parseSANEmailAddresses`: one trimmed address per part, in order, or
      an error when some part is empty before trimming, and no list. */
  method ParseSanEmailAddresses(s: string) returns (r: Result<seq<string>, SanError>)
    ensures r.Success? <==> forall i :: 0 <= i < |Split(s)| ==> NamePartOk(Split(s)[i])
    ensures r.Success? ==>
              |r.value| == |Split(s)| && forall i :: 0 <= i < |Split(s)| ==> r.value[i] == Trim(Split(s)[i])
    ensures r.Failure? ==> r.error == EmptyAddress
  {
    var parts := Split(s);
    var addresses: seq<string> := [];
    for n := 0 to |parts|
      invariant |addresses| == n
      invariant forall i :: 0 <= i < n ==> NamePartOk(parts[i]) && addresses[i] == Trim(parts[i])
    {
      var address := Trim(parts[n]);
      if |parts[n]| == 0 {
        assert !NamePartOk(Split(s)[n]);
        return Failure(EmptyAddress);
      }
      addresses := addresses + [address];
    }
    return Success(addresses);
  }

  // ---------------------------------------------------------------------
  // What the parsers accept
  // ---------------------------------------------------------------------

  /** An empty part is refused by all four parsers. */
  lemma EmptyPartRefused(parseUri: UriParser, parseIp: IpParser)
    ensures !UriPartOk("", parseUri) && UriPartError("", parseUri) == EmptyUri
    ensures !IpPartOk("", parseIp) && IpPartError("", parseIp) == EmptyIpAddress
    ensures !NamePartOk("")
  {
    assert Trim("") == "";
  }

  /** A part of spaces only is refused as an empty URI or IP address, but
      taken as the empty DNS name or e-mail address. */
  lemma SpacesOnlyPart(n: nat, parseUri: UriParser, parseIp: IpParser)
    requires n > 0
    ensures NamePartOk(Spaces(n)) && Trim(Spaces(n)) == ""
    ensures !UriPartOk(Spaces(n), parseUri) && UriPartError(Spaces(n), parseUri) == EmptyUri
    ensures !IpPartOk(Spaces(n), parseIp) && IpPartError(Spaces(n), parseIp) == EmptyIpAddress
  {
    TrimEmpty(Spaces(n));
  }

  /** A leading comma, a trailing comma or two adjacent commas leave an
      empty part, which every parser refuses. */
  lemma EmptyPartFromCommas(a: string, b: string)
    ensures "" in Split("," + a) && "" in Split(a + ",") && "" in Split(a + ",," + b)
  {
    LeadingCommaSplit(a);
    TrailingComma(a);
    DoubleComma(a, b);
  }
}
