/** The server's hostnames and the subdomains clients ask for. */
module Subdomain {
  import opened Text
  import opened Hostname
  import opened Addresses

  /** `str::to_lowercase`, of which only three facts are used: it is the usual one on ASCII,
      leaves no upper case letter of ASCII, and neither adds nor removes dots. */
  type Lowercase = string -> string

  ghost predicate Lawful(lower: Lowercase) {
    && (forall s :: IsAscii(s) ==> lower(s) == AsciiLower(s))
    && (forall s :: NoUpper(lower(s)))
    && (forall s :: Dots(lower(s)) == Dots(s))
  }

  function Dots(s: string): nat {
    multiset(s)['.']
  }

  lemma DotsConcat(a: string, b: string)
    ensures Dots(a + b) == Dots(a) + Dots(b)
  {
  }

  lemma {:induction false} AsciiDots(s: string)
    ensures Dots(AsciiLower(s)) == Dots(s)
  {
    if s != [] {
      AsciiDots(s[1..]);
      assert s == [s[0]] + s[1..] && AsciiLower(s) == [LowerChar(s[0])] + AsciiLower(s[1..]);
      DotsConcat([s[0]], s[1..]);
      DotsConcat([LowerChar(s[0])], AsciiLower(s[1..]));
    }
  }

  /** The laws can be met: by lowering ASCII alone, for one. */
  lemma LawsAreMet()
    ensures Lawful(s => AsciiLower(s))
  {
    forall s: string ensures NoUpper(AsciiLower(s)) && Dots(AsciiLower(s)) == Dots(s) {
      LowerFixed(s);
      AsciiDots(s);
    }
  }

  datatype Hostnames = Hostnames(
    domain: string, api: string, tcp: string,
    apiHostname: string, tcpHostname: string,
    blocklist: seq<string>)

  function NewHostname(domain: string, host: string): string {
    if host == "" then domain else host + "." + domain
  }

  function OrEmpty(s: Option<string>): string {
    if s.Some? then s.value else ""
  }

  function NewHostnames(lower: Lowercase, domain: string, api: Option<string>, tcp: Option<string>, blocklist: seq<string>): Hostnames {
    Hostnames(domain, lower(OrEmpty(api)), lower(OrEmpty(tcp)),
              NewHostname(domain, lower(OrEmpty(api))), NewHostname(domain, lower(OrEmpty(tcp))),
              seq(|blocklist|, i requires 0 <= i < |blocklist| => lower(blocklist[i])))
  }

  predicate IsSubdomainUsed(lower: Lowercase, hs: Hostnames, subdomain: string) {
    lower(subdomain) == hs.api || lower(subdomain) == hs.tcp
  }

  predicate IsSubdomainBlocked(lower: Lowercase, hs: Hostnames, subdomain: string) {
    exists i :: 0 <= i < |hs.blocklist| && hs.blocklist[i] == lower(subdomain)
  }

  predicate HasSuffix(s: string, suffix: string) {
    |suffix| <= |s| && s[|s| - |suffix|..] == suffix
  }

  function NormalizedClientSubdomain(lower: Lowercase, hs: Hostnames, subdomain: string): string {
    var s, suffix := lower(subdomain), "." + hs.domain;
    if HasSuffix(s, suffix) then s[..|s| - |suffix|] else s
  }

  datatype Requested = Any | Label(name: string) | Invalid | Disallowed

  function SubdomainForForwarding(lower: Lowercase, hs: Hostnames, requested: Option<string>): Requested {
    var hostname := OrEmpty(requested);
    if hostname == "" then Any
    else
      var name := NormalizedClientSubdomain(lower, hs, hostname);
      if !IsValid(name) || '.' in name then Invalid
      else if IsSubdomainUsed(lower, hs, name) then Disallowed
      else if IsSubdomainBlocked(lower, hs, name) then Disallowed
      else Label(name)
  }

  /** The hostname `http::open` claims for a label. */
  function ClaimedHostname(hs: Hostnames, name: string): string {
    if hs.domain == "" then name else name + "." + hs.domain
  }

  // ---------- routing by Host header

  datatype Router = Api | Main | Forwarding

  const API_CONNECT_PATH := "/v1/connect"

  /** The part before the last colon, or everything. */
  function WithoutPort(host: string): string {
    if host == "" then ""
    else if host[|host| - 1] == ':' then host[..|host| - 1]
    else if ':' in host then WithoutPort(host[..|host| - 1])
    else host
  }

  function Route(hs: Hostnames, hostHeader: string, path: string): Router {
    var host := WithoutPort(hostHeader);
    if host == hs.apiHostname && path == API_CONNECT_PATH then Api
    else if host == hs.domain then Main
    else Forwarding
  }

  // ---------- TCP: which addresses a client may ask for

  datatype PortOpenError = InUse | PortNotAllowed | HostNotAllowed

  function ValidateOpen(lower: Lowercase, hs: Hostnames, remote: Option<Address>): Option<PortOpenError> {
    match remote
    case None => None
    case Some(addr) =>
      if 0 < addr.port < 1024 then Some(PortNotAllowed)
      else if addr.host.Some? && NormalizedClientSubdomain(lower, hs, addr.host.value) != hs.tcpHostname
      then Some(HostNotAllowed)
      else None
  }

  // ---------- accepted labels

  lemma LabelIsAscii(s: string)
    requires IsValid(s)
    ensures IsAscii(s) && ':' !in s
  {
    forall i | 0 <= i < |s| ensures s[i] as int < 0x80 && s[i] != ':' {
      assert IsValidChar(s[i]);
    }
  }

  lemma SuffixHasDot(s: string, domain: string)
    requires HasSuffix(s, "." + domain)
    ensures '.' in s
  {
    assert s[|s| - |domain| - 1] == s[|s| - |domain| - 1..][0] == '.';
  }

  /** Stripping a suffix from a string without upper case leaves one without. */
  lemma NormalizedNoUpper(lower: Lowercase, hs: Hostnames, subdomain: string)
    requires Lawful(lower)
    ensures NoUpper(NormalizedClientSubdomain(lower, hs, subdomain))
  {
  }

  lemma LabelNormalized(lower: Lowercase, hs: Hostnames, name: string)
    requires Lawful(lower) && IsAscii(name) && NoUpper(name) && '.' !in name
    ensures NormalizedClientSubdomain(lower, hs, name) == name
  {
    LowerFixed(name);
    if HasSuffix(name, "." + hs.domain) {
      SuffixHasDot(name, hs.domain);
    }
  }

  /** What is accepted is one valid label in lower case, and asking for it again gives it
      again. */
  lemma AcceptedIsCanonical(lower: Lowercase, hs: Hostnames, requested: string, name: string)
    requires Lawful(lower) && SubdomainForForwarding(lower, hs, Some(requested)) == Label(name)
    ensures IsValid(name) && '.' !in name && NoUpper(name)
    ensures SubdomainForForwarding(lower, hs, Some(name)) == Label(name)
  {
    NormalizedNoUpper(lower, hs, requested);
    LabelIsAscii(name);
    LabelNormalized(lower, hs, name);
  }

  /** A label is accepted as it stands exactly when it is one. */
  predicate Canonical(lower: Lowercase, hs: Hostnames, name: string) {
    SubdomainForForwarding(lower, hs, Some(name)) == Label(name)
  }

  lemma Suffixed(name: string, domain: string)
    ensures HasSuffix(name + "." + domain, "." + domain)
    ensures (name + "." + domain)[..|name + "." + domain| - |"." + domain|] == name
  {
    var full := name + "." + domain;
    assert full == name + ("." + domain);
  }

  lemma SuffixSplits(s: string, suffix: string)
    requires HasSuffix(s, suffix)
    ensures s == s[..|s| - |suffix|] + suffix
  {
  }

  lemma FullFormNormalized(lower: Lowercase, hs: Hostnames, name: string)
    requires Lawful(lower) && '.' !in name
    ensures var full := name + "." + hs.domain;
            NormalizedClientSubdomain(lower, hs, full) == name <==> lower(full) == full
  {
    var full := name + "." + hs.domain;
    StrippedIff(lower(full), hs.domain, name);
    DotsConcat(name + ".", hs.domain);
    DotsConcat(name, ".");
    assert Dots(".") == 1;
    assert Dots(lower(full)) >= 1;
    assert Dots(name) == 0;
  }

  /** A string that has a dot comes down to a label only by losing the domain. */
  lemma StrippedIff(s: string, domain: string, name: string)
    ensures HasSuffix(s, "." + domain) ==> (s[..|s| - |"." + domain|] == name <==> s == name + "." + domain)
    ensures s == name + "." + domain ==> HasSuffix(s, "." + domain)
  {
    Suffixed(name, domain);
    if HasSuffix(s, "." + domain) {
      SuffixSplits(s, "." + domain);
      assert name + ("." + domain) == name + "." + domain;
    }
  }

  /** The full form of a label asks for the same name as the label exactly when it is in
      lower case already, whatever the configured domain. */
  lemma FullFormIff(lower: Lowercase, hs: Hostnames, name: string)
    requires Lawful(lower) && Canonical(lower, hs, name)
    ensures var full := name + "." + hs.domain;
            SubdomainForForwarding(lower, hs, Some(full)) == Label(name) <==> lower(full) == full
  {
    AcceptedIsCanonical(lower, hs, name, name);
    FullFormNormalized(lower, hs, name);
  }

  /** For an ASCII domain that is: the domain has no upper case letter. */
  lemma LowercaseFullForm(lower: Lowercase, hs: Hostnames, name: string)
    requires Lawful(lower) && Canonical(lower, hs, name) && IsAscii(hs.domain)
    ensures var full := name + "." + hs.domain; lower(full) == full <==> NoUpper(hs.domain)
  {
    var full := name + "." + hs.domain;
    AcceptedIsCanonical(lower, hs, name, name);
    LabelIsAscii(name);
    LowerConcat(name + ".", hs.domain);
    LowerConcat(name, ".");
    LowerFixed(name);
    LowerFixed(hs.domain);
    assert AsciiLower(".") == ".";
    assert lower(full) == name + "." + AsciiLower(hs.domain);
    assert lower(full)[|name| + 1..] == AsciiLower(hs.domain) && full[|name| + 1..] == hs.domain;
  }

  /** Different labels claim different hostnames. */
  lemma HostnamesApart(hs: Hostnames, a: string, b: string)
    ensures ClaimedHostname(hs, a) == ClaimedHostname(hs, b) <==> a == b
  {
    var x, y := ClaimedHostname(hs, a), ClaimedHostname(hs, b);
    if x == y && hs.domain != "" {
      assert |a| == |b|;
      assert a == x[..|a|] && b == y[..|b|];
    }
  }

  lemma DottedApart(a: string, b: string, d: string)
    requires a + "." + d == b + "." + d
    ensures a == b
  {
    assert a == (a + "." + d)[..|a|] && b == (b + "." + d)[..|b|];
  }

  /** An accepted label never claims the main, API or TCP hostname. */
  lemma ClaimedIsNotReserved(lower: Lowercase, domain: string, api: Option<string>, tcp: Option<string>,
                             blocklist: seq<string>, requested: string, name: string)
    requires Lawful(lower)
    requires var hs := NewHostnames(lower, domain, api, tcp, blocklist);
             SubdomainForForwarding(lower, hs, Some(requested)) == Label(name)
    ensures var hs := NewHostnames(lower, domain, api, tcp, blocklist); var h := ClaimedHostname(hs, name);
            h != hs.domain && h != hs.apiHostname && h != hs.tcpHostname
  {
    var hs := NewHostnames(lower, domain, api, tcp, blocklist);
    AcceptedIsCanonical(lower, hs, requested, name);
    LabelIsAscii(name);
    LowerFixed(name);
    assert name != "" && name != hs.api && name != hs.tcp;
    NotReserved(hs, name, hs.api);
    NotReserved(hs, name, hs.tcp);
  }

  lemma NotReserved(hs: Hostnames, name: string, host: string)
    requires name != "" && '.' !in name && name != host
    ensures ClaimedHostname(hs, name) != NewHostname(hs.domain, host)
    ensures ClaimedHostname(hs, name) != hs.domain
  {
    if hs.domain == "" {
      if host != "" { assert '.' in host + "." + hs.domain by { assert (host + "." + hs.domain)[|host|] == '.'; } }
    } else {
      assert |ClaimedHostname(hs, name)| > |hs.domain|;
      if host != "" && name + "." + hs.domain == host + "." + hs.domain {
        DottedApart(name, host, hs.domain);
      }
    }
  }

  /** What stays of a Host header: all of it, or what precedes its last colon. */
  lemma {:induction false} WithoutPortCuts(host: string)
    ensures var h := WithoutPort(host);
            |h| <= |host| && h == host[..|h|] && (|h| < |host| ==> host[|h|] == ':') && (':' !in host ==> h == host)
    decreases |host|
  {
    if host != "" && host[|host| - 1] != ':' && ':' in host {
      var init := host[..|host| - 1];
      WithoutPortCuts(init);
      assert host == init + [host[|host| - 1]];
      assert ':' in init;
      assert WithoutPort(host)[..] == init[..|WithoutPort(host)|] == host[..|WithoutPort(host)|];
      LastColonFound(init);
    }
  }

  lemma {:induction false} LastColonFound(host: string)
    requires ':' in host
    ensures |WithoutPort(host)| < |host|
    decreases |host|
  {
    if host[|host| - 1] != ':' {
      var init := host[..|host| - 1];
      assert host == init + [host[|host| - 1]];
      LastColonFound(init);
    }
  }

  /** A label, a dot and a part of the domain that ends before a colon is no longer the
      domain, nor any other name under it. */
  lemma CutIsNotReserved(name: string, domain: string, k: nat, host: string)
    requires name != "" && '.' !in name && ':' !in name && k < |domain| && domain[k] == ':'
    ensures name + "." + domain[..k] != NewHostname(domain, host)
  {
    var cut, other := name + "." + domain[..k], host + "." + domain;
    if host == "" {
      if cut == domain {
        Periodic(name, domain, k, k);
      }
    } else {
      assert other[|host|] == '.';
      if |host| < |name| {
        assert cut[|host|] == name[|host|];
      } else {
        assert |cut| < |other|;
      }
    }
  }

  /** A string that goes on repeating its first label has no colon. */
  lemma {:induction false} Periodic(name: string, domain: string, k: nat, i: nat)
    requires ':' !in name && k < |domain| && i < |domain| && domain == name + "." + domain[..k]
    ensures domain[i] != ':'
    decreases i
  {
    var p := |name| + 1;
    if i < p {
      assert domain[i] == (name + ".")[i];
    } else {
      assert domain[i] == domain[..k][i - p] == domain[i - p];
      Periodic(name, domain, k, i - p);
    }
  }

  /** A request whose Host header is a claimed hostname, without port, goes to forwarding,
      whatever the configured domain. */
  lemma ClaimedIsForwarded(lower: Lowercase, domain: string, api: Option<string>, tcp: Option<string>,
                           blocklist: seq<string>, requested: string, name: string, path: string)
    requires Lawful(lower)
    requires var hs := NewHostnames(lower, domain, api, tcp, blocklist);
             SubdomainForForwarding(lower, hs, Some(requested)) == Label(name)
    ensures var hs := NewHostnames(lower, domain, api, tcp, blocklist);
            Route(hs, ClaimedHostname(hs, name), path) == Forwarding
  {
    var hs := NewHostnames(lower, domain, api, tcp, blocklist);
    var claimed := ClaimedHostname(hs, name);
    ClaimedIsNotReserved(lower, domain, api, tcp, blocklist, requested, name);
    AcceptedIsCanonical(lower, hs, requested, name);
    LabelIsAscii(name);
    WithoutPortCuts(claimed);
    var host := WithoutPort(claimed);
    if |host| < |claimed| {
      var k := |host| - |name| - 1;
      CutClaimed(name, domain, |host|);
      CutIsNotReserved(name, domain, k, hs.api);
      CutIsNotReserved(name, domain, k, "");
    }
  }

  /** A colon in a claimed hostname is one of the domain. */
  lemma CutClaimed(name: string, domain: string, n: nat)
    requires domain != "" && ':' !in name && n < |name + "." + domain| && (name + "." + domain)[n] == ':'
    ensures n > |name| && n - |name| - 1 < |domain| && domain[n - |name| - 1] == ':'
    ensures (name + "." + domain)[..n] == name + "." + domain[..n - |name| - 1]
  {
    var full := name + "." + domain;
    assert (forall i :: 0 <= i < |name| ==> full[i] == name[i]) && full[|name|] == '.';
  }

  // ---------- the server's own TCP hostname

  /** Asking for the TCP hostname itself, with a port that may be asked for, is accepted
      exactly when no TCP subdomain is configured and the domain is in lower case: the
      request is stripped of the domain before it is compared with the full name. */
  lemma OwnTcpHostnameIff(lower: Lowercase, domain: string, api: Option<string>, tcp: Option<string>,
                          blocklist: seq<string>, port: nat)
    requires Lawful(lower)
    ensures var hs := NewHostnames(lower, domain, api, tcp, blocklist);
            ValidateOpen(lower, hs, Some(Address(Some(hs.tcpHostname), port))) == None
            <==> (port == 0 || port >= 1024) && hs.tcp == "" && lower(domain) == domain
  {
    var hs := NewHostnames(lower, domain, api, tcp, blocklist);
    NormalizedIffDomain(lower, hs, hs.tcpHostname);
    assert |"." + domain| == |domain| + 1;
    if hs.tcp != "" {
      Suffixed(hs.tcp, domain);
    }
  }

  /** Normalizing leaves a name as it is only if it is in lower case and not under the
      domain. */
  lemma NormalizedIffDomain(lower: Lowercase, hs: Hostnames, name: string)
    requires Lawful(lower)
    ensures NormalizedClientSubdomain(lower, hs, name) == name <==> lower(name) == name && !HasSuffix(name, "." + hs.domain)
  {
    var s, suffix := lower(name), "." + hs.domain;
    if HasSuffix(s, suffix) {
      SuffixSplits(s, suffix);
      DotsConcat(s[..|s| - |suffix|], suffix);
      DotsConcat(".", hs.domain);
      assert Dots(suffix) > 0;
    }
  }

  /** An instance: the address that the project's README gives as an example. */
  lemma ReadmeAddressRefused(lower: Lowercase)
    requires Lawful(lower)
    ensures var hs := NewHostnames(lower, "nport.io", None, Some("tcp"), []);
            && hs.tcpHostname == "tcp.nport.io"
            && ValidateOpen(lower, hs, Some(Address(Some("tcp.nport.io"), 9999))) == Some(HostNotAllowed)
  {
    var hs := NewHostnames(lower, "nport.io", None, Some("tcp"), []);
    LowerFixed("tcp");
    assert IsAscii("tcp");
    assert lower("tcp") == "tcp";
    assert "tcp" + "." + "nport.io" == "tcp.nport.io";
    OwnTcpHostnameIff(lower, "nport.io", None, Some("tcp"), [], 9999);
  }
}
