/** What the checks of module Subdomain come to, said of the strings themselves: which
    subdomain a request gets, which TCP addresses may be asked for, where a request is
    routed. */
module SubdomainLaws {
  import opened Text
  import opened Hostname
  import Addresses
  import opened Subdomain

  // ---------- subdomains

  /** One to 63 lower case letters, digits and hyphens, no hyphen at either end. */
  predicate IsLowerLabel(l: string) {
    && 1 <= |l| <= 63 && l[0] != '-' && l[|l| - 1] != '-'
    && forall i :: 0 <= i < |l| ==> 'a' <= l[i] <= 'z' || '0' <= l[i] <= '9' || l[i] == '-'
  }

  lemma LowerLabelIff(l: string)
    ensures IsLowerLabel(l) <==> IsValid(l) && '.' !in l && NoUpper(l)
  {
    if '.' !in l {
      SplitAlone(l, '.');
      assert Split(l, '.')[0] == l;
    }
    if IsValid(l) && '.' !in l && NoUpper(l) {
      assert !BadLabel(Split(l, '.')[0]);
      forall i | 0 <= i < |l| ensures 'a' <= l[i] <= 'z' || '0' <= l[i] <= '9' || l[i] == '-' {
        assert IsValidChar(l[i]);
      }
    }
  }

  /** The request, once in lower case, is the name or the name under the domain. */
  predicate Asks(low: string, name: string, domain: string) {
    low == name || low == name + "." + domain
  }

  /** Neither in use by the server nor blocked. */
  predicate IsFree(hs: Hostnames, name: string) {
    name != hs.api && name != hs.tcp && name !in hs.blocklist
  }

  lemma AsksIff(lower: Lowercase, hs: Hostnames, requested: string, name: string)
    requires Subdomain.Lawful(lower) && '.' !in name
    ensures Asks(lower(requested), name, hs.domain) <==> NormalizedClientSubdomain(lower, hs, requested) == name
  {
    var low := lower(requested);
    StrippedIff(low, hs.domain, name);
    if HasSuffix(low, "." + hs.domain) {
      SuffixHasDot(low, hs.domain);
    }
  }

  lemma FreeIff(lower: Lowercase, hs: Hostnames, name: string)
    requires Subdomain.Lawful(lower) && IsLowerLabel(name)
    ensures IsFree(hs, name) <==> !IsSubdomainUsed(lower, hs, name) && !IsSubdomainBlocked(lower, hs, name)
  {
    LowerLabelIff(name);
    LabelIsAscii(name);
    LowerFixed(name);
  }

  /** Which subdomain a request gets. A name is granted exactly if it is a lower case label,
      is asked for and is free; a label that is asked for and not free is disallowed; when no
      label is asked for the request is invalid. */
  lemma SubdomainIff(lower: Lowercase, hs: Hostnames, requested: string)
    requires Subdomain.Lawful(lower) && requested != ""
    ensures var answer, low := SubdomainForForwarding(lower, hs, Some(requested)), lower(requested);
            && (forall name :: answer == Label(name) <==> IsLowerLabel(name) && Asks(low, name, hs.domain) && IsFree(hs, name))
            && (answer == Disallowed <==> exists name :: IsLowerLabel(name) && Asks(low, name, hs.domain) && !IsFree(hs, name))
            && (answer == Invalid <==> forall name :: IsLowerLabel(name) ==> !Asks(low, name, hs.domain))
  {
    var n := NormalizedClientSubdomain(lower, hs, requested);
    NormalizedNoUpper(lower, hs, requested);
    LowerLabelIff(n);
    forall name | IsLowerLabel(name) ensures Asks(lower(requested), name, hs.domain) <==> n == name {
      LowerLabelIff(name);
      AsksIff(lower, hs, requested, name);
    }
    if IsLowerLabel(n) {
      FreeIff(lower, hs, n);
    }
  }

  /** Any name is generated exactly when none is requested. */
  lemma AnyIff(lower: Lowercase, hs: Hostnames, requested: Option<string>)
    ensures SubdomainForForwarding(lower, hs, requested) == Any <==> requested == None || requested == Some("")
  {
  }

  /** What the server is configured with. */
  lemma Configured(lower: Lowercase, domain: string, api: Option<string>, tcp: Option<string>, blocklist: seq<string>)
    ensures var hs := NewHostnames(lower, domain, api, tcp, blocklist);
            && hs.domain == domain
            && hs.api == lower(if api.Some? then api.value else "") && hs.tcp == lower(if tcp.Some? then tcp.value else "")
            && hs.apiHostname == (if hs.api == "" then domain else hs.api + "." + domain)
            && hs.tcpHostname == (if hs.tcp == "" then domain else hs.tcp + "." + domain)
            && (forall b :: b in hs.blocklist <==> exists i :: 0 <= i < |blocklist| && lower(blocklist[i]) == b)
  {
    var hs := NewHostnames(lower, domain, api, tcp, blocklist);
    forall i | 0 <= i < |blocklist| ensures lower(blocklist[i]) in hs.blocklist {
      assert hs.blocklist[i] == lower(blocklist[i]);
    }
  }

  // ---------- TCP addresses

  /** The host names the TCP hostname: it comes down to it once it is in lower case and, if
      it is under the domain, stripped of it. */
  ghost predicate NamesTcp(lower: Lowercase, hs: Hostnames, host: string) {
    || lower(host) == hs.tcpHostname + "." + hs.domain
    || (lower(host) == hs.tcpHostname && forall p: string :: lower(host) != p + "." + hs.domain)
  }

  lemma NamesTcpIff(lower: Lowercase, hs: Hostnames, host: string)
    ensures NamesTcp(lower, hs, host) <==> NormalizedClientSubdomain(lower, hs, host) == hs.tcpHostname
  {
    var low, suffix := lower(host), "." + hs.domain;
    if HasSuffix(low, suffix) {
      var p := low[..|low| - |suffix|];
      SuffixSplits(low, suffix);
      assert low == p + "." + hs.domain;
      Suffixed(hs.tcpHostname, hs.domain);
    } else {
      forall p: string ensures low != p + "." + hs.domain {
        Suffixed(p, hs.domain);
      }
    }
  }

  /** Which addresses a client may ask for: not a port from 1 to 1023, whatever the host; no
      host but the server's for TCP. */
  lemma ValidateOpenIff(lower: Lowercase, hs: Hostnames, remote: Option<Addresses.Address>)
    ensures var error := ValidateOpen(lower, hs, remote);
            && (error == Some(PortNotAllowed) <==> remote.Some? && 1 <= remote.value.port <= 1023)
            && (error == Some(HostNotAllowed) <==>
                  remote.Some? && !(1 <= remote.value.port <= 1023)
                  && remote.value.host.Some? && !NamesTcp(lower, hs, remote.value.host.value))
            && error != Some(InUse)
  {
    if remote.Some? && remote.value.host.Some? {
      NamesTcpIff(lower, hs, remote.value.host.value);
    }
  }

  // ---------- routing

  /** A Host header names a host, with or without a port. */
  predicate IsHostHeader(header: string, host: string) {
    && ':' !in host
    && |host| <= |header| && header[..|host|] == host
    && (|host| == |header| || (header[|host|] == ':' && ':' !in header[|host| + 1..]))
  }

  lemma {:induction false} HostOfHeader(header: string, host: string)
    requires IsHostHeader(header, host)
    ensures WithoutPort(header) == host
    decreases |header|
  {
    WithoutPortCuts(header);
    if |host| < |header| && header[|header| - 1] != ':' {
      var init := header[..|header| - 1];
      assert init[..|host|] == host && init[|host|] == ':';
      assert init[|host| + 1..] == header[|host| + 1..][..|init| - |host| - 1];
      HostOfHeader(init, host);
    }
  }

  /** Where a request goes, by the host its header names: to the API only on the path np
      connects to, else to the main site on the apex domain, else to forwarding. */
  lemma RouteIff(hs: Hostnames, header: string, host: string, path: string)
    requires IsHostHeader(header, host)
    ensures Route(hs, header, path) == Api <==> host == hs.apiHostname && path == "/v1/connect"
    ensures Route(hs, header, path) == Main <==> host == hs.domain && !(host == hs.apiHostname && path == "/v1/connect")
    ensures Route(hs, header, path) == Forwarding <==> host != hs.domain && !(host == hs.apiHostname && path == "/v1/connect")
  {
    HostOfHeader(header, host);
  }

  /** Lowering ASCII, letter by letter. */
  lemma LowerExample()
    ensures AsciiLower("Tcp.Nport-IO_AZ@[09") == "tcp.nport-io_az@[09"
  {
  }
}
