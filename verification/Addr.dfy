/** `libnp::Addr`: a host and a port, its text form and the keys built from it. */
module Addresses {
  import opened Text

  const DEFAULT_ADDR_HOST := "127.0.0.1"
  const LOCALHOST := "localhost"

  type Port = p: nat | p < 0x1_0000
  type Octet = o: nat | o < 0x100
  type Ip6 = n: nat | n < 0x1_0000_0000_0000_0000_0000_0000_0000_0000

  datatype Ip4 = Ip4(a: Octet, b: Octet, c: Octet, d: Octet)

  datatype Addr = Addr(host: Option<string>, port: Port)

  /** An address inside a websocket message; ports are 32 bits wide there. */
  datatype Address = Address(host: Option<string>, port: nat)

  function ToAddress(a: Addr): Address {
    Address(a.host, a.port)
  }

  function FromAddress(a: Address): Addr {
    Addr(a.host, a.port % 0x1_0000)
  }

  /** The text of IPv6 addresses, which the standard library parses and prints
      (canonical text: section 4 of RFC 5952). */
  datatype Ip6Text = Ip6Text(parse: string -> Option<Ip6>, print6: Ip6 -> string)

  ghost predicate Lawful(ip6: Ip6Text) {
    && (forall ip: Ip6 :: ip6.parse(ip6.print6(ip)) == Some(ip))
    && (forall s :: ip6.parse(s).Some? ==> ':' in s && ']' !in s && '%' !in s)
  }

  // ---------- standard library: IPv4 text, port numbers, socket addresses

  predicate IsOctet(s: string) {
    Canonical(s) && |s| <= 3 && Value(s) < 0x100
  }

  function ParseIp4(s: string): Option<Ip4> {
    var parts := Split(s, '.');
    if |parts| == 4 && IsOctet(parts[0]) && IsOctet(parts[1]) && IsOctet(parts[2]) && IsOctet(parts[3])
    then Some(Ip4(Value(parts[0]), Value(parts[1]), Value(parts[2]), Value(parts[3])))
    else None
  }

  function PrintIp4(ip: Ip4): string {
    Join([Decimal(ip.a), Decimal(ip.b), Decimal(ip.c), Decimal(ip.d)], '.')
  }

  /** The port of a socket address: digits only, leading zeros allowed. */
  function ParsePortDigits(s: string): Option<Port> {
    if s != [] && AllDigits(s) && Value(s) < 0x1_0000 then Some(Value(s)) else None
  }

  /** `u16::from_str`: as above, after an optional plus sign. */
  function ParseU16(s: string): Option<Port> {
    ParsePortDigits(if s != [] && s[0] == '+' then s[1..] else s)
  }

  datatype Ip = V4(ip4: Ip4) | V6(ip6: Ip6)

  function ParseIp(text: Ip6Text, s: string): Option<Ip> {
    if ParseIp4(s).Some? then Some(V4(ParseIp4(s).value))
    else if text.parse(s).Some? then Some(V6(text.parse(s).value))
    else None
  }

  function PrintIp(text: Ip6Text, ip: Ip): string {
    match ip
    case V4(v) => PrintIp4(v)
    case V6(v) => text.print6(v)
  }

  /** The address between brackets, which may name a scope after a percent sign. */
  function ParseScoped(text: Ip6Text, s: string): Option<Ip6> {
    var parts := Split(s, '%');
    if |parts| == 1 then text.parse(s)
    else if |parts| == 2 && parts[1] != [] && AllDigits(parts[1]) && Value(parts[1]) < 0x1_0000_0000
    then text.parse(parts[0])
    else None
  }

  function ParseSocketAddr(text: Ip6Text, s: string): Option<(Ip, Port)> {
    var colon := Split(s, ':');
    var bracket := Split(s, ']');
    if |colon| == 2 && ParseIp4(colon[0]).Some? && ParsePortDigits(colon[1]).Some? then
      Some((V4(ParseIp4(colon[0]).value), ParsePortDigits(colon[1]).value))
    else if |bracket| == 2 && "[" <= bracket[0] && ":" <= bracket[1]
            && ParseScoped(text, bracket[0][1..]).Some? && ParsePortDigits(bracket[1][1..]).Some? then
      Some((V6(ParseScoped(text, bracket[0][1..]).value), ParsePortDigits(bracket[1][1..]).value))
    else None
  }

  // ---------- libnp

  predicate IsLoopbackIp(ip: Ip) {
    match ip
    case V4(v) => v.a == 127
    case V6(v) => v == 1
  }

  predicate IsLoopback(text: Ip6Text, s: string) {
    ParseIp(text, s).Some? && IsLoopbackIp(ParseIp(text, s).value)
  }

  function FromHostAndPort(text: Ip6Text, host: string, port: Port): Addr {
    Addr(if host == "" || host == LOCALHOST || IsLoopback(text, host) then None else Some(host), port)
  }

  function FromSocketAddr(text: Ip6Text, ip: Ip, port: Port): Addr {
    FromHostAndPort(text, PrintIp(text, ip), port)
  }

  function ParseHostname(text: Ip6Text, s: string): Option<Addr> {
    var parts := Split(s, ':');
    if |parts| == 2 && ParseU16(parts[1]).Some?
    then Some(FromHostAndPort(text, parts[0], ParseU16(parts[1]).value))
    else None
  }

  function Parse(text: Ip6Text, s: string): Option<Addr> {
    match ParseSocketAddr(text, s)
    case Some((ip, port)) => Some(FromSocketAddr(text, ip, port))
    case None => ParseHostname(text, s)
  }

  function HostText(a: Addr): string {
    if a.host.Some? then a.host.value else DEFAULT_ADDR_HOST
  }

  function Bracketed(host: string): string {
    if ':' in host then "[" + host + "]" else host
  }

  function Print(a: Addr): string {
    Bracketed(HostText(a)) + ":" + Decimal(a.port)
  }

  /** Key of a TCP forwarding; TCP is the only protocol. */
  function PortOrigin(a: Addr): string {
    "tcp://" + Print(a)
  }

  // ---------- which addresses are in normal form

  /** Guards that `FromHostAndPort` and the parsers test on a host. */
  predicate Normal(text: Ip6Text, a: Addr) {
    match a.host
    case None => true
    case Some(h) =>
      && h != "" && h != LOCALHOST && !IsLoopback(text, h)
      && (':' in h ==> text.parse(h).Some? && text.print6(text.parse(h).value) == h)
  }

  /** IPv4 text has one spelling. */
  lemma Ip4Canonical(s: string)
    requires ParseIp4(s).Some?
    ensures PrintIp4(ParseIp4(s).value) == s
  {
    var p := Split(s, '.');
    JoinOfSplit(s, '.');
    forall i | 0 <= i < 4 ensures Decimal(Value(p[i])) == p[i] {
      DecimalOfValue(p[i]);
    }
    assert p == [p[0], p[1], p[2], p[3]];
  }

  lemma Ip4HasNoLetters(s: string)
    requires ParseIp4(s).Some?
    ensures forall c :: c in s ==> IsDigit(c) || c == '.'
  {
    JoinOfSplit(s, '.');
    forall c | c in s && c != '.' ensures IsDigit(c) {
      JoinHasPart(Split(s, '.'), '.', c);
    }
  }

  lemma Ip4NotSpecial(s: string)
    requires ParseIp4(s).Some?
    ensures ':' !in s && s != "" && s != LOCALHOST
  {
    Ip4HasNoLetters(s);
    assert 'l' in LOCALHOST by { assert LOCALHOST[0] == 'l'; }
  }

  lemma DecimalIsPort(p: Port)
    ensures ParsePortDigits(Decimal(p)) == Some(p) && ParseU16(Decimal(p)) == Some(p)
    ensures forall c :: c in Decimal(p) ==> IsDigit(c)
  {
    ValueOfDecimal(p);
  }

  lemma SocketAddrNormal(text: Ip6Text, s: string)
    requires Lawful(text) && ParseSocketAddr(text, s).Some?
    ensures var (ip, port) := ParseSocketAddr(text, s).value; Normal(text, FromSocketAddr(text, ip, port))
  {
    var (ip, port) := ParseSocketAddr(text, s).value;
    match ip
    case V4(_) =>
      Ip4Canonical(Split(s, ':')[0]);
      Ip4NotSpecial(Split(s, ':')[0]);
    case V6(v) => assert text.parse(text.print6(v)) == Some(v);
  }

  /** Every parsed address is in normal form. */
  lemma ParseNormal(text: Ip6Text, s: string)
    requires Lawful(text) && Parse(text, s).Some?
    ensures Normal(text, Parse(text, s).value)
  {
    if ParseSocketAddr(text, s).Some? {
      SocketAddrNormal(text, s);
    } else {
      JoinOfSplit(s, ':');
    }
  }

  // ---------- printing, then parsing

  lemma OnlySeparator(x: string, y: string, sep: char, k: nat)
    requires sep !in x && sep !in y && k < |x + [sep] + y| && (x + [sep] + y)[k] == sep
    ensures k == |x|
  {
  }

  lemma TwoSeparators(s: string, sep: char, i: nat, j: nat)
    requires i < j < |s| && s[i] == sep == s[j]
    ensures |Split(s, sep)| > 2
  {
    JoinOfSplit(s, sep);
    var p := Split(s, sep);
    if |p| == 2 {
      assert s == p[0] + [sep] + p[1];
      OnlySeparator(p[0], p[1], sep, i);
      OnlySeparator(p[0], p[1], sep, j);
    }
  }

  lemma ScopedHasColon(text: Ip6Text, s: string)
    requires Lawful(text) && ParseScoped(text, s).Some?
    ensures ':' in s
  {
    JoinOfSplit(s, '%');
    var p := Split(s, '%');
    if |p| == 2 {
      assert s == p[0] + ['%'] + p[1];
    }
  }

  /** With one colon only, brackets around the host do not make it a socket address. */
  lemma NotBracketed(text: Ip6Text, h: string, d: string)
    requires Lawful(text) && ':' !in h && ':' !in d && ParseIp4(h) == None
    ensures ParseSocketAddr(text, h + ":" + d) == None
  {
    var s := h + ":" + d;
    SplitOfPair(h, d, ':');
    var bracket := Split(s, ']');
    if |bracket| == 2 && "[" <= bracket[0] && ":" <= bracket[1] && ParseScoped(text, bracket[0][1..]).Some? {
      ScopedHasColon(text, bracket[0][1..]);
      JoinOfSplit(s, ']');
      assert s == bracket[0] + "]" + bracket[1];
      var i :| 0 <= i < |bracket[0][1..]| && bracket[0][1..][i] == ':';
      TwoSeparators(s, ':', i + 1, |bracket[0]| + 1);
    }
  }

  lemma PlainHost(text: Ip6Text, h: string, p: Port)
    requires Lawful(text) && ':' !in h
    ensures Parse(text, h + ":" + Decimal(p)) == Some(FromHostAndPort(text, h, p))
  {
    DecimalIsPort(p);
    SplitOfPair(h, Decimal(p), ':');
    if ParseIp4(h).Some? {
      Ip4Canonical(h);
    } else {
      NotBracketed(text, h, Decimal(p));
    }
  }

  /** Brackets around a host that has a colon: only a socket address can parse. */
  lemma ColonHost(text: Ip6Text, h: string, p: Port)
    requires Lawful(text) && ':' in h
    ensures var s := "[" + h + "]" + ":" + Decimal(p);
            Parse(text, s) == if ']' !in h && ParseScoped(text, h).Some?
                              then Some(FromHostAndPort(text, text.print6(ParseScoped(text, h).value), p)) else None
  {
    var s := "[" + h + "]" + ":" + Decimal(p);
    assert |Split(s, ':')| > 2 by {
      var i :| 0 <= i < |h| && h[i] == ':';
      assert s[i + 1] == ':' && s[|h| + 2] == ':';
      TwoSeparators(s, ':', i + 1, |h| + 2);
    }
    DecimalIsPort(p);
    assert ']' !in Decimal(p);
    InBrackets(h, Decimal(p));
  }

  lemma InBrackets(h: string, d: string)
    requires ']' !in d
    ensures var bracket := Split("[" + h + "]" + ":" + d, ']');
            if ']' in h then |bracket| > 2
            else |bracket| == 2 && "[" <= bracket[0] && bracket[0][1..] == h && ":" <= bracket[1] && bracket[1][1..] == d
  {
    var s := "[" + h + "]" + ":" + d;
    assert s == ("[" + h) + "]" + (":" + d);
    if ']' in h {
      var j :| 0 <= j < |h| && h[j] == ']';
      assert s[j + 1] == ']' && s[|h| + 1] == ']';
      TwoSeparators(s, ']', j + 1, |h| + 1);
    } else {
      SplitOfPair("[" + h, ":" + d, ']');
    }
  }

  lemma ScopedIsPlain(text: Ip6Text, h: string)
    requires Lawful(text) && text.parse(h).Some?
    ensures ']' !in h && ParseScoped(text, h) == text.parse(h)
  {
    SplitAlone(h, '%');
  }

  lemma DefaultParts()
    ensures Split(DEFAULT_ADDR_HOST, '.') == ["127", "0", "0", "1"]
  {
    var octets := ["127", "0", "0", "1"];
    assert octets[1..] == ["0", "0", "1"] && octets[2..] == ["0", "1"] && octets[3..] == ["1"];
    assert octets[1..][1..] == octets[2..] && octets[2..][1..] == octets[3..];
    assert Join(octets, '.') == DEFAULT_ADDR_HOST;
    SplitOfJoin(octets, '.');
  }

  lemma DefaultOctets()
    ensures IsOctet("127") && Value("127") == 127 && IsOctet("0") && Value("0") == 0 && IsOctet("1") && Value("1") == 1
  {
    assert Decimal(12) == "12";
    assert Decimal(127) == "127" && Decimal(0) == "0" && Decimal(1) == "1";
    ValueOfDecimal(127);
    ValueOfDecimal(0);
    ValueOfDecimal(1);
  }

  lemma DefaultHost(text: Ip6Text, p: Port)
    ensures FromHostAndPort(text, DEFAULT_ADDR_HOST, p) == Addr(None, p)
  {
    DefaultParts();
    DefaultOctets();
  }

  /** The text of an address is a normal form: printing, then parsing, gives the address
      back exactly when it is in normal form. */
  lemma RoundTrip(text: Ip6Text, a: Addr)
    requires Lawful(text)
    ensures Parse(text, Print(a)) == Some(a) <==> Normal(text, a)
  {
    var h := HostText(a);
    if ':' !in h {
      PlainHost(text, h, a.port);
      DefaultHost(text, a.port);
    } else {
      ColonHost(text, h, a.port);
      assert Print(a) == "[" + h + "]" + ":" + Decimal(a.port);
      if text.parse(h).Some? {
        ScopedIsPlain(text, h);
      } else if ']' !in h && ParseScoped(text, h).Some? {
        var ip := ParseScoped(text, h).value;
        assert text.parse(text.print6(ip)) == Some(ip);
        assert text.print6(ip) != h;
      }
    }
  }

  /** Whatever a string parses to prints to a string that parses to it again. */
  lemma ParseThenPrint(text: Ip6Text, s: string)
    requires Lawful(text) && Parse(text, s).Some?
    ensures Parse(text, Print(Parse(text, s).value)) == Parse(text, s)
  {
    ParseNormal(text, s);
    RoundTrip(text, Parse(text, s).value);
  }

  // ---------- equal texts

  /** Without a host, an address prints as 127.0.0.1; otherwise the text tells all. */
  lemma SameText(a: Addr, b: Addr)
    ensures Print(a) == Print(b) <==> HostText(a) == HostText(b) && a.port == b.port
  {
    if Print(a) == Print(b) {
      DecimalIsPort(a.port);
      DecimalIsPort(b.port);
      LastColon(Bracketed(HostText(a)), Decimal(a.port), Bracketed(HostText(b)), Decimal(b.port));
      DecimalInjective(a.port, b.port);
      SameBracketed(HostText(a), HostText(b));
    }
  }

  lemma SameBracketed(g: string, h: string)
    requires Bracketed(g) == Bracketed(h)
    ensures g == h
  {
    assert ':' in g <==> ':' in Bracketed(g);
    assert ':' in h <==> ':' in Bracketed(h);
    if ':' in g {
      assert g == Bracketed(g)[1..|g| + 1] && h == Bracketed(h)[1..|h| + 1];
    }
  }

  lemma LastColon(x: string, d: string, y: string, e: string)
    requires x + ":" + d == y + ":" + e
    requires ':' !in d && ':' !in e
    ensures x == y && d == e
  {
    var s := x + ":" + d;
    assert s[|x|] == ':' && s[|y|] == ':';
    assert forall k :: |x| < k < |s| ==> s[k] == d[k - |x| - 1];
    assert forall k :: |y| < k < |s| ==> s[k] == e[k - |y| - 1];
    assert x == s[..|x|] && y == s[..|y|];
    assert d == s[|x| + 1..] && e == s[|y| + 1..];
  }

  /** Two parsed addresses print alike only if they are equal. */
  lemma ParsedPrintApart(text: Ip6Text, s: string, t: string)
    requires Lawful(text) && Parse(text, s).Some? && Parse(text, t).Some?
    ensures Print(Parse(text, s).value) == Print(Parse(text, t).value) <==> Parse(text, s) == Parse(text, t)
  {
    ParseThenPrint(text, s);
    ParseThenPrint(text, t);
  }

  /** Keys of TCP forwardings are equal exactly for addresses that print alike. */
  lemma SameOrigin(a: Addr, b: Addr)
    ensures PortOrigin(a) == PortOrigin(b) <==> HostText(a) == HostText(b) && a.port == b.port
  {
    SameText(a, b);
    assert PortOrigin(a)[6..] == Print(a) && PortOrigin(b)[6..] == Print(b);
  }
}
