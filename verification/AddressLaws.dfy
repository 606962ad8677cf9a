/** What addresses look like as text, said of the strings themselves: which strings parse,
    to what, and which hosts stand for this machine. */
module AddressLaws {
  import opened Text
  import opened Addresses

  // ---------- numbers

  function Zeros(k: nat): string {
    seq(k, i => '0')
  }

  /** The decimal text of `n`, with any number of zeros before it. */
  ghost predicate IsNumeral(d: string, n: nat) {
    exists k: nat :: d == Zeros(k) + Decimal(n)
  }

  lemma {:induction false} ValueOfZeros(k: nat, n: nat)
    ensures AllDigits(Zeros(k) + Decimal(n)) && Value(Zeros(k) + Decimal(n)) == n
    decreases n
  {
    var s := Zeros(k) + Decimal(n);
    ValueOfDecimal(n);
    assert AllDigits(s);
    if n < 10 {
      assert s[..|s| - 1] == Zeros(k);
      ZerosAreZero(k);
    } else {
      assert s[..|s| - 1] == Zeros(k) + Decimal(n / 10);
      ValueOfZeros(k, n / 10);
    }
  }

  lemma {:induction false} ZerosAreZero(k: nat)
    ensures AllDigits(Zeros(k)) && Value(Zeros(k)) == 0
  {
    if k > 0 {
      assert Zeros(k)[..k - 1] == Zeros(k - 1);
      ZerosAreZero(k - 1);
    }
  }

  lemma {:induction false} ZeroInFront(s: string)
    requires s != "" && AllDigits(s) && s[0] == '0'
    ensures AllDigits(s[1..]) && Value(s[1..]) == Value(s)
    decreases |s|
  {
    if |s| > 1 {
      var init := s[..|s| - 1];
      ZeroInFront(init);
      assert s[1..][..|s| - 2] == init[1..];
    }
  }

  lemma {:induction false} DigitsAreNumeral(d: string)
    requires d != "" && AllDigits(d)
    ensures IsNumeral(d, Value(d))
    decreases |d|
  {
    if |d| > 1 && d[0] == '0' {
      ZeroInFront(d);
      DigitsAreNumeral(d[1..]);
      var k: nat :| d[1..] == Zeros(k) + Decimal(Value(d));
      assert d == Zeros(k + 1) + Decimal(Value(d));
    } else {
      DecimalOfValue(d);
      assert d == Zeros(0) + Decimal(Value(d));
    }
  }

  lemma NumeralIff(d: string, n: nat)
    ensures IsNumeral(d, n) <==> d != "" && AllDigits(d) && Value(d) == n
  {
    if IsNumeral(d, n) {
      var k: nat :| d == Zeros(k) + Decimal(n);
      ValueOfZeros(k, n);
    }
    if d != "" && AllDigits(d) {
      DigitsAreNumeral(d);
    }
  }

  /** A port: a numeral, after a plus sign or not. */
  ghost predicate IsPortText(d: string, p: Port) {
    IsNumeral(d, p) || (d != "" && d[0] == '+' && IsNumeral(d[1..], p))
  }

  lemma PortTextIff(d: string, p: Port)
    ensures ParsePortDigits(d) == Some(p) <==> IsNumeral(d, p)
    ensures ParseU16(d) == Some(p) <==> IsPortText(d, p)
  {
    NumeralIff(d, p);
    if d != "" {
      NumeralIff(d[1..], p);
    }
  }

  // ---------- hosts that stand for this machine

  lemma OctetText(o: Octet)
    ensures IsOctet(Decimal(o)) && Value(Decimal(o)) == o
  {
    ValueOfDecimal(o);
    assert o < 10 || |Decimal(o / 10)| <= 2;
  }

  function Dotted(a: Octet, b: Octet, c: Octet, d: Octet): string {
    Decimal(a) + "." + Decimal(b) + "." + Decimal(c) + "." + Decimal(d)
  }

  lemma Ip4Iff(h: string, a: Octet, b: Octet, c: Octet, d: Octet)
    ensures ParseIp4(h) == Some(Ip4(a, b, c, d)) <==> h == Dotted(a, b, c, d)
  {
    var parts := [Decimal(a), Decimal(b), Decimal(c), Decimal(d)];
    OctetText(a);
    OctetText(b);
    OctetText(c);
    OctetText(d);
    assert NoneHas(parts, '.');
    JoinFour(parts);
    if h == Dotted(a, b, c, d) {
      SplitOfJoin(parts, '.');
    }
    if ParseIp4(h) == Some(Ip4(a, b, c, d)) {
      Ip4Canonical(h);
    }
  }

  lemma JoinFour(parts: seq<string>)
    requires |parts| == 4
    ensures Join(parts, '.') == parts[0] + "." + parts[1] + "." + parts[2] + "." + parts[3]
  {
    JoinTwo(parts[2..]);
    assert parts[1..][1..] == parts[2..];
    assert Join(parts[1..], '.') == parts[1] + "." + (parts[2] + "." + parts[3]);
  }

  lemma JoinTwo(parts: seq<string>)
    requires |parts| == 2
    ensures Join(parts, '.') == parts[0] + "." + parts[1]
  {
    assert parts[1..] == [parts[1]];
  }

  /** Nothing, the name localhost, an address from 127.0.0.0 to 127.255.255.255, or any text
      of the IPv6 address 1. */
  ghost predicate IsHere(text: Ip6Text, h: string) {
    || h == "" || h == "localhost"
    || (exists b: Octet, c: Octet, d: Octet :: h == Dotted(127, b, c, d))
    || text.parse(h) == Some(1)
  }

  /** A host is dropped exactly if it stands for this machine. */
  lemma HereIff(text: Ip6Text, h: string, p: Port)
    requires Lawful(text)
    ensures FromHostAndPort(text, h, p) == Addr(if IsHere(text, h) then None else Some(h), p)
  {
    if ParseIp4(h).Some? {
      var ip := ParseIp4(h).value;
      Ip4NotSpecial(h);
      Ip4Iff(h, ip.a, ip.b, ip.c, ip.d);
      assert text.parse(h) == None;
      forall b: Octet, c: Octet, d: Octet | h == Dotted(127, b, c, d) ensures ip.a == 127 {
        Ip4Iff(h, 127, b, c, d);
      }
    } else {
      forall b: Octet, c: Octet, d: Octet ensures h != Dotted(127, b, c, d) {
        Ip4Iff(h, 127, b, c, d);
      }
    }
  }

  // ---------- which strings parse, and to what

  /** The text of an IPv6 address, after which a scope may be named. */
  ghost predicate IsScoped(text: Ip6Text, i: string, ip: Ip6) {
    || text.parse(i) == Some(ip)
    || exists j: string, z: string, n: nat :: i == j + "%" + z && text.parse(j) == Some(ip) && n < 0x1_0000_0000 && IsNumeral(z, n)
  }

  lemma NumeralHas(d: string, n: nat, c: char)
    requires IsNumeral(d, n) && !IsDigit(c)
    ensures c !in d
  {
    NumeralIff(d, n);
  }

  lemma ScopedIff(text: Ip6Text, i: string, ip: Ip6)
    requires Lawful(text)
    ensures ParseScoped(text, i) == Some(ip) <==> IsScoped(text, i, ip)
  {
    if IsScoped(text, i, ip) {
      if text.parse(i) == Some(ip) {
        ScopedIsPlain(text, i);
      } else {
        var j, z, n :| i == j + "%" + z && text.parse(j) == Some(ip) && n < 0x1_0000_0000 && IsNumeral(z, n);
        NumeralIff(z, n);
        SplitOfPair(j, z, '%');
      }
    }
    if ParseScoped(text, i) == Some(ip) {
      JoinOfSplit(i, '%');
      var parts := Split(i, '%');
      if |parts| == 2 {
        assert i == parts[0] + "%" + parts[1];
        NumeralIff(parts[1], Value(parts[1]));
      }
    }
  }

  lemma ScopedHas(text: Ip6Text, i: string, ip: Ip6)
    requires Lawful(text) && IsScoped(text, i, ip)
    ensures ':' in i && ']' !in i
  {
    if text.parse(i) != Some(ip) {
      var j, z, n :| i == j + "%" + z && text.parse(j) == Some(ip) && n < 0x1_0000_0000 && IsNumeral(z, n);
      NumeralHas(z, n, ']');
      assert ':' in j && ']' !in j;
    }
  }

  /** `s` is a host without a colon, a colon and a port. */
  ghost predicate IsPlain(text: Ip6Text, s: string, a: Addr) {
    exists h: string, d: string ::
      s == h + ":" + d && ':' !in h && IsPortText(d, a.port) && a.host == if IsHere(text, h) then None else Some(h)
  }

  /** `s` is an IPv6 address in brackets, a colon and a port. */
  ghost predicate IsBracketed(text: Ip6Text, s: string, a: Addr) {
    exists i: string, d: string, ip: Ip6 ::
      s == "[" + i + "]" + ":" + d && IsScoped(text, i, ip) && IsNumeral(d, a.port)
      && a.host == if ip == 1 then None else Some(text.print6(ip))
  }

  lemma PortTextHas(d: string, p: Port)
    requires IsPortText(d, p)
    ensures ':' !in d
  {
    if IsNumeral(d, p) {
      NumeralHas(d, p, ':');
    } else {
      NumeralHas(d[1..], p, ':');
      assert d == ['+'] + d[1..];
    }
  }

  lemma PlainParses(text: Ip6Text, s: string, h: string, d: string, p: Port)
    requires Lawful(text) && s == h + ":" + d && ':' !in h && IsPortText(d, p)
    ensures Parse(text, s) == Some(FromHostAndPort(text, h, p))
  {
    PortTextHas(d, p);
    PortTextIff(d, p);
    SplitOfPair(h, d, ':');
    if ParseIp4(h).Some? {
      Ip4Canonical(h);
      assert ParsePortDigits(d).Some? ==> ParseU16(d) == ParsePortDigits(d);
      NoBracket(h, d);
    } else {
      NotBracketed(text, h, d);
    }
  }

  /** An IPv4 address has no bracket. */
  lemma NoBracket(h: string, d: string)
    requires ParseIp4(h).Some?
    ensures !("[" <= Split(h + ":" + d, ']')[0])
  {
    Ip4HasNoLetters(h);
    Ip4NotSpecial(h);
    var s := h + ":" + d;
    JoinOfSplit(s, ']');
    assert s[0] == h[0] && h[0] in h;
    assert s[0] != '[';
    var parts := Split(s, ']');
    assert parts[0] == "" || Join(parts, ']')[0] == parts[0][0];
  }

  lemma BracketedParses(text: Ip6Text, s: string, i: string, d: string, ip: Ip6, p: Port)
    requires Lawful(text) && s == "[" + i + "]" + ":" + d && IsScoped(text, i, ip) && IsNumeral(d, p)
    ensures Parse(text, s) == Some(Addr(if ip == 1 then None else Some(text.print6(ip)), p))
  {
    ScopedHas(text, i, ip);
    ScopedIff(text, i, ip);
    NumeralHas(d, p, ']');
    PortTextIff(d, p);
    InBrackets(i, d);
    assert |Split(s, ':')| > 2 by {
      var k :| 0 <= k < |i| && i[k] == ':';
      assert s[k + 1] == ':' && s[|i| + 2] == ':';
      TwoSeparators(s, ':', k + 1, |i| + 2);
    }
    Ip6Here(text, ip, p);
  }

  lemma Ip6Here(text: Ip6Text, ip: Ip6, p: Port)
    requires Lawful(text)
    ensures FromSocketAddr(text, V6(ip), p) == Addr(if ip == 1 then None else Some(text.print6(ip)), p)
  {
    var h := text.print6(ip);
    assert text.parse(h) == Some(ip) && ':' in h;
    assert ParseIp4(h) == None by {
      if ParseIp4(h).Some? { Ip4NotSpecial(h); }
    }
    assert ':' !in LOCALHOST;
  }

  lemma ParsesPlain(text: Ip6Text, s: string, h: string, d: string, p: Port)
    requires Lawful(text) && Split(s, ':') == [h, d] && ParseU16(d) == Some(p)
    ensures IsPlain(text, s, FromHostAndPort(text, h, p))
  {
    JoinOfSplit(s, ':');
    assert s == h + ":" + d;
    assert ':' !in Split(s, ':')[0];
    PortTextIff(d, p);
    HereIff(text, h, p);
  }

  lemma ParsesBracketed(text: Ip6Text, s: string, ip: Ip6, p: Port)
    requires Lawful(text) && ParseSocketAddr(text, s) == Some((V6(ip), p))
    ensures IsBracketed(text, s, FromSocketAddr(text, V6(ip), p))
  {
    JoinOfSplit(s, ']');
    var parts := Split(s, ']');
    var i, d := parts[0][1..], parts[1][1..];
    assert s == parts[0] + "]" + parts[1];
    assert parts[0] == "[" + i && parts[1] == ":" + d;
    assert s == "[" + i + "]" + ":" + d;
    ScopedIff(text, i, ip);
    PortTextIff(d, p);
    Ip6Here(text, ip, p);
  }

  lemma PlainGives(text: Ip6Text, s: string, a: Addr)
    requires Lawful(text) && IsPlain(text, s, a)
    ensures Parse(text, s) == Some(a)
  {
    var h, d :| s == h + ":" + d && ':' !in h && IsPortText(d, a.port) && a.host == if IsHere(text, h) then None else Some(h);
    PlainParses(text, s, h, d, a.port);
    HereIff(text, h, a.port);
  }

  lemma BracketedGives(text: Ip6Text, s: string, a: Addr)
    requires Lawful(text) && IsBracketed(text, s, a)
    ensures Parse(text, s) == Some(a)
  {
    var i, d, ip :| s == "[" + i + "]" + ":" + d && IsScoped(text, i, ip) && IsNumeral(d, a.port)
      && a.host == if ip == 1 then None else Some(text.print6(ip));
    BracketedParses(text, s, i, d, ip, a.port);
  }

  lemma ParseGives(text: Ip6Text, s: string, a: Addr)
    requires Lawful(text) && Parse(text, s) == Some(a)
    ensures IsPlain(text, s, a) || IsBracketed(text, s, a)
  {
    match ParseSocketAddr(text, s)
    case Some((V6(ip), p)) => ParsesBracketed(text, s, ip, p);
    case Some((V4(ip), p)) => ParsesIp4(text, s, ip, p);
    case None =>
      var parts := Split(s, ':');
      assert parts == [parts[0], parts[1]];
      ParsesPlain(text, s, parts[0], parts[1], a.port);
  }

  /** A string parses, to this address, exactly if it is a host without a colon or an IPv6
      address in brackets, then a colon and a port. Hosts that stand for this machine are
      dropped, other IPv6 addresses come out in their usual text. */
  lemma ParseIff(text: Ip6Text, s: string, a: Addr)
    requires Lawful(text)
    ensures Parse(text, s) == Some(a) <==> IsPlain(text, s, a) || IsBracketed(text, s, a)
  {
    if IsPlain(text, s, a) {
      PlainGives(text, s, a);
    } else if IsBracketed(text, s, a) {
      BracketedGives(text, s, a);
    } else if Parse(text, s) == Some(a) {
      ParseGives(text, s, a);
    }
  }

  lemma ParsesIp4(text: Ip6Text, s: string, ip: Ip4, p: Port)
    requires Lawful(text) && ParseSocketAddr(text, s) == Some((V4(ip), p))
    ensures IsPlain(text, s, FromSocketAddr(text, V4(ip), p))
  {
    var parts := Split(s, ':');
    assert parts == [parts[0], parts[1]];
    Ip4Canonical(parts[0]);
    PortTextIff(parts[1], p);
    ParsesPlain(text, s, parts[0], parts[1], p);
  }

  // ---------- addresses in messages

  /** An address survives the websocket; of a port of more than 16 bits the low 16 do. */
  lemma AddressSurvives(a: Addr, wire: Address)
    ensures FromAddress(ToAddress(a)) == a
    ensures FromAddress(wire).host == wire.host && (wire.port < 65536 ==> ToAddress(FromAddress(wire)) == wire)
    ensures exists k: nat :: wire.port == k * 65536 + FromAddress(wire).port
  {
    assert wire.port == (wire.port / 65536) * 65536 + FromAddress(wire).port;
  }

  /** The text of an address, and the key of a forwarding, letter by letter. */
  lemma PrintText(h: string, p: Port)
    ensures Print(Addr(None, p)) == "127.0.0.1:" + Decimal(p)
    ensures Print(Addr(Some(h), p)) == (if ':' in h then "[" + h + "]:" + Decimal(p) else h + ":" + Decimal(p))
    ensures PortOrigin(Addr(None, p)) == "tcp://127.0.0.1:" + Decimal(p)
    ensures PortOrigin(Addr(Some(h), p)) == "tcp://" + Print(Addr(Some(h), p))
  {
    assert ':' !in DEFAULT_ADDR_HOST;
    assert "127.0.0.1" + ":" + Decimal(p) == "127.0.0.1:" + Decimal(p);
    assert "[" + h + "]" + ":" + Decimal(p) == "[" + h + "]:" + Decimal(p);
  }

  /** Numbers are written in base ten. */
  lemma BaseTen()
    ensures Decimal(9075) == "9075" && Decimal(0) == "0" && Decimal(65536) == "65536"
  {
    assert Decimal(90) == "90" && Decimal(907) == "907";
    assert Decimal(65) == "65" && Decimal(655) == "655" && Decimal(6553) == "6553";
  }
}
