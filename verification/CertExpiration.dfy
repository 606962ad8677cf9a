/** Expiry of a chain of certificates that follow each other in one byte string. */
module Expiration {
  import opened Text

  type Time = int          // seconds since the epoch
  type Der = seq<bv8>

  /** `Date::MAX` at midnight, UTC: 9999-12-31. */
  const DATE_MAX: Time := 253402214400

  /** What parsing a certificate off the front gives: its `not_after` and the bytes left. */
  datatype Parsed = Failed | Cert(notAfter: Time, rest: Der)

  type Parser = Der -> Parsed

  /** A certificate takes at least a byte. */
  ghost predicate Consumes(parse: Parser) {
    forall d :: parse(d).Cert? ==> |parse(d).rest| < |d|
  }

  /** The expiries of all certificates in `der`, in order; none if a segment is no
      certificate. */
  ghost function Expiries(parse: Parser, der: Der): Option<seq<Time>>
    requires Consumes(parse)
    decreases |der|
  {
    match parse(der)
    case Failed => None
    case Cert(notAfter, rest) =>
      if rest == [] then Some([notAfter])
      else match Expiries(parse, rest)
           case None => None
           case Some(more) => Some([notAfter] + more)
  }

  /** After the first certificate of `der`, more bytes: `next`. */
  predicate Follows(parse: Parser, der: Der, next: Der) {
    parse(der).Cert? && parse(der).rest == next && next != []
  }

  /** `der` is certificates one after the other, from `ds[0]` on, with the expiries `ts`. */
  ghost predicate IsChain(parse: Parser, der: Der, ds: seq<Der>, ts: seq<Time>) {
    && ds != [] && ds[0] == der && |ts| == |ds|
    && (forall i :: 0 <= i < |ds| ==> parse(ds[i]).Cert? && parse(ds[i]).notAfter == ts[i])
    && (forall i, j :: 0 <= i && j == i + 1 < |ds| ==> Follows(parse, ds[i], ds[j]))
    && parse(ds[|ds| - 1]).rest == []
  }

  lemma {:induction false} ExpiriesOfChain(parse: Parser, der: Der, ds: seq<Der>, ts: seq<Time>)
    requires Consumes(parse) && IsChain(parse, der, ds, ts)
    ensures Expiries(parse, der) == Some(ts)
    decreases |ds|
  {
    if |ds| > 1 {
      assert Follows(parse, ds[0], ds[1]);
      var rest := ds[1..];
      forall i, j | 0 <= i && j == i + 1 < |rest| ensures Follows(parse, rest[i], rest[j]) {
        assert Follows(parse, ds[i + 1], ds[j + 1]);
      }
      ExpiriesOfChain(parse, ds[1], rest, ts[1..]);
      assert ts == [ts[0]] + ts[1..];
    } else {
      assert ts == [ts[0]];
    }
  }

  lemma {:induction false} ChainOfExpiries(parse: Parser, der: Der) returns (ds: seq<Der>)
    requires Consumes(parse) && Expiries(parse, der).Some?
    ensures IsChain(parse, der, ds, Expiries(parse, der).value)
    decreases |der|
  {
    var rest := parse(der).rest;
    if rest == [] {
      ds := [der];
    } else {
      var more := ChainOfExpiries(parse, rest);
      ds := [der] + more;
      forall i, j | 0 <= i && j == i + 1 < |ds| ensures Follows(parse, ds[i], ds[j]) {
        assert i > 0 ==> Follows(parse, more[i - 1], more[j - 1]);
      }
    }
  }

  /** 9999-12-31: 8029 years, 1947 leap days and 364 days after the first of January 1970. */
  lemma MaximumDate()
    ensures DATE_MAX == (8029 * 365 + 1947 + 364) * 24 * 60 * 60
  {
  }

  predicate Earliest(e: Time, ts: seq<Time>) {
    e <= DATE_MAX && (e == DATE_MAX || e in ts) && forall i :: 0 <= i < |ts| ==> e <= ts[i]
  }

  /** The certificates of `der` are those with the expiries `seen`, then those in `rem`. */
  ghost predicate Passed(parse: Parser, der: Der, seen: seq<Time>, rem: Der)
    requires Consumes(parse)
  {
    match Expiries(parse, rem)
    case None => Expiries(parse, der) == None
    case Some(more) => Expiries(parse, der) == Some(seen + more)
  }

  lemma PassOne(parse: Parser, der: Der, seen: seq<Time>, rem: Der)
    requires Consumes(parse) && Passed(parse, der, seen, rem) && parse(rem).Cert?
    ensures var Cert(t, rest) := parse(rem);
            if rest == [] then Expiries(parse, der) == Some(seen + [t])
            else Passed(parse, der, seen + [t], rest)
  {
    var Cert(t, rest) := parse(rem);
    if rest != [] && Expiries(parse, rest).Some? {
      var more := Expiries(parse, rest).value;
      assert seen + ([t] + more) == (seen + [t]) + more;
    }
  }

  lemma NonePassed(parse: Parser, der: Der)
    requires Consumes(parse)
    ensures Passed(parse, der, [], der)
  {
    if Expiries(parse, der).Some? {
      assert [] + Expiries(parse, der).value == Expiries(parse, der).value;
    }
  }

  lemma ChainsDecide(parse: Parser, der: Der)
    requires Consumes(parse)
    ensures forall ds, ts :: IsChain(parse, der, ds, ts) ==> Expiries(parse, der) == Some(ts)
    ensures Expiries(parse, der).Some? ==> exists ds, ts :: IsChain(parse, der, ds, ts)
  {
    forall ds, ts | IsChain(parse, der, ds, ts) ensures Expiries(parse, der) == Some(ts) {
      ExpiriesOfChain(parse, der, ds, ts);
    }
    if Expiries(parse, der).Some? {
      var ds := ChainOfExpiries(parse, der);
    }
  }

  /** `cert_expiration`: the earliest of the fixed maximum and all expiries; an error exactly
      when some segment does not parse. */
  method CertExpiration(parse: Parser, der: Der) returns (r: Option<Time>)
    requires Consumes(parse)
    ensures r.Some? <==> Expiries(parse, der).Some?
    ensures r.Some? ==> Earliest(r.value, Expiries(parse, der).value)
    ensures forall ds, ts :: IsChain(parse, der, ds, ts) ==> r.Some? && Earliest(r.value, ts)
    ensures (forall ds, ts :: !IsChain(parse, der, ds, ts)) ==> r == None
  {
    ChainsDecide(parse, der);
    var rem, expiration := der, DATE_MAX;
    ghost var seen: seq<Time> := [];
    NonePassed(parse, der);
    while true
      invariant Earliest(expiration, seen) && Passed(parse, der, seen, rem)
      decreases |rem|
    {
      match parse(rem)
      case Failed =>
        return None;
      case Cert(notAfter, extra) =>
        PassOne(parse, der, seen, rem);
        LaterSeen(expiration, seen, notAfter);
        seen := seen + [notAfter];
        if notAfter < expiration {
          expiration := notAfter;
        }
        if extra == [] {
          return Some(expiration);
        }
        rem := extra;
    }
  }

  lemma EarliestUnique(e: Time, f: Time, ts: seq<Time>)
    requires Earliest(e, ts) && Earliest(f, ts)
    ensures e == f
  {
  }

  lemma LaterSeen(e: Time, ts: seq<Time>, t: Time)
    requires Earliest(e, ts)
    ensures Earliest(if t < e then t else e, ts + [t])
  {
    assert t in ts + [t] by { assert (ts + [t])[|ts|] == t; }
    assert forall x :: x in ts ==> x in ts + [t];
  }
}
