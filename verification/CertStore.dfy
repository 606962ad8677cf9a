/** The certificate store: the cached certificates, when they are to be renewed, and one
    renewal by itself. Several at once are the subject of module CertRenewal. */
module CertStore {
  import opened Text
  import opened Expiration
  import opened CertRenewal

  /** `c` is what `cert_expiration` makes of `der`. */
  ghost predicate Judged(parse: Parser, der: Der, c: Cached)
    requires Consumes(parse)
  {
    match c
    case Unreadable => Expiries(parse, der) == None
    case Readable(e) => Expiries(parse, der).Some? && Earliest(e, Expiries(parse, der).value)
  }

  class Store {
    var certs: map<string, Der>
    const domain: string

    constructor (domain: string)
      ensures this.domain == domain && certs == map[]
    {
      this.domain := domain;
      certs := map[];
    }

    function Name(d: Domain): string {
      if d.Root? then domain else "*." + domain
    }

    ghost predicate Shows(parse: Parser, s: State, d: Domain)
      reads this
      requires Consumes(parse)
    {
      (d in s.certs <==> Name(d) in certs) && (d in s.certs ==> Judged(parse, certs[Name(d)], s.certs[d]))
    }

    /** No certificate, none that can be read, or one that expires within 30 days. */
    method ShouldRenewCert(parse: Parser, now: Time, d: Domain, ghost s: State) returns (r: bool)
      requires Consumes(parse) && Shows(parse, s, d) && now == s.now
      ensures r <==> !Fresh(s, d)
      ensures !r <==> Name(d) in certs && Expiries(parse, certs[Name(d)]).Some? && now + 30 * 24 * 60 * 60 <= DATE_MAX
                      && forall t :: t in Expiries(parse, certs[Name(d)]).value ==> now + 30 * 24 * 60 * 60 <= t
    {
      if Name(d) !in certs {
        return true;
      }
      var expiration := CertExpiration(parse, certs[Name(d)]);
      assert Judged(parse, certs[Name(d)], s.certs[d]);
      match expiration
      case None =>
        return true;
      case Some(e) =>
        EarliestUnique(e, s.certs[d].expires, Expiries(parse, certs[Name(d)]).value);
        return e < now + RENEW_SECONDS;
    }

    /** The table once what was requested for `d` is stored, if it was issued. */
    function Stored(t: map<string, Der>, d: Domain, requested: seq<Domain>, issued: map<Domain, Der>): map<string, Der> {
      if d in requested && d in issued then t[Name(d) := issued[d]] else t
    }

    /** `issued` is what the generator gives for each domain, `requested` what it is asked
        for: the stale certificates, the root first, until one is not issued. Each one issued
        is stored and nothing else changes. */
    method Renew(parse: Parser, now: Time, issued: map<Domain, Der>, ghost s: State)
      returns (ok: bool, requested: seq<Domain>)
      requires Consumes(parse) && Shows(parse, s, Root) && Shows(parse, s, Wildcard) && now == s.now
      modifies this`certs
      ensures Root in requested <==> !Fresh(s, Root)
      ensures Wildcard in requested <==> !Fresh(s, Wildcard) && (Fresh(s, Root) || Root in issued)
      ensures requested == [] || |requested| == 1 || requested == [Root, Wildcard]
      ensures ok <==> forall d :: d in requested ==> d in issued
      ensures certs == Stored(Stored(old(certs), Root, requested, issued), Wildcard, requested, issued)
    {
      ok, requested := true, [];
      var stale := ShouldRenewCert(parse, now, Root, s);
      if !stale {
        stale := ShouldRenewCert(parse, now, Wildcard, s);
      }
      if stale {
        ok, requested := RenewDomain(parse, now, Root, issued, s);
        if ok {
          var more;
          ok, more := RenewDomain(parse, now, Wildcard, issued, s);
          requested := requested + more;
        }
      }
    }

    /** One turn of the loop under the lock, which checks again. */
    method RenewDomain(parse: Parser, now: Time, d: Domain, issued: map<Domain, Der>, ghost s: State)
      returns (ok: bool, requested: seq<Domain>)
      requires Consumes(parse) && Shows(parse, s, d) && now == s.now
      modifies this`certs
      ensures requested == if Fresh(s, d) then [] else [d]
      ensures ok <==> Fresh(s, d) || d in issued
      ensures certs == Stored(old(certs), d, requested, issued)
    {
      var stale := ShouldRenewCert(parse, now, d, s);
      if !stale {
        return true, [];
      }
      if d in issued {
        certs := certs[Name(d) := issued[d]];
      }
      return d in issued, [d];
    }
  }
}
