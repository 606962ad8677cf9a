/** The server's handlers of HttpOpen and HttpClose. Each works on the registry and on the
    client's record and leaves the message to send; each is proved to take the steps of
    module HttpTunnels. */
module HttpHandlers {
  import opened Text
  import opened Addresses
  import opened Subdomain
  import opened SubdomainLaws
  import opened HttpTunnels
  import RegistryBooks
  import opened ServerClient
  import opened HostRegistry

  /** The client's names and all claimed names are those of `s`. */
  ghost predicate Shows(s: HttpTunnels.State, registry: Registry, client: Client)
    reads registry, client
  {
    s.names.Keys == client.hostnames && s.claimed == registry.claimed
  }

  /** Why an HttpOpen fails. */
  datatype OpenError = Taken | Rejected(why: Requested)

  /** The hostname an HttpOpen asks for; `picked` is a generated name. */
  function HostnameFor(lower: Lowercase, hs: Hostnames, requested: Option<string>, picked: string): Option<string> {
    match SubdomainForForwarding(lower, hs, requested)
    case Any => Some(ClaimedHostname(hs, picked))
    case Label(name) => Some(ClaimedHostname(hs, name))
    case Invalid => None
    case Disallowed => None
  }

  /** `requested` gets this label. */
  predicate Grants(lower: Lowercase, hs: Hostnames, requested: string, name: string) {
    IsLowerLabel(name) && Asks(lower(requested), name, hs.domain) && IsFree(hs, name)
  }

  /** Some label is asked for, free or not. */
  ghost predicate AsksLabel(lower: Lowercase, hs: Hostnames, requested: Option<string>) {
    OrEmpty(requested) != "" && exists name :: IsLowerLabel(name) && Asks(lower(requested.value), name, hs.domain)
  }

  /** Nothing is asked for, or a label that is free. */
  ghost predicate MayHave(lower: Lowercase, hs: Hostnames, requested: Option<string>) {
    OrEmpty(requested) == "" || exists name :: Grants(lower, hs, requested.value, name)
  }

  /** The hostname of a label under the domain. */
  predicate IsUnder(host: string, name: string, domain: string) {
    host == if domain == "" then name else name + "." + domain
  }

  /** A request that asks for nothing gets the generated name; one that asks for a label that
      it may have gets that label, whatever was generated; any other gets nothing. */
  lemma HostnameForIff(lower: Lowercase, hs: Hostnames, requested: Option<string>, picked: string)
    requires Subdomain.Lawful(lower)
    ensures var host := HostnameFor(lower, hs, requested, picked);
            if OrEmpty(requested) == "" then host.Some? && IsUnder(host.value, picked, hs.domain)
            else
              && (host.Some? <==> exists name :: Grants(lower, hs, requested.value, name))
              && (forall name :: Grants(lower, hs, requested.value, name) ==>
                    host.Some? && IsUnder(host.value, name, hs.domain))
  {
    if OrEmpty(requested) != "" {
      SubdomainIff(lower, hs, requested.value);
      var answer := SubdomainForForwarding(lower, hs, requested);
      forall name ensures Grants(lower, hs, requested.value, name) <==> answer == Label(name) {
      }
    }
  }

  lemma WhyRejected(lower: Lowercase, hs: Hostnames, requested: Option<string>)
    requires Subdomain.Lawful(lower)
    ensures var answer := SubdomainForForwarding(lower, hs, requested);
            && (answer == Disallowed <==> AsksLabel(lower, hs, requested) && !MayHave(lower, hs, requested))
            && (answer == Invalid <==> OrEmpty(requested) != "" && !AsksLabel(lower, hs, requested))
            && (answer.Any? || answer.Label? <==> MayHave(lower, hs, requested))
  {
    AnyIff(lower, hs, requested);
    if OrEmpty(requested) != "" {
      var answer := SubdomainForForwarding(lower, hs, requested);
      SubdomainIff(lower, hs, requested.value);
      if answer.Label? {
        assert Grants(lower, hs, requested.value, answer.name);
      }
    }
  }

  /** HttpOpen. What the answer says is what happened: the hostname is the client's exactly
      if it may have it and nobody had it. */
  method Open(lower: Lowercase, hs: Hostnames, requested: Option<string>, picked: string, local: Addr,
              registry: Registry, client: Client, ghost i: nat, ghost s: HttpTunnels.State)
    returns (answer: HttpTunnels.Msg, error: Option<OpenError>, ghost acts: seq<HttpTunnels.Action>)
    requires Subdomain.Lawful(lower) && registry.Valid() && i < |registry.clients| && registry.clients[i] == client
    requires Shows(s, registry, client) && s.handler.Idle?
    modifies registry`claimed, client`hostnames
    ensures registry.Valid() && HttpTunnels.Legal(s, acts) && Shows(HttpTunnels.After(s, acts), registry, client)
    ensures HttpTunnels.After(s, acts).handler == Answering(answer)
    ensures registry.State() == if MayHave(lower, hs, requested)
                                then RegistryBooks.Claimed(old(registry.State()), i, answer.host)
                                else old(registry.State())
    ensures answer.HttpOpened? && answer.local == local
    ensures answer.failed <==> error.Some?
    ensures error == Some(Taken) <==> MayHave(lower, hs, requested) && answer.host in old(registry.claimed)
    ensures error == Some(Rejected(Disallowed)) <==> AsksLabel(lower, hs, requested) && !MayHave(lower, hs, requested)
    ensures error == Some(Rejected(Invalid)) <==> OrEmpty(requested) != "" && !AsksLabel(lower, hs, requested)
    ensures OrEmpty(requested) == "" ==> IsUnder(answer.host, picked, hs.domain)
    ensures OrEmpty(requested) != "" ==> forall name :: Grants(lower, hs, requested.value, name) ==> IsUnder(answer.host, name, hs.domain)
    ensures !MayHave(lower, hs, requested) ==>
              answer == HttpOpened(requested.value, local, true)
              && registry.claimed == old(registry.claimed) && client.hostnames == old(client.hostnames)
    ensures MayHave(lower, hs, requested) ==>
              && (answer.failed <==> answer.host in old(registry.claimed))
              && registry.claimed == old(registry.claimed) + {answer.host}
              && client.hostnames == old(client.hostnames) + (if answer.failed then {} else {answer.host})
  {
    HostnameForIff(lower, hs, requested, picked);
    WhyRejected(lower, hs, requested);
    match HostnameFor(lower, hs, requested, picked) {
      case None =>
        acts := [RefuseOpen(OrEmpty(requested), local)];
        One(s, RefuseOpen(OrEmpty(requested), local));
        answer := HttpOpened(OrEmpty(requested), local, true);
        error := Some(Rejected(SubdomainForForwarding(lower, hs, requested)));
      case Some(host) =>
        answer, acts := OpenFree(host, local, registry, client, i, s);
        error := if answer.failed then Some(Taken) else None;
    }
  }

  /** A hostname that may be had is the client's, unless somebody has it. */
  method OpenFree(host: string, local: Addr, registry: Registry, client: Client, ghost i: nat, ghost s: HttpTunnels.State)
    returns (answer: HttpTunnels.Msg, ghost acts: seq<HttpTunnels.Action>)
    requires registry.Valid() && i < |registry.clients| && registry.clients[i] == client
    requires Shows(s, registry, client) && s.handler.Idle?
    modifies registry`claimed, client`hostnames
    ensures registry.Valid() && HttpTunnels.Legal(s, acts) && Shows(HttpTunnels.After(s, acts), registry, client)
    ensures HttpTunnels.After(s, acts).handler == Answering(answer)
    ensures answer == HttpOpened(host, local, host in old(registry.claimed))
    ensures registry.State() == RegistryBooks.Claimed(old(registry.State()), i, host)
    ensures registry.claimed == old(registry.claimed) + {host}
    ensures client.hostnames == old(client.hostnames) + (if host in old(registry.claimed) then {} else {host})
  {
    acts := OpenActs(s, host, local);
    OpenLegal(s, host, local);
    assert old(registry.State()).names[i] == client.hostnames;
    var claimed := registry.Claim(client, host, i);
    assert registry.State().names[i] == client.hostnames;
    answer := HttpOpened(host, local, !claimed);
  }

  method Close(host: string, registry: Registry, client: Client, ghost i: nat, ghost s: HttpTunnels.State)
    returns (answer: HttpTunnels.Msg, ghost acts: seq<HttpTunnels.Action>)
    requires registry.Valid() && i < |registry.clients| && registry.clients[i] == client
    requires Shows(s, registry, client) && s.handler.Idle?
    modifies registry`claimed, client`hostnames
    ensures registry.Valid() && HttpTunnels.Legal(s, acts) && Shows(HttpTunnels.After(s, acts), registry, client)
    ensures HttpTunnels.After(s, acts).handler == Answering(answer)
    ensures answer == HttpClosed(host, host !in old(client.hostnames))
    ensures client.hostnames == old(client.hostnames) - {host}
    ensures registry.claimed == old(registry.claimed) - (if host in old(client.hostnames) then {host} else {})
    ensures registry.State() == RegistryBooks.Released(old(registry.State()), i, host)
  {
    acts := CloseActs(s, host);
    CloseLegal(s, host);
    assert old(registry.State()).names[i] == client.hostnames;
    var released := registry.Release(client, host, i);
    assert registry.State().names[i] == client.hostnames;
    answer := HttpClosed(host, !released);
  }

  // ---------- the steps each handler takes

  function OpenActs(s: HttpTunnels.State, host: string, local: Addr): seq<HttpTunnels.Action> {
    if host in s.claimed then [ClaimName(host, local)] else [ClaimName(host, local), AddName]
  }

  /** Either the name was taken and nothing changes, or it is the client's now. */
  lemma {:induction false} OpenLegal(s: HttpTunnels.State, host: string, local: Addr)
    requires s.handler.Idle?
    ensures HttpTunnels.Legal(s, OpenActs(s, host, local))
    ensures var s' := HttpTunnels.After(s, OpenActs(s, host, local));
            && s'.handler == Answering(HttpOpened(host, local, host in s.claimed))
            && s'.names == (if host in s.claimed then s.names else s.names[host := local])
            && s'.claimed == s.claimed + {host}
  {
    if host in s.claimed {
      One(s, ClaimName(host, local));
      assert s.claimed + {host} == s.claimed;
    } else {
      Two(s, ClaimName(host, local), AddName);
    }
  }

  function CloseActs(s: HttpTunnels.State, host: string): seq<HttpTunnels.Action> {
    if host in s.names then [RemoveName(host), FreeName] else [RemoveName(host)]
  }

  /** Only the client's own name is given up. */
  lemma {:induction false} CloseLegal(s: HttpTunnels.State, host: string)
    requires s.handler.Idle?
    ensures HttpTunnels.Legal(s, CloseActs(s, host))
    ensures var s' := HttpTunnels.After(s, CloseActs(s, host));
            && s'.handler == Answering(HttpClosed(host, host !in s.names))
            && s'.names == s.names - {host}
            && s'.claimed == (if host in s.names then s.claimed - {host} else s.claimed)
  {
    if host in s.names {
      Two(s, RemoveName(host), FreeName);
    } else {
      One(s, RemoveName(host));
      assert s.names - {host} == s.names;
    }
  }
}
