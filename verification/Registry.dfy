/** The hostname registry of the server: the claimed names, and the connected clients, each
    of which knows its own names. One operation at a time; module RegistryOps has them
    interleave. */
module HostRegistry {
  import opened Text
  import opened RegistryBooks
  import RegistryOps
  import opened ServerClient

  type Host = RegistryOps.Host

  ghost function NamesOf(clients: seq<Client>): (r: seq<set<Host>>)
    reads clients
    ensures |r| == |clients|
  {
    seq(|clients|, i requires 0 <= i < |clients| reads clients => clients[i].hostnames)
  }

  class Registry {
    var claimed: set<Host>
    var clients: seq<Client>

    ghost function State(): Books
      reads this, clients
    {
      Books(claimed, NamesOf(clients))
    }

    ghost predicate Valid()
      reads this, clients
    {
      (forall i, j :: 0 <= i < j < |clients| ==> clients[i] != clients[j]) && Sound(State())
    }

    constructor ()
      ensures Valid() && State() == Books({}, [])
    {
      claimed, clients := {}, [];
    }

    method Register() returns (client: Client)
      requires Valid()
      modifies this`clients
      ensures Valid() && State() == Joined(old(State()))
      ensures fresh(client) && clients == old(clients) + [client]
    {
      client := new Client();
      JoinedSound(State());
      clients := clients + [client];
      assert State() == Joined(old(State()));
    }

    method Claim(client: Client, host: Host, ghost i: nat) returns (ok: bool)
      requires Valid() && i < |clients| && clients[i] == client
      modifies this`claimed, client`hostnames
      ensures Valid() && State() == Claimed(old(State()), i, host)
      ensures ok <==> host !in old(claimed)
      ensures claimed == old(claimed) + {host}
      ensures client.hostnames == old(client.hostnames) + (if ok then {host} else {})
    {
      ClaimedSound(State(), i, host);
      if host in claimed {
        return false;
      }
      claimed := claimed + {host};
      var _ := client.AddHttpHostname(host);
      assert State() == Claimed(old(State()), i, host);
      return true;
    }

    method Release(client: Client, host: Host, ghost i: nat) returns (ok: bool)
      requires Valid() && i < |clients| && clients[i] == client
      modifies this`claimed, client`hostnames
      ensures Valid() && State() == Released(old(State()), i, host)
      ensures ok <==> host in old(client.hostnames)
      ensures claimed == old(claimed) - (if ok then {host} else {})
      ensures client.hostnames == old(client.hostnames) - {host}
    {
      ReleasedSound(State(), i, host);
      ok := client.RemoveHttpHostname(host);
      if ok {
        claimed := claimed - {host};
      } else {
        assert client.hostnames == old(client.hostnames);
      }
      assert NamesOf(clients)[i] == old(NamesOf(clients))[i] - {host};
      assert NamesOf(clients) == old(NamesOf(clients))[i := NamesOf(clients)[i]];
      assert State() == Released(old(State()), i, host);
    }

    /** Takes the client off the list, moving the last one into its place, and frees each of
        its names. */
    method Deregister(client: Client) returns (ok: bool)
      requires Valid()
      modifies this`claimed, this`clients
      ensures Valid()
      ensures ok <==> client in old(clients)
      ensures !ok ==> State() == old(State()) && clients == old(clients)
      ensures ok ==> claimed == old(claimed) - client.hostnames && multiset(clients) == multiset(old(clients)) - multiset{client}
      ensures forall i :: 0 <= i < |old(clients)| && old(clients)[i] == client ==>
                State() == Left(old(State()), i) && clients == RegistryOps.SwapRemove(old(clients), i)
    {
      var index := Position(client);
      if index == |clients| {
        return false;
      }
      LeftSound(State(), index);
      SwapRemoveKeeps(clients, index);
      SwapRemoveBag(clients, index);
      SwapRemoveKeeps(NamesOf(clients), index);
      clients := clients[index := clients[|clients| - 1]][..|clients| - 1];
      FreeNames(client);
      assert NamesOf(clients) == RegistryOps.SwapRemove(old(NamesOf(clients)), index);
      return true;
    }

    method Position(client: Client) returns (index: nat)
      ensures index <= |clients| && client !in clients[..index]
      ensures index < |clients| ==> clients[index] == client
      ensures index == |clients| ==> client !in clients
    {
      index := 0;
      while index < |clients| && clients[index] != client
        invariant 0 <= index <= |clients| && client !in clients[..index]
      {
        index := index + 1;
      }
      assert clients[..|clients|] == clients;
    }

    method FreeNames(client: Client)
      modifies this`claimed
      ensures claimed == old(claimed) - client.hostnames
    {
      var left := client.hostnames;
      while left != {}
        invariant left <= client.hostnames && claimed == old(claimed) - (client.hostnames - left)
        decreases |left|
      {
        var host :| host in left;
        claimed, left := claimed - {host}, left - {host};
      }
      assert client.hostnames - left == client.hostnames;
    }

    /** Scans the clients for the name: finds its only holder, or nobody when it is free. */
    method GetByHttpHostname(host: Host) returns (r: Option<Client>)
      requires Valid()
      ensures r.Some? <==> host in claimed
      ensures forall c :: c in clients && host in c.hostnames ==> r == Some(c)
      ensures r.Some? ==> r.value in clients && host in r.value.hostnames
    {
      FirstWithIffClaimed(State(), host);
      ghost var holder := FirstWith(State().names, host);
      assert holder.Some? ==> host in clients[holder.value].hostnames;
      for i := 0 to |clients|
        invariant forall k :: 0 <= k < i ==> host !in clients[k].hostnames
      {
        if host in clients[i].hostnames {
          assert host in State().names[i];
          forall c | c in clients && host in c.hostnames ensures c == clients[i] {
            var k :| 0 <= k < |clients| && clients[k] == c;
            assert host in State().names[k];
          }
          return Some(clients[i]);
        }
      }
      return None;
    }
  }
}
